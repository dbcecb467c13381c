/** The runner's methods as runs of the interleaved engine: what a pass with its close does without interruption is
    what the engine's steps do with nothing in between (app/workflow.go). */
module RunnerSteps {
  import opened Basics
  import TaskStates
  import opened DependencyGraph
  import opened Scheduling
  import opened WorkflowEngine
  import WorkflowRunner

  function DoAll(flow: Flow, v: View, works: seq<Work>): View
    decreases |works|
  {
    if works == [] then v else DoAll(flow, Do(flow, v, works[0]), works[1..])
  }

  lemma {:induction false} DoAllConcat(flow: Flow, v: View, a: seq<Work>, b: seq<Work>)
    ensures DoAll(flow, v, a + b) == DoAll(flow, DoAll(flow, v, a), b)
    decreases |a|
  {
    if a == [] {
      assert a + b == b;
    } else {
      assert (a + b)[0] == a[0] && (a + b)[1..] == a[1..] + b;
      DoAllConcat(flow, Do(flow, v, a[0]), a[1..], b);
    }
  }

  lemma DoOne(flow: Flow, v: View, w: Work)
    ensures DoAll(flow, v, [w]) == Do(flow, v, w)
  {
    assert [w][1..] == [];
  }

  function ByAll(c: nat, works: seq<Work>): seq<Action> {
    if works == [] then [] else [By(c, works[0])] + ByAll(c, works[1..])
  }

  /** Work of one center with nothing in between is a run of the engine. */
  lemma {:induction false} DoAllIsRun(flow: Flow, s: State, c: nat, works: seq<Work>)
    ensures var next, v := Run(flow, s, ByAll(c, works)), DoAll(flow, See(s, c), works);
            See(next, c) == v && forall e: nat :: e != c ==> At(next, e) == At(s, e)
    decreases |works|
  {
    if works != [] {
      var next := Step(flow, s, By(c, works[0]));
      assert See(next, c) == Do(flow, See(s, c), works[0]);
      DoAllIsRun(flow, next, c, works[1..]);
      var actions := ByAll(c, works);
      assert actions[0] == By(c, works[0]) && actions[1..] == ByAll(c, works[1..]);
    }
  }

  // ----- the pass -----

  function BackIn(flow: Flow, v: View, todo: set<Task>, see: Glances): TaskStates.States
    requires v.me.lock.Passing? && todo <= v.me.lock.snapshot.Keys
  {
    map t | t in v.tasks :: if t in todo then PutBack(v.me.lock.snapshot[t], see(t).now) else v.tasks[t]
  }

  lemma {:induction false} PutBackAll(flow: Flow, v: View, todo: set<Task>, see: Glances, timeout: int)
    returns (works: seq<Work>)
    requires v.me.lock.Passing? && todo <= v.me.lock.snapshot.Keys && todo <= v.tasks.Keys
    requires forall t :: t in todo ==>
               IsLost(flow, v.me.lock.snapshot, see, timeout, t) && v.tasks[t] == v.me.lock.snapshot[t]
    ensures DoAll(flow, v, works) == v.(tasks := BackIn(flow, v, todo, see))
    decreases todo
  {
    if todo == {} {
      works := [];
      assert BackIn(flow, v, todo, see) == v.tasks;
    } else {
      var t :| t in todo;
      var w := PutBackLost(t, see, timeout);
      var next := Do(flow, v, w);
      assert next == v.(tasks := v.tasks[t := PutBack(v.me.lock.snapshot[t], see(t).now)]);
      var rest := PutBackAll(flow, next, todo - {t}, see, timeout);
      works := [w] + rest;
      assert works[0] == w && works[1..] == rest;
      assert BackIn(flow, next, todo - {t}, see) == BackIn(flow, v, todo, see);
    }
  }

  lemma SweepIsSteps(flow: Flow, v: View, see: Glances, timeout: int, after: TaskStates.States, complete: bool)
    returns (works: seq<Work>)
    requires v.me.lock.Free? && Swept(flow, v.tasks, see, timeout, after, complete)
    ensures DoAll(flow, v, works) == View(v.plan, after, v.me.(lock := Passing(v.tasks)))
  {
    var reading := Do(flow, v, BeginPass);
    var todo := set t | t in after && after[t] != v.tasks[t];
    var rest := PutBackAll(flow, reading, todo, see, timeout);
    assert BackIn(flow, reading, todo, see) == after;
    works := [BeginPass] + rest;
    DoOne(flow, v, BeginPass);
    DoAllConcat(flow, v, [BeginPass], rest);
  }

  /** A close, with or without a plan key. */
  lemma FinishIsSteps(flow: Flow, v: View, withError: bool, now: int, log: Option<WorkflowRunner.FinalState>,
                      killed: set<Task>, plan: Option<TaskStates.PlanState>, states: TaskStates.States)
    requires v.me.lock.Free? && WorkflowRunner.Closed(v.plan, v.tasks, withError, now, log, killed, plan, states)
    ensures DoAll(flow, v, [BeginClose, ClearPlan, ClearTasks]) == View(plan, states, v.me)
  {
    var works := [BeginClose, ClearPlan, ClearTasks];
    var v1 := Do(flow, v, BeginClose);
    var v2 := Do(flow, v1, ClearPlan);
    assert works[1..] == [ClearPlan, ClearTasks] && works[1..][1..] == [ClearTasks];
    DoOne(flow, v2, ClearTasks);
    assert DoAll(flow, v1, works[1..]) == DoAll(flow, v2, [ClearTasks]);
  }

  lemma DistinctAreASet(s: seq<Task>, all: set<Task>)
    requires Distinct(s) && forall t :: t in s <==> t in all
    ensures multiset(s) == multiset(all)
  {
    forall t ensures multiset(s)[t] == multiset(all)[t] {
      DistinctCounts(s, t);
    }
  }

  lemma EndQueuesEvents(flow: Flow, v: View, see: Glances, timeout: int, leader: bool, verdict: Verdict)
    requires v.me.lock.Passing? && Answers(verdict, flow, v.me.lock.snapshot, see, timeout)
    ensures var events := if verdict.Ready? && leader then verdict.tasks else [];
            Do(flow, v, EndPass(see, timeout, leader)) ==
            v.(me := v.me.(lock := Free, queued := v.me.queued + multiset(events)))
  {
    if verdict.Ready? {
      DistinctAreASet(verdict.tasks, ReadySet(flow, v.me.lock.snapshot, see, timeout));
    }
  }

  /** Whatever an uninterrupted pass and its close leave, the engine's steps leave: the same plan key and records, the
      start events sent in the queue, and the lock free again. */
  lemma PassIsSteps(flow: Flow, v: View, see: Glances, timeout: int, now: int, leader: bool,
                    o: WorkflowRunner.Outcome, plan: Option<TaskStates.PlanState>, states: TaskStates.States)
    returns (works: seq<Work>)
    requires v.me.lock.Free?
    requires WorkflowRunner.Scheduled(flow, v.plan, v.tasks, see, timeout, now, leader, o, plan, states)
    ensures DoAll(flow, v, works) == View(plan, states, v.me.(queued := v.me.queued + multiset(o.events)))
  {
    var end := EndPass(see, timeout, leader);
    var swept := states;
    if !o.verdict.Ready? {
      swept :| Swept(flow, v.tasks, see, timeout, swept, o.verdict.Succeeded?)
               && WorkflowRunner.Closed(v.plan, swept, o.verdict.Failed?, now, o.log, o.killed, plan, states);
    }
    var sweep := SweepIsSteps(flow, v, see, timeout, swept, !o.verdict.Failed?);
    var reading := DoAll(flow, v, sweep);
    EndQueuesEvents(flow, reading, see, timeout, leader, o.verdict);
    DoOne(flow, reading, end);
    DoAllConcat(flow, v, sweep, [end]);
    works := sweep + [end];
    var ended := DoAll(flow, v, works);
    assert ended == View(v.plan, swept, v.me.(queued := v.me.queued + multiset(o.events)));
    if !o.verdict.Ready? {
      var close := [BeginClose, ClearPlan, ClearTasks];
      FinishIsSteps(flow, ended, o.verdict.Failed?, now, o.log, o.killed, plan, states);
      DoAllConcat(flow, v, works, close);
      works := works + close;
    }
  }
}
