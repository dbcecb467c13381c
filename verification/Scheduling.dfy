/** The decision pass of the workflow engine: which tasks of a running plan may be started now
    (`WorkflowPlan.CanSchedule` in app/workflow.go). */
module Scheduling {
  import opened Basics
  import opened TaskStates
  import opened DependencyGraph
  import PlanRows

  // ----- what a pass reads besides the stored states -----

  /** Outcome of looking for the execution lock of a task that claims to run, and of the kill that follows
      when the lock is missing. */
  datatype Probe = LockHeld | LockUnknown | KillFailed | LockGone

  /** What the pass sees when it visits one task: the clock, whether a start of that task id is under way
      in this process, and the lock probe. */
  datatype Glance = Glance(now: int, inProcess: bool, probe: Probe)

  type Glances = Task -> Glance

  /** The debounce window is the deploy timeout plus this many seconds. */
  const DEBOUNCE_MARGIN := 2

  // ----- the rules -----

  predicate IsDone(states: States, t: Task) {
    t in states && states[t].current.Done?
  }

  predicate DepsDone(flow: Flow, states: States, t: Task) {
    t in flow && forall d :: d in flow[t] && d.id != "" ==> IsDone(states, d)
  }

  /** Neither done nor waiting for another task. */
  predicate Eligible(flow: Flow, states: States, t: Task) {
    t in flow && !IsDone(states, t) && DepsDone(flow, states, t)
  }

  function StatusIn(states: States, t: Task): Status {
    if t in states then states[t].current else NotRunning
  }

  function LogIn(states: States, t: Task): seq<Record> {
    if t in states then states[t].records else []
  }

  predicate AfterDebounce(log: seq<Record>, now: int, timeout: int) {
    log == [] || log[|log| - 1].eventTime <= now - (timeout + DEBOUNCE_MARGIN)
  }

  /** The task has used up its starts: the whole plan fails. */
  predicate Exhausted(flow: Flow, states: States, t: Task) {
    && Eligible(flow, states, t)
    && t in states
    && (states[t].current.Fail? || states[t].current.Starting?)
    && states[t].count >= SCHEDULE_LIMIT
  }

  predicate IsReady(flow: Flow, states: States, see: Glances, timeout: int, t: Task) {
    && Eligible(flow, states, t)
    && var log := LogIn(states, t);
       match StatusIn(states, t)
       case Starting =>
         !see(t).inProcess
         && (log == [] || log[|log| - 1].status != Known(Starting) || AfterDebounce(log, see(t).now, timeout))
       case Running => false
       case _ => |log| <= 1 || AfterDebounce(log, see(t).now, timeout)
  }

  /** The task claims to run, quietly enough and without its lock: it is put back for another start. */
  predicate IsLost(flow: Flow, states: States, see: Glances, timeout: int, t: Task) {
    && Eligible(flow, states, t)
    && StatusIn(states, t).Running?
    && AfterDebounce(LogIn(states, t), see(t).now, timeout)
    && see(t).probe.LockGone?
  }

  const RERUN_REASON := "waiting re-run"

  /** The attempt a put-back is recorded under: the latest one in the log. */
  function LatestTmpID(s: TaskState): string {
    if s.records == [] then "" else s.records[|s.records| - 1].tmpID
  }

  function PutBack(s: TaskState, now: int): TaskState {
    Requeued(s, LatestTmpID(s), RERUN_REASON, now)
  }

  predicate AllDone(flow: Flow, states: States) {
    forall t :: t in flow ==> IsDone(states, t)
  }

  predicate PlanExhausted(flow: Flow, states: States) {
    exists t :: t in flow && Exhausted(flow, states, t)
  }

  function ReadySet(flow: Flow, states: States, see: Glances, timeout: int): set<Task> {
    set t | t in flow && IsReady(flow, states, see, timeout, t)
  }

  // ----- how long a task is left alone -----

  /** Something happened to the task less than the debounce window ago: its latest record is younger than the timeout
      plus two seconds. */
  predicate Recent(s: TaskState, now: int, timeout: int) {
    s.records != [] && now - s.records[|s.records| - 1].eventTime < timeout + 2
  }

  /** What a pass starts it has left alone for the debounce window. A task with one record at most is started at once,
      and so is a starting one whose latest record is not that of the start. */
  lemma ReadyTasksAreRested(flow: Flow, states: States, see: Glances, timeout: int, t: Task)
    requires t in states
    ensures t in ReadySet(flow, states, see, timeout) <==>
            var s := states[t];
            && t in flow && (forall d :: d in flow[t] && d.id != "" ==> d in states && states[d].current == Done)
            && s.current != Done && s.current != Running
            && (s.current == Starting ==>
                  !see(t).inProcess
                  && (s.records != [] && s.records[|s.records| - 1].status == Known(Starting) ==>
                        !Recent(s, see(t).now, timeout)))
            && (s.current != Starting && |s.records| >= 2 ==> !Recent(s, see(t).now, timeout))
  {
  }

  /** None of these tasks is started while the latest thing that happened to it is recent. */
  ghost predicate AllRested(tasks: seq<Task>, states: States, see: Glances, timeout: int) {
    forall t :: t in tasks && t in states ==>
      var s := states[t];
      if s.current == Starting
      then !see(t).inProcess
           && (s.records != [] && s.records[|s.records| - 1].status == Known(Starting) ==>
                 !Recent(s, see(t).now, timeout))
      else |s.records| >= 2 ==> !Recent(s, see(t).now, timeout)
  }

  lemma AnswersAreRested(v: Verdict, flow: Flow, states: States, see: Glances, timeout: int)
    requires Answers(v, flow, states, see, timeout)
    ensures v.Ready? ==> AllRested(v.tasks, states, see, timeout)
  {
    assert v.Ready? ==> forall t :: t in v.tasks ==> t in ReadySet(flow, states, see, timeout);
  }

  /** A task without a record is started as soon as its dependencies are done. */
  lemma NewTasksAreReady(flow: Flow, states: States, see: Glances, timeout: int, t: Task)
    requires t !in states
    ensures t in ReadySet(flow, states, see, timeout) <==>
            t in flow && forall d :: d in flow[t] && d.id != "" ==> d in states && states[d].current == Done
  {
  }

  ghost predicate DependenciesMet(flow: Flow, states: States, t: Task) {
    t in flow && forall d :: d in flow[t] && d.id != "" ==> d in states && states[d].current == Done
  }

  /** After a failed try with starts left: started again exactly from timeout plus two seconds on. */
  lemma FailedTaskWaits(flow: Flow, states: States, see: Glances, timeout: int, t: Task,
                        prior: TaskState, agentIP: string, report: Report, at: int)
    requires t in states && states[t] == Finished(prior, agentIP, report, at) && DependenciesMet(flow, states, t)
    requires prior.records != [] && !Settled(prior) && report.status == Known(Fail) && prior.count < 3
    ensures t in ReadySet(flow, states, see, timeout) <==> see(t).now >= at + timeout + 2
  {
    ReadyTasksAreRested(flow, states, see, timeout, t);
  }

  /** After a start that nobody reports on: started again from timeout plus two seconds on, if no start of it is under
      way; from the third start on the plan fails instead. */
  lemma StartedTaskWaits(flow: Flow, states: States, see: Glances, timeout: int, t: Task,
                         prior: Option<TaskState>, command: string, tmpID: string, at: int)
    requires t in states && states[t] == Started(prior, command, tmpID, at) && DependenciesMet(flow, states, t)
    ensures t in ReadySet(flow, states, see, timeout) <==> !see(t).inProcess && see(t).now >= at + timeout + 2
    ensures Exhausted(flow, states, t) <==> prior.Some? && prior.value.count >= 2
  {
    ReadyTasksAreRested(flow, states, see, timeout, t);
  }

  /** While it runs it is never started; it is put back exactly from timeout plus two seconds on, when its lock is
      found gone and the kill that follows succeeds. */
  lemma RunningTaskWaits(flow: Flow, states: States, see: Glances, timeout: int, t: Task,
                         prior: TaskState, tmpID: string, agentIP: string, at: int)
    requires t in states && states[t] == Ran(prior, tmpID, agentIP, at) && DependenciesMet(flow, states, t)
    ensures t !in ReadySet(flow, states, see, timeout)
    ensures IsLost(flow, states, see, timeout, t) <==> see(t).now >= at + timeout + 2 && see(t).probe == LockGone
  {
    ReadyTasksAreRested(flow, states, see, timeout, t);
  }

  /** After a put-back: started again exactly from timeout plus two seconds on, whatever its count. */
  lemma PutBackTaskWaits(flow: Flow, states: States, see: Glances, timeout: int, t: Task, prior: TaskState, at: int)
    requires t in states && states[t] == PutBack(prior, at) && DependenciesMet(flow, states, t)
    requires prior.records != []
    ensures t in ReadySet(flow, states, see, timeout) <==> see(t).now >= at + timeout + 2
    ensures states[t].records[|prior.records|] ==
            Record(prior.records[|prior.records| - 1].tmpID, "waiting re-run", Known(NotRunning), at, "")
  {
    ReadyTasksAreRested(flow, states, see, timeout, t);
  }

  // ----- answers -----

  /** `Busy` is the answer of a pass that finds the plan locked. */
  datatype Verdict = Busy | Failed | Succeeded | Ready(tasks: seq<Task>)

  /** An answer of a pass that got the lock, in terms of the stored states it started from. */
  ghost predicate Answers(v: Verdict, flow: Flow, states: States, see: Glances, timeout: int) {
    match v
    case Busy => false
    case Failed => PlanExhausted(flow, states)
    case Succeeded => !PlanExhausted(flow, states) && AllDone(flow, states)
    case Ready(tasks) =>
      && !PlanExhausted(flow, states) && !AllDone(flow, states)
      && Distinct(tasks)
      && forall t :: t in tasks <==> t in ReadySet(flow, states, see, timeout)
  }

  /** The answer does not depend on the order in which the plan's map is walked: any two right answers
      agree, up to the order of the ready list, and some answer is always right. */
  lemma VerdictIsUnique(v: Verdict, w: Verdict, flow: Flow, states: States, see: Glances, timeout: int)
    requires Answers(v, flow, states, see, timeout) && Answers(w, flow, states, see, timeout)
    ensures v.Ready? <==> w.Ready?
    ensures v.Ready? ==> multiset(v.tasks) == multiset(w.tasks)
    ensures !v.Ready? ==> v == w
  {
    if v.Ready? {
      forall t ensures multiset(v.tasks)[t] == multiset(w.tasks)[t] {
        DistinctCounts(v.tasks, t);
        DistinctCounts(w.tasks, t);
        assert t in v.tasks <==> t in w.tasks;
      }
    }
  }

  // ----- progress -----

  /** Somebody can move: while an acyclic, self-contained plan is unfinished, some unfinished task has all
      its dependencies done. */
  lemma SomeTaskIsEligible(flow: Flow, states: States)
    requires Acyclic(flow) && AllListed(flow)
    requires !AllDone(flow, states)
    ensures exists t :: Eligible(flow, states, t)
  {
    if !exists t :: Eligible(flow, states, t) {
      var s := set t | t in Mentioned(flow) && !IsDone(states, t);
      forall t | t in s && t in flow ensures exists d :: d in s && DependsOn(flow, t, d) {
        assert !Eligible(flow, states, t);
        var d :| d in flow[t] && d.id != "" && !IsDone(states, d);
        assert d in Mentioned(flow);
        assert d in s && DependsOn(flow, t, d);
      }
      var t :| t in flow && !IsDone(states, t);
      assert t in s && Stuck(flow, s);
      BlockedIffStuck(flow, t);
      NothingBlockedIff(flow);
      assert false;
    }
  }

  /** With nothing starting or running, and every debounce window over, the pass has a task to start. */
  lemma ReadyListIsNonEmpty(flow: Flow, states: States, see: Glances, timeout: int)
    requires Acyclic(flow) && AllListed(flow)
    requires !AllDone(flow, states)
    requires forall t :: t in states ==> !states[t].current.Starting? && !states[t].current.Running?
    requires forall t :: t in states ==> AfterDebounce(states[t].records, see(t).now, timeout)
    ensures ReadySet(flow, states, see, timeout) != {}
  {
    SomeTaskIsEligible(flow, states);
    var t :| Eligible(flow, states, t);
    assert IsReady(flow, states, see, timeout, t);
    assert t in ReadySet(flow, states, see, timeout);
  }

  /** The branch for a failed task with starts left is dead on every store whose records replay their logs. */
  lemma FailedTasksAreExhausted(flow: Flow, states: States, t: Task)
    requires AllReplay(states)
    requires Eligible(flow, states, t) && StatusIn(states, t).Fail?
    ensures Exhausted(flow, states, t)
  {
    ReplayedFailIsExhausted(states[t].records);
  }

  // ----- the pass itself -----

  /** A pass has visited the tasks of `seen` without giving up. */
  ghost predicate Progress(flow: Flow, taskStates: States, see: Glances, timeout: int,
                           seen: set<Task>, readys: seq<Task>, finished: bool, states: States)
  {
    && (forall t :: t in seen ==> !Exhausted(flow, taskStates, t))
    && (finished <==> forall t :: t in seen ==> IsDone(taskStates, t))
    && Distinct(readys)
    && (forall t :: t in readys <==> t in seen && IsReady(flow, taskStates, see, timeout, t))
    && states.Keys == taskStates.Keys
    && (forall t :: t in taskStates ==>
          states[t] == if t in seen && IsLost(flow, taskStates, see, timeout, t)
                       then PutBack(taskStates[t], see(t).now) else taskStates[t])
  }

  /** The effect of a pass on the store: lost tasks are put back, all of them if it is complete, and nothing
      else changes. */
  ghost predicate Swept(flow: Flow, before: States, see: Glances, timeout: int, after: States, complete: bool) {
    && after.Keys == before.Keys
    && forall t :: t in before ==>
         if IsLost(flow, before, see, timeout, t)
         then after[t] == PutBack(before[t], see(t).now) || (!complete && after[t] == before[t])
         else after[t] == before[t]
  }

  lemma ProgressSweeps(flow: Flow, taskStates: States, see: Glances, timeout: int,
                       seen: set<Task>, readys: seq<Task>, finished: bool, states: States)
    requires Progress(flow, taskStates, see, timeout, seen, readys, finished, states)
    ensures Swept(flow, taskStates, see, timeout, states, seen == flow.Keys)
    ensures seen == flow.Keys ==>
              Answers(if finished then Succeeded else Ready(readys), flow, taskStates, see, timeout)
  {
  }

  /** The pass looks up the latest record of a running task; there is one whenever records replay their logs,
      and a pass keeps that. */
  ghost predicate RunningIsLogged(states: States) {
    forall t :: t in states && states[t].current.Running? ==> states[t].records != []
  }

  lemma PassKeepsReplay(flow: Flow, before: States, see: Glances, timeout: int, after: States, complete: bool)
    requires AllReplay(before)
    ensures RunningIsLogged(before)
    ensures Swept(flow, before, see, timeout, after, complete) ==> AllReplay(after)
  {
    forall t | t in before
      ensures before[t].current.Running? ==> before[t].records != []
      ensures Replays(PutBack(before[t], see(t).now))
    {
      var s := before[t];
      ReplayedFailIsExhausted(s.records);
      RunAndRequeueReplay(s, LatestTmpID(s), RERUN_REASON, see(t).now);
    }
  }

  lemma PassSkips(flow: Flow, taskStates: States, see: Glances, timeout: int,
                  seen: set<Task>, readys: seq<Task>, finished: bool, states: States, task: Task)
    requires Progress(flow, taskStates, see, timeout, seen, readys, finished, states)
    ensures !Eligible(flow, taskStates, task) && task in flow ==>
              Progress(flow, taskStates, see, timeout, seen + {task}, readys,
                       finished && IsDone(taskStates, task), states)
  {
    assert task in seen + {task};
  }

  lemma PassVisits(flow: Flow, taskStates: States, see: Glances, timeout: int, seen: set<Task>, readys: seq<Task>,
                   finished: bool, before: States, task: Task, move: Move, after: States)
    requires Progress(flow, taskStates, see, timeout, seen, readys, finished, before)
    requires Eligible(flow, taskStates, task) && !Exhausted(flow, taskStates, task) && task !in seen
    requires move.Schedule? <==> IsReady(flow, taskStates, see, timeout, task)
    requires after == if IsLost(flow, taskStates, see, timeout, task)
                      then before[task := PutBack(taskStates[task], see(task).now)] else before
    ensures Progress(flow, taskStates, see, timeout, seen + {task},
                     if move.Schedule? then readys + [task] else readys, false, after)
  {
    assert task in seen + {task} && !IsDone(taskStates, task);
  }

  /** What the pass does with one task. */
  datatype Move = Skip | Schedule | GiveUp

  class WorkflowPlan {
    var taskFlow: Flow
    var planUpdateTime: int
    var locked: bool

    constructor ()
      ensures taskFlow == map[] && planUpdateTime == 0 && !locked
    {
      taskFlow, planUpdateTime, locked := map[], 0, false;
    }

    /** Bring the graph in memory up to the stored rows; `latest` is the creation time of the newest one. The graph
        is rebuilt only when that time has changed, so rows saved twice within one tick of the clock are missed. */
    method RefreshPlanTasks(rows: seq<PlanRows.Row>, latest: Option<int>)
      modifies this`taskFlow, this`planUpdateTime
      ensures taskFlow == PlanRows.RefreshedFlow(old(taskFlow), old(planUpdateTime), rows, latest)
      ensures taskFlow == PlanRows.FlowOf(rows) <==>
              if latest.None? then rows == []
              else latest.value != old(planUpdateTime) || old(taskFlow) == PlanRows.FlowOf(rows)
      ensures planUpdateTime == if latest.None? then 0 else latest.value
    {
      var depsMap: Flow := map[];
      if latest.None? {
        assert rows != [] ==> rows[0] in rows && rows[0].task in PlanRows.FlowOf(rows);
        taskFlow, planUpdateTime := depsMap, 0;
        return;
      } else if planUpdateTime == latest.value {
        return;
      }
      for i := 0 to |rows|
        invariant depsMap == PlanRows.FlowOf(rows[..i])
      {
        var v := rows[i];
        assert rows[..i + 1] == rows[..i] + [v] && rows[..i + 1][..i] == rows[..i];
        PlanRows.Regrouping(rows[..i], v);
        depsMap := depsMap[v.task := (if v.task in depsMap then depsMap[v.task] else []) + [v.dep]];
      }
      assert rows[..|rows|] == rows;
      taskFlow, planUpdateTime := depsMap, latest.value;
    }

    /** One pass. Besides answering, it puts every lost task back to "not running"; a pass that ends in
        failure may have reached only some of them. */
    method CanSchedule(store: WorkflowStore, see: Glances, timeout: int) returns (verdict: Verdict)
      requires RunningIsLogged(store.states)
      modifies store`states
      ensures verdict.Busy? <==> locked
      ensures locked ==> store.states == old(store.states)
      ensures !locked ==> Answers(verdict, taskFlow, old(store.states), see, timeout)
      ensures verdict.Ready? ==> AllRested(verdict.tasks, old(store.states), see, timeout)
      ensures Swept(taskFlow, old(store.states), see, timeout, store.states, !locked && !verdict.Failed?)
    {
      if locked {
        return Busy;
      }
      var readys: seq<Task> := [];
      var finished := true;
      var flow, taskStates := taskFlow, store.states;
      var todo := flow.Keys;
      ghost var seen: set<Task> := {};
      while todo != {}
        invariant seen + todo == flow.Keys && seen !! todo
        invariant Progress(flow, taskStates, see, timeout, seen, readys, finished, store.states)
        decreases todo
      {
        var task :| task in todo;
        todo := todo - {task};
        PassSkips(flow, taskStates, see, timeout, seen, readys, finished, store.states, task);
        ghost var before := seen;
        seen := seen + {task};
        assert seen + todo == flow.Keys;
        if task in taskStates && taskStates[task].current == Done {
          continue;
        }
        var ok := DependenciesDone(flow[task], taskStates);
        if !ok {
          finished := false;
          continue;
        }
        ghost var states := store.states;
        var move := Visit(store, taskStates, task, see, timeout);
        if move.GiveUp? {
          ProgressSweeps(flow, taskStates, see, timeout, before, readys, finished, store.states);
          return Failed;
        }
        PassVisits(flow, taskStates, see, timeout, before, readys, finished, states, task, move, store.states);
        finished := false;
        if move.Schedule? {
          readys := readys + [task];
        }
      }
      ProgressSweeps(flow, taskStates, see, timeout, seen, readys, finished, store.states);
      if finished {
        return Succeeded;
      }
      AnswersAreRested(Ready(readys), flow, taskStates, see, timeout);
      return Ready(readys);
    }

    /** The switch on the status of one task whose dependencies are done; `taskStates` is what the pass read
        when it began. */
    method Visit(store: WorkflowStore, taskStates: States, task: Task, see: Glances, timeout: int) returns (move: Move)
      requires Eligible(taskFlow, taskStates, task)
      requires RunningIsLogged(taskStates)
      requires task in store.states <==> task in taskStates
      requires task in taskStates ==> store.states[task] == taskStates[task]
      modifies store`states
      ensures move.GiveUp? <==> Exhausted(taskFlow, taskStates, task)
      ensures !move.GiveUp? ==> (move.Schedule? <==> IsReady(taskFlow, taskStates, see, timeout, task))
      ensures task in taskStates && taskStates[task].current == NotRunning ==>
                (move.Schedule? <==>
                   |taskStates[task].records| <= 1 || !Recent(taskStates[task], see(task).now, timeout))
      ensures store.states != old(store.states) ==>
                task in taskStates && taskStates[task].current == Running
                && !Recent(taskStates[task], see(task).now, timeout)
      ensures store.states ==
              if IsLost(taskFlow, taskStates, see, timeout, task)
              then old(store.states)[task := PutBack(taskStates[task], see(task).now)] else old(store.states)
    {
      var state := if task in taskStates then taskStates[task] else TaskState(NotRunning, 0, "", 0, 0, []);
      var afterDebounce :=
        if |state.records| > 0
        then state.records[|state.records| - 1].eventTime <= see(task).now - (timeout + DEBOUNCE_MARGIN)
        else true;
      match state.current
      case Running =>
        if !afterDebounce || see(task).probe != LockGone {
          return Skip;
        }
        store.SetTaskNotRunning(task, state.records[|state.records| - 1].tmpID, RERUN_REASON, see(task).now);
        return Skip;
      case Starting =>
        if state.count >= SCHEDULE_LIMIT {
          return GiveUp;
        }
        if see(task).inProcess || (|state.records| > 0
           && state.records[|state.records| - 1].status == Known(Starting) && !afterDebounce) {
          return Skip;
        }
        return Schedule;
      case Done =>
        assert false;
      case _ => // failed, or not running
        if state.current == Fail && state.count >= SCHEDULE_LIMIT {
          return GiveUp;
        }
        if |state.records| > 1 && !afterDebounce {
          return Skip;
        }
        return Schedule;
    }
  }

  /** The inner loop of the pass: every real dependency is done. */
  method DependenciesDone(deps: seq<Task>, states: States) returns (ok: bool)
    ensures ok <==> forall d :: d in deps && d.id != "" ==> IsDone(states, d)
  {
    for i := 0 to |deps|
      invariant forall d :: d in deps[..i] && d.id != "" ==> IsDone(states, d)
    {
      assert deps[..i + 1] == deps[..i] + [deps[i]];
      if deps[i].id != "" {
        if deps[i] !in states || states[deps[i]].current != Done {
          return false;
        }
      }
    }
    assert deps[..|deps|] == deps;
    return true;
  }
}
