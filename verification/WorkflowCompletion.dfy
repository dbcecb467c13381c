/** Which plans can be run to completion: exactly those whose dependencies are listed and form no cycle
    (app/workflow.go). */
module WorkflowCompletion {
  import opened Basics
  import TaskStates
  import opened DependencyGraph
  import opened Scheduling
  import opened WorkflowEngine
  import PlanRows

  /** Between two tasks, as center 0 sees it: everything started so far is done, and the plan counts as running. */
  ghost predicate Rested(flow: Flow, s: State) {
    && s.plan.Some? && s.plan.value.running
    && At(s, 0).waiting == {} && At(s, 0).lock.Free?
    && forall t :: t in s.tasks ==> t in flow && s.tasks[t].current.Done?
  }

  const DONE := TaskStates.Report("", TaskStates.Known(TaskStates.Done), "")

  /** A pass in which every task is seen at rest. */
  function CalmPass(now: int): seq<Action> {
    [By(0, BeginPass), By(0, EndPass(_ => Glance(now, false, LockHeld), 0, true))]
  }

  /** A marked start up to its transaction. */
  function Start(c: nat, t: Task, now: int): seq<Action> {
    [By(c, CheckPlan(t, now, now)), By(c, CheckStatus), By(c, Launch("", "", now))]
  }

  function StartAndFinish(t: Task, now: int): seq<Action> {
    [By(0, Dequeue(t))] + Start(0, t, now) + [ReportFinish(t, "", DONE, now)]
  }

  lemma StartIsAdmitted(flow: Flow, s: State, c: nat, t: Task, now: int)
    requires t in At(s, c).waiting && At(s, c).lock.Free?
    requires IsRunning(s.plan, now, now) && MayLaunch(s.tasks, t)
    ensures Run(flow, s, [By(c, CheckPlan(t, now, now)), By(c, CheckStatus)]) ==
            s.(centers := s.centers[c := At(s, c).(lock := Launching(t))])
  {
    var me, a := At(s, c), [By(c, CheckPlan(t, now, now)), By(c, CheckStatus)];
    var s1 := s.(centers := s.centers[c := me.(lock := Admitted(t))]);
    var s2 := s.(centers := s.centers[c := me.(lock := Launching(t))]);
    assert Step(flow, s, a[0]) == s1;
    assert s1.centers[c := At(s2, c)] == s2.centers;
    assert Step(flow, s1, a[1]) == s2;
    RunTrace(flow, [s, s1, s2], a);
  }

  lemma StartGoesThrough(flow: Flow, s: State, c: nat, t: Task, now: int)
    requires t in At(s, c).waiting && At(s, c).lock.Free?
    requires IsRunning(s.plan, now, now) && MayLaunch(s.tasks, t)
    ensures Run(flow, s, Start(c, t, now)) ==
            State(s.plan, s.tasks[t := TaskStates.Started(TaskStates.Find(s.tasks, t), "", "", now)],
                  s.centers[c := At(s, c).(waiting := At(s, c).waiting - {t})])
  {
    var me, launch := At(s, c), [By(c, Launch("", "", now))];
    var checks := [By(c, CheckPlan(t, now, now)), By(c, CheckStatus)];
    StartIsAdmitted(flow, s, c, t, now);
    var admitted := s.(centers := s.centers[c := me.(lock := Launching(t))]);
    var last := Step(flow, admitted, launch[0]);
    assert last.centers == s.centers[c := me.(waiting := me.waiting - {t})];
    RunTrace(flow, [admitted, last], launch);
    RunConcat(flow, s, checks, launch);
    assert Start(c, t, now) == checks + launch;
  }

  lemma CalmPassQueues(flow: Flow, s: State, t: Task, now: int)
    requires Rested(flow, s) && Eligible(flow, s.tasks, t)
    ensures var next := Run(flow, s, CalmPass(now));
            && next == State(s.plan, s.tasks, s.centers[0 := At(s, 0).(queued := At(next, 0).queued)])
            && At(next, 0).queued[t] == At(s, 0).queued[t] + 1
  {
    var pass := CalmPass(now);
    var reading := s.(centers := s.centers[0 := At(s, 0).(lock := Passing(s.tasks))]);
    var ready := ReadySet(flow, s.tasks, pass[1].work.see, 0);
    assert t in ready && !PlanExhausted(flow, s.tasks) && !AllDone(flow, s.tasks);
    var next := s.(centers := s.centers[0 := At(s, 0).(queued := At(s, 0).queued + multiset(ready))]);
    assert next.centers == reading.centers[0 := At(next, 0)];
    RunTrace(flow, [s, reading, next], pass);
  }

  /** A queued event of center 0 at rest, from its mark to its transaction. */
  lemma QueuedTaskStarts(flow: Flow, s: State, t: Task, now: int)
    requires At(s, 0).lock.Free? && At(s, 0).waiting == {} && At(s, 0).queued[t] > 0
    requires IsRunning(s.plan, now, now) && MayLaunch(s.tasks, t)
    ensures Run(flow, s, [By(0, Dequeue(t))] + Start(0, t, now)) ==
            State(s.plan, s.tasks[t := TaskStates.Started(TaskStates.Find(s.tasks, t), "", "", now)],
                  s.centers[0 := At(s, 0).(queued := At(s, 0).queued - multiset{t})])
  {
    var me := At(s, 0).(queued := At(s, 0).queued - multiset{t}, waiting := {t});
    var marked := s.(centers := s.centers[0 := me]);
    assert InProcess({}) == {} && {} + {t} == {t} && {t} - {t} == {};
    RunTrace(flow, [s, marked], [By(0, Dequeue(t))]);
    StartGoesThrough(flow, marked, 0, t, now);
    RunConcat(flow, s, [By(0, Dequeue(t))], Start(0, t, now));
  }

  lemma QueuedTaskFinishes(flow: Flow, s: State, t: Task)
    requires Rested(flow, s) && t in flow && t !in s.tasks && At(s, 0).queued[t] > 0
    ensures var last := Run(flow, s, StartAndFinish(t, s.plan.value.latestTryTime));
            && Rested(flow, last) && last.tasks.Keys == s.tasks.Keys + {t}
            && last.plan == s.plan && forall e: nat :: e != 0 ==> At(last, e) == At(s, e)
  {
    var now := s.plan.value.latestTryTime;
    var start, finish := [By(0, Dequeue(t))] + Start(0, t, now), [ReportFinish(t, "", DONE, now)];
    QueuedTaskStarts(flow, s, t, now);
    var started := Run(flow, s, start);
    RunTrace(flow, [started, Step(flow, started, finish[0])], finish);
    RunConcat(flow, s, start, finish);
  }

  // ----- bringing a center to rest -----

  ghost predicate NoClear(actions: seq<Action>) {
    forall a :: a in actions ==> !Clears(a)
  }

  /** Everything but the part of center `c` is as before. */
  ghost predicate OnlyCenter(s: State, c: nat, next: State) {
    next.plan == s.plan && next.tasks == s.tasks && forall e: nat :: e != c ==> At(next, e) == At(s, e)
  }

  /** Whoever holds the center's lock gives up. */
  function Release(c: nat): seq<Action> {
    [By(c, AbortPass), By(c, AbortLaunch), By(c, AbortClose)]
  }

  function Released(c: Center): Center {
    Center(c.queued, if c.lock.Admitted? || c.lock.Launching? then c.waiting - {c.lock.task} else c.waiting, Free)
  }

  lemma ReleaseFrees(flow: Flow, s: State, c: nat)
    ensures var next := Run(flow, s, Release(c));
            OnlyCenter(s, c, next) && At(next, c) == Released(At(s, c))
  {
    var a := Release(c);
    var s1 := Step(flow, s, a[0]);
    var s2 := Step(flow, s1, a[1]);
    RunTrace(flow, [s, s1, s2, Step(flow, s2, a[2])], a);
  }

  /** Marked starts are dismissed one by one when the plan does not count as running. */
  lemma {:induction false} DismissAll(flow: Flow, s: State, c: nat) returns (actions: seq<Action>)
    requires At(s, c).lock.Free?
    ensures NoClear(actions)
    ensures var next := Run(flow, s, actions);
            OnlyCenter(s, c, next) && At(next, c) == At(s, c).(waiting := {})
    decreases |At(s, c).waiting|
  {
    if At(s, c).waiting == {} {
      actions := [];
    } else {
      var t :| t in At(s, c).waiting;
      var dismiss := By(c, CheckPlan(t, 0, if s.plan.Some? then -s.plan.value.latestTryTime - 1 else 0));
      var next := Step(flow, s, dismiss);
      assert At(next, c) == At(s, c).(waiting := At(s, c).waiting - {t});
      var rest := DismissAll(flow, next, c);
      actions := [dismiss] + rest;
      assert actions[0] == dismiss && actions[1..] == rest;
    }
  }

  lemma Quiet(flow: Flow, s: State, c: nat) returns (actions: seq<Action>)
    ensures NoClear(actions)
    ensures var next := Run(flow, s, actions);
            OnlyCenter(s, c, next) && At(next, c) == Center(At(s, c).queued, {}, Free)
  {
    ReleaseFrees(flow, s, c);
    var rest := DismissAll(flow, Run(flow, s, Release(c)), c);
    actions := Release(c) + rest;
    RunConcat(flow, s, Release(c), rest);
  }

  lemma NothingClears(d: Task)
    ensures forall a :: a in [SetRunning(0)] + (CalmPass(0) + StartAndFinish(d, 0)) ==> !Clears(a)
    ensures forall a :: a in CalmPass(0) ==> !Clears(a)
  {
  }

  /** From a fresh start, a task without dependencies is queued, started and finished. */
  lemma RunAlone(flow: Flow, s: State, d: Task) returns (actions: seq<Action>)
    requires Fresh(s) && d in flow && flow[d] == []
    ensures NoClear(actions)
    ensures var last := Run(flow, s, actions);
            Rested(flow, last) && last.tasks.Keys == {d} && At(last, 1) == IDLE
  {
    var start := [SetRunning(0)];
    var s1 := Step(flow, s, SetRunning(0));
    assert At(s, 0) == IDLE && At(s, 1) == IDLE && At(s1, 0) == IDLE && At(s1, 1) == IDLE;
    assert Run(flow, s, start) == s1 by {
      RunTrace(flow, [s, s1], start);
    }
    assert Eligible(flow, s1.tasks, d);
    CalmPassQueues(flow, s1, d, 0);
    var s2 := Run(flow, s1, CalmPass(0));
    QueuedTaskFinishes(flow, s2, d);
    actions := start + (CalmPass(0) + StartAndFinish(d, 0));
    NothingClears(d);
    assert Run(flow, s, actions) == Run(flow, s2, StartAndFinish(d, 0)) by {
      RunConcat(flow, s, start, CalmPass(0) + StartAndFinish(d, 0));
      RunConcat(flow, s1, CalmPass(0), StartAndFinish(d, 0));
    }
  }

  // ----- completion -----

  lemma {:induction false} DriveFromRest(flow: Flow, s: State) returns (actions: seq<Action>)
    requires Acyclic(flow) && AllListed(flow)
    requires Rested(flow, s)
    ensures AllDone(flow, Run(flow, s, actions).tasks)
    decreases |flow.Keys - s.tasks.Keys|
  {
    if AllDone(flow, s.tasks) {
      actions := [];
    } else {
      SomeTaskIsEligible(flow, s.tasks);
      var t :| Eligible(flow, s.tasks, t);
      var pass, tour := CalmPass(0), StartAndFinish(t, s.plan.value.latestTryTime);
      CalmPassQueues(flow, s, t, 0);
      var passed := Run(flow, s, pass);
      QueuedTaskFinishes(flow, passed, t);
      var next := Run(flow, passed, tour);
      assert t in flow.Keys - s.tasks.Keys;
      assert flow.Keys - next.tasks.Keys == (flow.Keys - s.tasks.Keys) - {t};
      var rest := DriveFromRest(flow, next);
      actions := pass + (tour + rest);
      RunConcat(flow, s, pass, tour + rest);
      RunConcat(flow, passed, tour, rest);
    }
  }

  /** Whatever the plan key says and whatever the centers are at: with everything recorded done, an acyclic plan whose
      dependencies are listed can be run to completion. */
  lemma DriveToSuccess(flow: Flow, s: State) returns (actions: seq<Action>)
    requires Acyclic(flow) && AllListed(flow)
    requires forall t :: t in s.tasks ==> t in flow && s.tasks[t].current.Done?
    ensures AllDone(flow, Run(flow, s, actions).tasks)
  {
    var quiet := Quiet(flow, s, 0);
    var still, start := Run(flow, s, quiet), [SetRunning(0)];
    var ready := Step(flow, still, start[0]);
    RunTrace(flow, [still, ready], start);
    var rest := DriveFromRest(flow, ready);
    actions := quiet + (start + rest);
    RunConcat(flow, s, quiet, start + rest);
    RunConcat(flow, still, start, rest);
  }

  ghost predicate CanSucceed(flow: Flow, s: State) {
    exists actions :: AllDone(flow, Run(flow, s, actions).tasks)
  }

  /** A plan can be brought to success from a fresh start, by any number of centers, exactly when it has no
      dependency cycle and every dependency is itself listed. */
  lemma CanSucceedIff(flow: Flow, s: State)
    requires Fresh(s)
    ensures CanSucceed(flow, s) <==> Acyclic(flow) && AllListed(flow)
  {
    NothingBlockedIff(flow);
    if Acyclic(flow) && AllListed(flow) {
      var actions := DriveToSuccess(flow, s);
    } else {
      var t :| t in flow && Blocked(flow, t);
      forall actions ensures !AllDone(flow, Run(flow, s, actions).tasks) {
        BlockedTaskNeverStarts(flow, s, t, actions, 0);
      }
    }
  }

  /** A plan whose rows pass the checks can be brought to success from a fresh start exactly when it is
      acyclic, however the rows come back from the store. */
  lemma AcceptedPlanSucceedsIff(rows: seq<PlanRows.Row>, stored: seq<PlanRows.Row>, known: set<Task>, s: State)
    requires PlanRows.Resolved(rows, known)
    requires multiset(stored) == multiset(rows)
    requires Fresh(s)
    ensures CanSucceed(PlanRows.FlowOf(stored), s) <==> Acyclic(PlanRows.FlowOf(stored))
  {
    var flow := PlanRows.FlowOf(stored);
    forall t, d | DependsOn(flow, t, d) ensures d in flow {
      PlanRows.DepsInHasRow(stored, t, d);
      assert PlanRows.Row(t, d) in multiset(rows);
      var r :| r in rows && r.task == d;
      assert r in multiset(stored);
    }
    CanSucceedIff(flow, s);
  }
}
