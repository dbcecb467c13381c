/** When a task that is done stays done: a running report, a start and a put-back write the task's record without
    looking at its status again (app/schedule.go). */
module DoneTasks {
  import opened Basics
  import TaskStates
  import opened DependencyGraph
  import opened Scheduling
  import opened WorkflowEngine
  import opened WorkflowCompletion

  /** The center is about to overwrite the record of `t`: a start is past its checks, or a pass has read the task as
      running with its dependencies done and may yet put it back. */
  predicate MayUndo(flow: Flow, c: Center, t: Task) {
    || c.lock == Launching(t)
    || (c.lock.Passing? && Eligible(flow, c.lock.snapshot, t) && StatusIn(c.lock.snapshot, t).Running?)
  }

  ghost predicate NobodyUndoes(flow: Flow, s: State, t: Task) {
    forall c: nat :: !MayUndo(flow, At(s, c), t)
  }

  /** No running report on the task, and no clear. */
  ghost predicate NoLateReport(actions: seq<Action>, t: Task) {
    NoClear(actions) && forall a :: a in actions && a.ReportRunning? ==> a.task != t
  }

  /** While a task is done, no center comes to the point of overwriting its record. */
  lemma NoNewUndoing(flow: Flow, v: View, w: Work, t: Task)
    requires IsDone(v.tasks, t) && !MayUndo(flow, v.me, t)
    ensures !MayUndo(flow, Do(flow, v, w).me, t)
  {
  }

  lemma StepKeepsDone(flow: Flow, s: State, a: Action, t: Task)
    requires IsDone(s.tasks, t) && NobodyUndoes(flow, s, t)
    requires !Clears(a) && (a.ReportRunning? ==> a.task != t)
    ensures IsDone(Step(flow, s, a).tasks, t) && NobodyUndoes(flow, Step(flow, s, a), t)
  {
    var next := Step(flow, s, a);
    if a.By? {
      assert !MayUndo(flow, At(s, a.center), t);
      NoNewUndoing(flow, See(s, a.center), a.work, t);
    }
    DoneSurvivesIff(flow, s, a, t);
    forall c: nat ensures !MayUndo(flow, At(next, c), t) {
      assert !MayUndo(flow, At(s, c), t);
    }
  }

  lemma {:induction false} DoneStaysDone(flow: Flow, s: State, actions: seq<Action>, t: Task)
    requires IsDone(s.tasks, t) && NobodyUndoes(flow, s, t) && NoLateReport(actions, t)
    ensures IsDone(Run(flow, s, actions).tasks, t)
    decreases |actions|
  {
    if actions != [] {
      StepKeepsDone(flow, s, actions[0], t);
      DoneStaysDone(flow, Step(flow, s, actions[0]), actions[1..], t);
    }
  }

  /** Once done, a task stays done in all runs without a clear or another running report on it exactly when, at that
      moment, no center is past its checks for a start of it or in a pass that has read it as running. */
  lemma DoneStaysDoneIff(flow: Flow, s: State, t: Task)
    requires IsDone(s.tasks, t)
    ensures (forall actions :: NoLateReport(actions, t) ==> IsDone(Run(flow, s, actions).tasks, t)) <==>
            NobodyUndoes(flow, s, t)
  {
    if NobodyUndoes(flow, s, t) {
      forall actions | NoLateReport(actions, t) ensures IsDone(Run(flow, s, actions).tasks, t) {
        DoneStaysDone(flow, s, actions, t);
      }
    } else {
      var c: nat :| MayUndo(flow, At(s, c), t);
      var work := if At(s, c).lock == Launching(t) then Launch("", "", 0)
                  else PutBackLost(t, LateGlances(At(s, c).lock.snapshot, t), 0);
      var actions := [By(c, work)];
      RunTrace(flow, [s, Step(flow, s, actions[0])], actions);
      DoneSurvivesIff(flow, s, actions[0], t);
      assert NoLateReport(actions, t);
    }
  }

  // ----- both happen -----

  /** From a fresh start, a one-task plan runs to a state with its task done; a running report that comes late takes
      it back. */
  lemma LateReportTakesBack(s: State, t: Task) returns (flow: Flow, actions: seq<Action>)
    requires Fresh(s)
    ensures NoClear(actions) && IsDone(Run(flow, s, actions).tasks, t)
    ensures !IsDone(Run(flow, s, actions + [ReportRunning(t, "", "", 0)]).tasks, t)
  {
    flow := map[t := []];
    actions := RunAlone(flow, s, t);
    var done, late := Run(flow, s, actions), ReportRunning(t, "", "", 0);
    RunTrace(flow, [done, Step(flow, done, late)], [late]);
    RunConcat(flow, s, actions, [late]);
  }

  /** Two passes queue the task before its first start, and the second start is past its checks when the first one's
      finish report arrives: the task is done, and about to be started again. */
  lemma SecondStartTakesBack(s: State, t: Task) returns (flow: Flow, actions: seq<Action>)
    requires Fresh(s)
    ensures NoLateReport(actions, t)
    ensures IsDone(Run(flow, s, actions).tasks, t) && MayUndo(flow, At(Run(flow, s, actions), 0), t)
  {
    flow := map[t := []];
    var start := [SetRunning(0)];
    var s1 := Step(flow, s, start[0]);
    RunTrace(flow, [s, s1], start);
    assert At(s1, 0) == At(s, 0) == IDLE;
    CalmPassQueues(flow, s1, t, 0);
    var s2 := Run(flow, s1, CalmPass(0));
    CalmPassQueues(flow, s2, t, 0);
    var s3 := Run(flow, s2, CalmPass(0));
    var rest := Overtaken(flow, s3, t);
    actions := start + (CalmPass(0) + (CalmPass(0) + rest));
    RunConcat(flow, s, start, CalmPass(0) + (CalmPass(0) + rest));
    RunConcat(flow, s1, CalmPass(0), CalmPass(0) + rest);
    RunConcat(flow, s2, CalmPass(0), rest);
    NoReportIn(t);
  }

  /** One event starts the task; the other one's start is past its checks when the finish report comes. */
  lemma Overtaken(flow: Flow, s: State, t: Task) returns (actions: seq<Action>)
    requires Rested(flow, s) && s.plan.value.latestTryTime == 0 && s.tasks == map[] && At(s, 0).queued[t] >= 2
    ensures NoLateReport(actions, t)
    ensures IsDone(Run(flow, s, actions).tasks, t) && MayUndo(flow, At(Run(flow, s, actions), 0), t)
  {
    var start := [By(0, Dequeue(t))] + Start(0, t, 0);
    QueuedTaskStarts(flow, s, t, 0);
    var started := Run(flow, s, start);
    assert started.tasks == map[t := TaskStates.Started(None, "", "", 0)];
    var again := OvertakenStart(flow, started, t);
    actions := start + again;
    RunConcat(flow, s, start, again);
    NoReportIn(t);
  }

  lemma OvertakenStart(flow: Flow, s: State, t: Task) returns (actions: seq<Action>)
    requires IsRunning(s.plan, 0, 0) && At(s, 0).lock.Free? && At(s, 0).waiting == {} && At(s, 0).queued[t] > 0
    requires s.tasks == map[t := TaskStates.Started(None, "", "", 0)]
    ensures NoLateReport(actions, t)
    ensures IsDone(Run(flow, s, actions).tasks, t) && MayUndo(flow, At(Run(flow, s, actions), 0), t)
  {
    var mark, checks := [By(0, Dequeue(t))], [By(0, CheckPlan(t, 0, 0)), By(0, CheckStatus)];
    var finish := [ReportFinish(t, "", DONE, 0)];
    var marked := Step(flow, s, mark[0]);
    assert InProcess({}) == {};
    RunTrace(flow, [s, marked], mark);
    StartIsAdmitted(flow, marked, 0, t, 0);
    var admitted := Run(flow, marked, checks);
    RunTrace(flow, [admitted, Step(flow, admitted, finish[0])], finish);
    actions := mark + (checks + finish);
    RunConcat(flow, s, mark, checks + finish);
    RunConcat(flow, marked, checks, finish);
  }

  lemma NoReportIn(t: Task)
    ensures NoLateReport([SetRunning(0)], t) && NoLateReport(CalmPass(0), t) && NoLateReport(Start(0, t, 0), t)
  {
  }
}
