/** Closing a plan while other work is still on its way: what the clear does to the dependency order, and when a
    cleared workflow stays cleared (app/workflow.go, app/schedule.go). */
module WorkflowClosing {
  import opened Basics
  import TaskStates
  import opened DependencyGraph
  import opened Scheduling
  import opened WorkflowEngine
  import opened WorkflowCompletion

  // ----- the clear and the order -----

  /** No queued or marked start of the center has a dependency, and no pass of it may still queue one that has. */
  ghost predicate SurvivesClear(flow: Flow, c: Center) {
    && (forall t, d :: t in c.queued || t in c.waiting ==> !DependsOn(flow, t, d))
    && (c.lock.Passing? ==> forall t, d :: PassMayStart(flow, c.lock.snapshot, t) ==> !DependsOn(flow, t, d))
  }

  /** Whatever has a record has a done record for each of its dependencies. */
  ghost predicate RecordsInOrder(flow: Flow, s: State) {
    forall t :: t in s.tasks ==> DepsLogged(flow, s.tasks, t)
  }

  /** In all runs from here on without another clear, records are in order. */
  ghost predicate KeepsOrder(flow: Flow, s: State) {
    forall actions :: NoClear(actions) ==> RecordsInOrder(flow, Run(flow, s, actions))
  }

  lemma OrderIsKept(flow: Flow, s: State)
    requires Ordered(flow, s)
    ensures KeepsOrder(flow, s)
    ensures forall actions :: NoClear(actions) ==> Ordered(flow, Run(flow, s, actions))
  {
    forall actions | NoClear(actions) ensures Ordered(flow, Run(flow, s, actions)) {
      DependencyOrder(flow, s, actions);
    }
  }

  lemma CenterSurvivesClearIff(flow: Flow, tasks: TaskStates.States, c: Center)
    requires CenterOrdered(flow, tasks, c)
    ensures CenterOrdered(flow, map[], c) <==> SurvivesClear(flow, c)
  {
    forall t | t in c.queued || t in c.waiting || (c.lock.Passing? && PassMayStart(flow, c.lock.snapshot, t))
      ensures DepsLogged(flow, map[], t) <==> forall d :: !DependsOn(flow, t, d)
    {
      assert DepsLogged(flow, tasks, t);
      assert forall d :: !LoggedDone(map[], d);
    }
  }

  lemma SurvivorsStayOrdered(flow: Flow, s: State, c: nat)
    requires Ordered(flow, s) && At(s, c).lock.Clearing?
    ensures Ordered(flow, Step(flow, s, By(c, ClearTasks))) <==> forall e: nat :: SurvivesClear(flow, At(s, e))
  {
    var next := Step(flow, s, By(c, ClearTasks));
    forall e: nat ensures CenterOrdered(flow, next.tasks, At(next, e)) <==> SurvivesClear(flow, At(s, e)) {
      CenterSurvivesClearIff(flow, s.tasks, At(s, e));
      if e == c {
        CenterSurvivesClearIff(flow, s.tasks, At(s, e).(lock := Free));
      }
    }
    assert TasksOrdered(flow, next.tasks);
  }

  /** After the clear, all runs without another clear keep the order exactly when at that moment no center has a
      queued or marked start with a dependency, and no pass may still queue one. In that case starts on their way are
      in order too. */
  lemma ClearKeepsOrderIff(flow: Flow, s: State, c: nat)
    requires Ordered(flow, s) && At(s, c).lock.Clearing?
    ensures KeepsOrder(flow, Step(flow, s, By(c, ClearTasks))) <==> forall e: nat :: SurvivesClear(flow, At(s, e))
    ensures (forall e: nat :: SurvivesClear(flow, At(s, e))) ==>
              forall actions :: NoClear(actions) ==> Ordered(flow, Run(flow, Step(flow, s, By(c, ClearTasks)), actions))
  {
    var next := Step(flow, s, By(c, ClearTasks));
    if forall e: nat :: SurvivesClear(flow, At(s, e)) {
      SurvivorsStayOrdered(flow, s, c);
      OrderIsKept(flow, next);
    } else {
      var e: nat :| !SurvivesClear(flow, At(s, e));
      ClearKeepsCenters(flow, s, c, e);
      OrderIsLost(flow, next, e);
    }
  }

  lemma ClearKeepsCenters(flow: Flow, s: State, c: nat, e: nat)
    requires At(s, c).lock.Clearing?
    ensures var next := Step(flow, s, By(c, ClearTasks));
            next.tasks == map[] && (SurvivesClear(flow, At(next, e)) <==> SurvivesClear(flow, At(s, e)))
  {
  }

  lemma OrderIsLost(flow: Flow, s: State, e: nat)
    requires s.tasks == map[] && !SurvivesClear(flow, At(s, e))
    ensures !KeepsOrder(flow, s)
  {
    var actions, t, d := LateStart(flow, s, e);
    assert NoClear(actions) && !RecordsInOrder(flow, Run(flow, s, actions));
  }

  // ----- work that outlives the clear -----

  function CloseAndRestart(c: nat, now: int): seq<Action> {
    [By(c, BeginClose), By(c, ClearPlan), By(c, ClearTasks), SetRunning(now)]
  }

  lemma CloseAndRestartRuns(flow: Flow, s: State, c: nat, now: int)
    requires At(s, c).lock.Free? && s.plan.Some?
    ensures Run(flow, s, CloseAndRestart(c, now)) ==
            State(Some(TaskStates.PlanState(now, now, true)), map[], s.centers[c := At(s, c)])
  {
    var me := At(s, c);
    var s1 := s.(centers := s.centers[c := me.(lock := Closing)]);
    var s2 := s.(plan := None, centers := s.centers[c := me.(lock := Clearing)]);
    var s3 := State(None, map[], s.centers[c := me]);
    var s4 := s3.(plan := Some(TaskStates.PlanState(now, now, true)));
    var a := CloseAndRestart(c, now);
    assert Step(flow, s, a[0]) == s1;
    assert s1.centers[c := At(s2, c)] == s2.centers && s2.centers[c := me] == s3.centers;
    assert Step(flow, s1, a[1]) == s2;
    assert Step(flow, s2, a[2]) == s3;
    assert Step(flow, s3, a[3]) == s4;
    RunTrace(flow, [s, s1, s2, s3, s4], a);
  }

  /** The task has been started although no record of the dependency is left. */
  ghost predicate StartedEarly(flow: Flow, s: State, t: Task, d: Task) {
    DependsOn(flow, t, d) && t in s.tasks && !LoggedDone(s.tasks, d)
  }

  lemma StartedEarlyIsDisorder(flow: Flow, s: State, t: Task, d: Task)
    requires StartedEarly(flow, s, t, d)
    ensures !Ordered(flow, s)
  {
    assert !DepsLogged(flow, s.tasks, t);
  }

  /** Running again without records, with a start of `t` marked at center `e`. */
  lemma RestartedStartIsEarly(flow: Flow, s: State, e: nat, t: Task, d: Task, now: int)
    requires IsRunning(s.plan, now, now) && s.tasks == map[]
    requires At(s, e).lock.Free? && t in At(s, e).waiting && DependsOn(flow, t, d)
    ensures StartedEarly(flow, Run(flow, s, Start(e, t, now)), t, d)
  {
    StartGoesThrough(flow, s, e, t, now);
    var last := Run(flow, s, Start(e, t, now));
    assert last.tasks == map[t := TaskStates.Started(None, "", "", now)];
  }

  /** A start that was marked before a clear goes through after a restart, although its dependency is no longer
      recorded; `c` clears, and `e` may be the same center. */
  lemma StaleStartBreaksOrder(flow: Flow, s: State, c: nat, e: nat, t: Task, d: Task, now: int)
    requires s.plan.Some? && At(s, c).lock.Free? && At(s, e).lock.Free?
    requires t in At(s, e).waiting && DependsOn(flow, t, d)
    ensures StartedEarly(flow, Run(flow, s, CloseAndRestart(c, now) + Start(e, t, now)), t, d)
    ensures !Ordered(flow, Run(flow, s, CloseAndRestart(c, now) + Start(e, t, now)))
  {
    CloseAndRestartRuns(flow, s, c, now);
    var restarted := Run(flow, s, CloseAndRestart(c, now));
    assert At(restarted, e) == At(s, e);
    RestartedStartIsEarly(flow, restarted, e, t, d, now);
    RunConcat(flow, s, CloseAndRestart(c, now), Start(e, t, now));
    StartedEarlyIsDisorder(flow, Run(flow, s, CloseAndRestart(c, now) + Start(e, t, now)), t, d);
  }

  lemma RestartedEventIsEarly(flow: Flow, s: State, e: nat, t: Task, d: Task, now: int)
    requires IsRunning(s.plan, now, now) && s.tasks == map[]
    requires At(s, e).lock.Free? && At(s, e).queued[t] > 0 && DependsOn(flow, t, d)
    requires t.id !in InProcess(At(s, e).waiting)
    ensures StartedEarly(flow, Run(flow, s, [By(e, Dequeue(t))] + Start(e, t, now)), t, d)
  {
    var marked := Step(flow, s, By(e, Dequeue(t)));
    RunTrace(flow, [s, marked], [By(e, Dequeue(t))]);
    RestartedStartIsEarly(flow, marked, e, t, d, now);
    RunConcat(flow, s, [By(e, Dequeue(t))], Start(e, t, now));
  }

  /** So does a start event that was queued before the clear. */
  lemma StaleEventBreaksOrder(flow: Flow, s: State, c: nat, e: nat, t: Task, d: Task, now: int)
    requires s.plan.Some? && At(s, c).lock.Free? && At(s, e).lock.Free?
    requires At(s, e).queued[t] > 0 && t.id !in InProcess(At(s, e).waiting) && DependsOn(flow, t, d)
    ensures var actions := CloseAndRestart(c, now) + ([By(e, Dequeue(t))] + Start(e, t, now));
            StartedEarly(flow, Run(flow, s, actions), t, d) && !Ordered(flow, Run(flow, s, actions))
  {
    var rest := [By(e, Dequeue(t))] + Start(e, t, now);
    CloseAndRestartRuns(flow, s, c, now);
    var restarted := Run(flow, s, CloseAndRestart(c, now));
    assert At(restarted, e) == At(s, e);
    RestartedEventIsEarly(flow, restarted, e, t, d, now);
    RunConcat(flow, s, CloseAndRestart(c, now), rest);
    StartedEarlyIsDisorder(flow, Run(flow, s, CloseAndRestart(c, now) + rest), t, d);
  }

  /** And so does a pass that another center began before the clear. */
  lemma StalePassBreaksOrder(flow: Flow, s: State, c: nat, e: nat, see: Glances, timeout: int, t: Task, d: Task,
                             now: int)
    requires s.plan.Some? && At(s, c).lock.Free? && At(s, e).lock.Passing?
    requires t in ReadySet(flow, At(s, e).lock.snapshot, see, timeout)
    requires !PlanExhausted(flow, At(s, e).lock.snapshot)
    requires t.id !in InProcess(At(s, e).waiting) && DependsOn(flow, t, d)
    ensures var actions := CloseAndRestart(c, now) +
                             ([By(e, EndPass(see, timeout, true))] + ([By(e, Dequeue(t))] + Start(e, t, now)));
            StartedEarly(flow, Run(flow, s, actions), t, d) && !Ordered(flow, Run(flow, s, actions))
  {
    var pass, start := [By(e, EndPass(see, timeout, true))], [By(e, Dequeue(t))] + Start(e, t, now);
    CloseAndRestartRuns(flow, s, c, now);
    var restarted := Run(flow, s, CloseAndRestart(c, now));
    assert At(restarted, e) == At(s, e);
    var passed := Step(flow, restarted, pass[0]);
    assert !AllDone(flow, At(s, e).lock.snapshot);
    assert At(passed, e).queued[t] > 0;
    RunTrace(flow, [restarted, passed], pass);
    RestartedEventIsEarly(flow, passed, e, t, d, now);
    RunConcat(flow, restarted, pass, start);
    RunConcat(flow, s, CloseAndRestart(c, now), pass + start);
    StartedEarlyIsDisorder(flow, Run(flow, s, CloseAndRestart(c, now) + (pass + start)), t, d);
  }

  // ----- from any state without records -----

  /** Bring the center to rest, restart the plan, and handle the queued event. */
  lemma EventIsEarly(flow: Flow, s: State, e: nat, t: Task, d: Task) returns (actions: seq<Action>)
    requires s.tasks == map[] && At(s, e).queued[t] > 0 && DependsOn(flow, t, d)
    ensures NoClear(actions) && StartedEarly(flow, Run(flow, s, actions), t, d)
  {
    var quiet := Quiet(flow, s, e);
    var still, restart, start := Run(flow, s, quiet), [SetRunning(0)], [By(e, Dequeue(t))] + Start(e, t, 0);
    var ready := Step(flow, still, restart[0]);
    RunTrace(flow, [still, ready], restart);
    assert InProcess(At(ready, e).waiting) == {};
    RestartedEventIsEarly(flow, ready, e, t, d, 0);
    actions := quiet + (restart + start);
    RunConcat(flow, s, quiet, restart + start);
    RunConcat(flow, still, restart, start);
    StartClearsNothing(e, t);
  }

  lemma StartClearsNothing(e: nat, t: Task)
    ensures NoClear(Start(e, t, 0)) && NoClear([By(e, Dequeue(t))] + Start(e, t, 0))
  {
  }

  /** A marked start has the lock already, or gets it when its holder has given up. */
  lemma MarkIsEarly(flow: Flow, s: State, e: nat, t: Task, d: Task) returns (actions: seq<Action>)
    requires s.tasks == map[] && t in At(s, e).waiting && DependsOn(flow, t, d)
    ensures NoClear(actions) && StartedEarly(flow, Run(flow, s, actions), t, d)
  {
    if At(s, e).lock in {Admitted(t), Launching(t)} {
      actions := [By(e, CheckStatus), By(e, Launch("", "", 0))];
      var checked := Step(flow, s, actions[0]);
      var last := Step(flow, checked, actions[1]);
      RunTrace(flow, [s, checked, last], actions);
      assert At(checked, e).lock == Launching(t) && checked.tasks == map[];
      assert last.tasks == map[t := TaskStates.Started(None, "", "", 0)];
    } else {
      ReleaseFrees(flow, s, e);
      var still, restart := Run(flow, s, Release(e)), [SetRunning(0)];
      var ready := Step(flow, still, restart[0]);
      RunTrace(flow, [still, ready], restart);
      RestartedStartIsEarly(flow, ready, e, t, d, 0);
      StartClearsNothing(e, t);
      actions := Release(e) + (restart + Start(e, t, 0));
      RunConcat(flow, s, Release(e), restart + Start(e, t, 0));
      RunConcat(flow, still, restart, Start(e, t, 0));
    }
  }

  /** A pass ends and queues the start. */
  lemma PassIsEarly(flow: Flow, s: State, e: nat, t: Task, d: Task) returns (actions: seq<Action>)
    requires s.tasks == map[] && At(s, e).lock.Passing? && PassMayStart(flow, At(s, e).lock.snapshot, t)
    requires DependsOn(flow, t, d)
    ensures NoClear(actions) && StartedEarly(flow, Run(flow, s, actions), t, d)
  {
    var snapshot := At(s, e).lock.snapshot;
    var pass := [By(e, EndPass(LateGlances(snapshot, t), 0, true))];
    var passed := Step(flow, s, pass[0]);
    PassMayStartIff(flow, snapshot, t);
    assert !AllDone(flow, snapshot);
    assert At(passed, e).queued[t] > 0;
    RunTrace(flow, [s, passed], pass);
    var rest := EventIsEarly(flow, passed, e, t, d);
    actions := pass + rest;
    RunConcat(flow, s, pass, rest);
  }

  lemma LateStart(flow: Flow, s: State, e: nat) returns (actions: seq<Action>, t: Task, d: Task)
    requires s.tasks == map[] && !SurvivesClear(flow, At(s, e))
    ensures NoClear(actions) && StartedEarly(flow, Run(flow, s, actions), t, d)
    ensures !DepsLogged(flow, Run(flow, s, actions).tasks, t) && t in Run(flow, s, actions).tasks
  {
    var c := At(s, e);
    if u, v :| (u in c.queued || u in c.waiting) && DependsOn(flow, u, v) {
      t, d := u, v;
      if t in c.queued {
        actions := EventIsEarly(flow, s, e, t, d);
      } else {
        actions := MarkIsEarly(flow, s, e, t, d);
      }
    } else {
      t, d :| PassMayStart(flow, c.lock.snapshot, t) && DependsOn(flow, t, d);
      actions := PassIsEarly(flow, s, e, t, d);
    }
  }

  // ----- such work is reachable -----

  predicate StaleEvent(s: State, t: Task) {
    s.plan.Some? && At(s, 0).lock.Free? && At(s, 0).queued[t] > 0 && At(s, 0).waiting == {}
  }

  predicate StaleStart(s: State, t: Task) {
    s.plan.Some? && At(s, 0).lock.Free? && t in At(s, 0).waiting
  }

  ghost predicate StalePass(flow: Flow, s: State, t: Task) {
    && s.plan.Some? && At(s, 0).lock.Free? && At(s, 1).waiting == {} && At(s, 1).lock.Passing?
    && !PlanExhausted(flow, At(s, 1).lock.snapshot)
    && t in ReadySet(flow, At(s, 1).lock.snapshot, CALM, 0)
  }

  const CALM: Glances := _ => Glance(0, false, LockHeld)

  /** From a fresh start, the two-task plan in which `t` waits for `d` runs to a state with a start of `t` queued,
      from there to one with that start marked, and to one in which another center is in the middle of a pass that
      is about to start `t`: the three lemmas above apply to reachable states. */
  lemma StaleWorkIsReachable(s: State, t: Task, d: Task) returns (flow: Flow, actions: seq<Action>)
    requires Fresh(s) && t != d && d.id != ""
    ensures DependsOn(flow, t, d) && forall a :: a in actions ==> !Clears(a)
    ensures StaleEvent(Run(flow, s, actions), t)
    ensures StaleStart(Run(flow, s, actions + [By(0, Dequeue(t))]), t)
    ensures StalePass(flow, Run(flow, s, actions + [By(1, BeginPass)]), t)
  {
    flow := map[d := [], t := [d]];
    var first := RunAlone(flow, s, d);
    var rested := Run(flow, s, first);
    assert Eligible(flow, rested.tasks, t);
    CalmPassQueues(flow, rested, t, 0);
    actions := first + CalmPass(0);
    RunConcat(flow, s, first, CalmPass(0));
    StaleWorkFollows(flow, s, actions, t);
  }

  /** So a whole run exists, from a fresh start, in which a task is started with its dependency unrecorded. */
  lemma ClearCanBreakOrder(s: State, t: Task, d: Task) returns (flow: Flow, actions: seq<Action>)
    requires Fresh(s) && t != d && d.id != ""
    ensures StartedEarly(flow, Run(flow, s, actions), t, d) && !Ordered(flow, Run(flow, s, actions))
  {
    var first;
    flow, first := StaleWorkIsReachable(s, t, d);
    var rest := CloseAndRestart(0, 0) + ([By(0, Dequeue(t))] + Start(0, t, 0));
    StaleEventBreaksOrder(flow, Run(flow, s, first), 0, 0, t, d, 0);
    actions := first + rest;
    RunConcat(flow, s, first, rest);
  }

  /** One more step marks the queued start, or begins the pass of another center. */
  lemma StaleWorkFollows(flow: Flow, s: State, actions: seq<Action>, t: Task)
    requires var queued := Run(flow, s, actions);
             && Rested(flow, queued) && Eligible(flow, queued.tasks, t)
             && At(queued, 0).queued[t] > 0 && At(queued, 1) == IDLE
    ensures StaleStart(Run(flow, s, actions + [By(0, Dequeue(t))]), t)
    ensures StalePass(flow, Run(flow, s, actions + [By(1, BeginPass)]), t)
  {
    var queued := Run(flow, s, actions);
    var mark, pass := By(0, Dequeue(t)), By(1, BeginPass);
    MarkIsStale(flow, queued, t);
    PassIsStale(flow, queued, t);
    RunTrace(flow, [queued, Step(flow, queued, mark)], [mark]);
    RunTrace(flow, [queued, Step(flow, queued, pass)], [pass]);
    RunConcat(flow, s, actions, [mark]);
    RunConcat(flow, s, actions, [pass]);
  }

  lemma MarkIsStale(flow: Flow, s: State, t: Task)
    requires Rested(flow, s) && At(s, 0).queued[t] > 0
    ensures StaleStart(Step(flow, s, By(0, Dequeue(t))), t)
  {
  }

  lemma PassIsStale(flow: Flow, s: State, t: Task)
    requires Rested(flow, s) && Eligible(flow, s.tasks, t) && At(s, 1) == IDLE
    ensures StalePass(flow, Step(flow, s, By(1, BeginPass)), t)
  {
    assert !PlanExhausted(flow, s.tasks);
    assert t in ReadySet(flow, s.tasks, CALM, 0);
  }

  // ----- after the plan has been cleared -----

  /** No plan key and no task keys. */
  predicate Gone(s: State) {
    s.plan.None? && s.tasks == map[]
  }

  /** A start has seen the plan running and has not run its transaction yet. */
  predicate AboutToLaunch(c: Center) {
    c.lock.Admitted? || c.lock.Launching?
  }

  ghost predicate NobodyLaunches(s: State) {
    forall c: nat :: !AboutToLaunch(At(s, c))
  }

  ghost predicate Cleared(s: State) {
    Gone(s) && NobodyLaunches(s)
  }

  ghost predicate NoRestart(actions: seq<Action>) {
    forall a :: a in actions ==> !a.SetRunning?
  }

  /** The only steps that bring a key back: setting the plan running, and the transaction of a start that is past
      its checks. */
  lemma GoneSurvivesIff(flow: Flow, s: State, a: Action)
    requires Gone(s)
    ensures Gone(Step(flow, s, a)) <==>
            !(a.SetRunning? || (a.By? && a.work.Launch? && At(s, a.center).lock.Launching?))
  {
  }

  /** Without a plan key no start gets past its checks. */
  lemma NoPlanNoLaunch(flow: Flow, v: View, w: Work)
    requires v.plan.None?
    ensures Do(flow, v, w).plan.None?
    ensures AboutToLaunch(Do(flow, v, w).me) ==> AboutToLaunch(v.me)
  {
  }

  lemma NoNewLaunch(flow: Flow, s: State, a: Action, c: nat)
    requires s.plan.None? && !a.SetRunning?
    ensures Step(flow, s, a).plan.None?
    ensures AboutToLaunch(At(Step(flow, s, a), c)) ==> AboutToLaunch(At(s, c))
  {
    if a.By? {
      NoPlanNoLaunch(flow, See(s, a.center), a.work);
    }
  }

  lemma StepKeepsCleared(flow: Flow, s: State, a: Action)
    requires Cleared(s) && !a.SetRunning?
    ensures Cleared(Step(flow, s, a))
  {
    GoneSurvivesIff(flow, s, a);
    forall c: nat ensures !AboutToLaunch(At(Step(flow, s, a), c)) {
      NoNewLaunch(flow, s, a, c);
    }
  }

  /** No resurrection: late reports, passes, lost-task repairs and queued start events of any center leave a
      cleared workflow without plan key and task keys until the next `SetRunning`. */
  lemma {:induction false} NoResurrection(flow: Flow, s: State, actions: seq<Action>)
    requires Cleared(s) && NoRestart(actions)
    ensures Cleared(Run(flow, s, actions))
    decreases |actions|
  {
    if actions != [] {
      StepKeepsCleared(flow, s, actions[0]);
      NoResurrection(flow, Step(flow, s, actions[0]), actions[1..]);
    }
  }

  /** A workflow whose keys are gone stays that way in every run without a restart exactly when, at that moment,
      no center holds a start that has seen the plan running. */
  lemma NoResurrectionIff(flow: Flow, s: State)
    requires Gone(s)
    ensures (forall actions :: NoRestart(actions) ==> Gone(Run(flow, s, actions))) <==> NobodyLaunches(s)
  {
    if NobodyLaunches(s) {
      forall actions | NoRestart(actions) ensures Gone(Run(flow, s, actions)) {
        NoResurrection(flow, s, actions);
      }
    } else {
      var c: nat :| AboutToLaunch(At(s, c));
      var actions := if At(s, c).lock.Launching? then [By(c, Launch("", "", 0))]
                     else [By(c, CheckStatus), By(c, Launch("", "", 0))];
      LateLaunch(flow, s, c);
      assert NoRestart(actions) && !Gone(Run(flow, s, actions));
    }
  }

  lemma LateLaunch(flow: Flow, s: State, c: nat)
    requires Gone(s) && AboutToLaunch(At(s, c))
    ensures At(s, c).lock.Launching? ==> !Gone(Run(flow, s, [By(c, Launch("", "", 0))]))
    ensures At(s, c).lock.Admitted? ==> !Gone(Run(flow, s, [By(c, CheckStatus), By(c, Launch("", "", 0))]))
  {
    var check, launch := By(c, CheckStatus), By(c, Launch("", "", 0));
    var checked := Step(flow, s, check);
    RunTrace(flow, [s, Step(flow, s, launch)], [launch]);
    RunTrace(flow, [s, checked, Step(flow, checked, launch)], [check, launch]);
    GoneSurvivesIff(flow, s, launch);
    assert At(s, c).lock.Admitted? ==> checked.tasks == s.tasks && At(checked, c).lock.Launching?;
    GoneSurvivesIff(flow, checked, launch);
  }

  /** The plan key is gone, and a center is about to delete the task keys. */
  ghost predicate HalfCleared(s: State, c: nat) {
    s.plan.None? && At(s, c).lock.Clearing? && NobodyLaunches(s)
  }

  /** A close that got as far as the plan key clears the workflow, whatever happens in between: until it deletes
      the task keys it stays half cleared, and from then on the workflow is cleared. */
  lemma {:induction false} ClearingClears(flow: Flow, s: State, c: nat, actions: seq<Action>)
    requires HalfCleared(s, c) || Cleared(s)
    requires NoRestart(actions) && By(c, AbortClose) !in actions
    ensures var last := Run(flow, s, actions);
            && (Cleared(last) || HalfCleared(last, c))
            && Cleared(Run(flow, s, actions + [By(c, ClearTasks)]))
    decreases |actions|
  {
    var clear := By(c, ClearTasks);
    if actions == [] {
      RunTrace(flow, [s, Step(flow, s, clear)], [clear]);
      assert actions + [clear] == [clear];
      ClearingStep(flow, s, c, clear);
      assert Cleared(s) ==> Cleared(Step(flow, s, clear)) by {
        if Cleared(s) { StepKeepsCleared(flow, s, clear); }
      }
    } else {
      var next := Step(flow, s, actions[0]);
      ClearingStep(flow, s, c, actions[0]);
      ClearingClears(flow, next, c, actions[1..]);
      assert (actions + [clear])[0] == actions[0] && (actions + [clear])[1..] == actions[1..] + [clear];
    }
  }

  lemma ClearingStep(flow: Flow, s: State, c: nat, a: Action)
    requires HalfCleared(s, c) || Cleared(s)
    requires !a.SetRunning? && a != By(c, AbortClose)
    ensures var next := Step(flow, s, a);
            Cleared(next) || (HalfCleared(next, c) && a != By(c, ClearTasks))
  {
    var next := Step(flow, s, a);
    if Cleared(s) {
      StepKeepsCleared(flow, s, a);
    } else {
      forall e: nat ensures !AboutToLaunch(At(next, e)) {
        NoNewLaunch(flow, s, a, e);
      }
      assert a.By? && a.center == c && !a.work.ClearTasks? ==> At(next, c) == Do(flow, See(s, c), a.work).me;
    }
  }

  // ----- a plan that nobody touches any more -----

  /** Whenever a start looks at the plan, its turn lies at most `gap` ahead and the latest try more than that back. */
  predicate ChecksLate(a: Action, latest: int, gap: int) {
    a.By? && a.work.CheckPlan? ==> a.work.next - a.work.now <= gap < a.work.now - latest
  }

  /** Records go or stay, and no count rises. */
  ghost predicate NothingStarted(before: TaskStates.States, after: TaskStates.States) {
    forall t :: t in after ==> t in before && after[t].count == before[t].count
  }

  lemma LateStepStartsNothing(flow: Flow, s: State, a: Action, latest: int, gap: int)
    requires NobodyLaunches(s) && (s.plan.Some? ==> s.plan.value.latestTryTime == latest)
    requires !a.SetRunning? && ChecksLate(a, latest, gap)
    ensures var next := Step(flow, s, a);
            && NobodyLaunches(next) && (next.plan.Some? ==> next.plan.value.latestTryTime == latest)
            && NothingStarted(s.tasks, next.tasks)
  {
    var next := Step(flow, s, a);
    if a.By? {
      assert !AboutToLaunch(At(s, a.center));
      LateWorkStartsNothing(flow, See(s, a.center), a.work, latest, gap);
    }
    forall c: nat ensures !AboutToLaunch(At(next, c)) {
      assert !AboutToLaunch(At(s, c));
    }
  }

  lemma LateWorkStartsNothing(flow: Flow, v: View, w: Work, latest: int, gap: int)
    requires !AboutToLaunch(v.me) && (v.plan.Some? ==> v.plan.value.latestTryTime == latest)
    requires w.CheckPlan? ==> w.next - w.now <= gap < w.now - latest
    ensures var next := Do(flow, v, w);
            && !AboutToLaunch(next.me) && (next.plan.Some? ==> next.plan.value.latestTryTime == latest)
            && NothingStarted(v.tasks, next.tasks)
  {
    if !(w.ClearTasks? && v.me.lock.Clearing?) {
      DoWrites(flow, v, w);
    }
  }

  /** A plan left behind starts nothing: once it is untouched for longer than the gap between two turns, queued and
      marked starts of any center are turned away until it is set running again. */
  lemma StalePlanStartsNothing(flow: Flow, s: State, actions: seq<Action>, gap: int)
    requires NobodyLaunches(s) && s.plan.Some? && NoRestart(actions)
    requires forall a :: a in actions ==> ChecksLate(a, s.plan.value.latestTryTime, gap)
    ensures NobodyLaunches(Run(flow, s, actions)) && NothingStarted(s.tasks, Run(flow, s, actions).tasks)
  {
    LateRunStartsNothing(flow, s, actions, s.plan.value.latestTryTime, gap);
  }

  lemma {:induction false} LateRunStartsNothing(flow: Flow, s: State, actions: seq<Action>, latest: int, gap: int)
    requires NobodyLaunches(s) && (s.plan.Some? ==> s.plan.value.latestTryTime == latest) && NoRestart(actions)
    requires forall a :: a in actions ==> ChecksLate(a, latest, gap)
    ensures NobodyLaunches(Run(flow, s, actions)) && NothingStarted(s.tasks, Run(flow, s, actions).tasks)
    decreases |actions|
  {
    if actions != [] {
      LateStepStartsNothing(flow, s, actions[0], latest, gap);
      LateRunStartsNothing(flow, Step(flow, s, actions[0]), actions[1..], latest, gap);
    }
  }
}
