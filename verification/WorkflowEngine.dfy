/** The workflow engine as it interleaves: decision passes, queued start events, agents' reports and the
    clearing of a finished plan, each broken into the steps other goroutines can see between
    (app/workflow.go, app/schedule.go). Any number of centers work on one workflow. Within a center passes,
    starts and clears exclude each other through the plan's lock; nothing excludes the work of another center,
    and reports and `SetRunning` take no lock. */
module WorkflowEngine {
  import opened Basics
  import opened TaskStates
  import opened DependencyGraph
  import opened Scheduling

  /** Who holds a center's lock of the plan, and how far it has got. */
  datatype Lock =
    | Free
    | Passing(snapshot: States)  // a pass has read the stored states
    | Admitted(task: Task)       // a start has seen the plan running
    | Launching(task: Task)      // it has seen the task's status too, its transaction is still to come
    | Closing                    // a close has seen the plan key
    | Clearing                   // it has deleted the plan key, the task keys not yet

  /** `queued`: start events sent or being sent (they are handled in no particular order);
      `waiting`: starts marked as in process, up to their transaction. */
  datatype Center = Center(queued: multiset<Task>, waiting: set<Task>, lock: Lock)

  const IDLE := Center(multiset{}, {}, Free)

  /** The plan key, the task keys, and the centers that have done anything yet. */
  datatype State = State(plan: Option<PlanState>, tasks: States, centers: map<nat, Center>)

  datatype Work =
    | BeginPass
    | PutBackLost(task: Task, see: Glances, timeout: int)
    | EndPass(see: Glances, timeout: int, leader: bool)
    | AbortPass
    | Dequeue(task: Task)
    | CheckPlan(task: Task, now: int, next: int)
    | CheckStatus
    | Launch(command: string, tmpID: string, now: int)
    | AbortLaunch
    | BeginClose
    | ClearPlan
    | ClearTasks
    | AbortClose

  datatype Action =
    | SetRunning(now: int)
    | ReportRunning(task: Task, tmpID: string, agentIP: string, now: int)
    | ReportFinish(task: Task, agentIP: string, report: Report, now: int)
    | By(center: nat, work: Work)

  /** What one center works on: the shared keys and its own part. */
  datatype View = View(plan: Option<PlanState>, tasks: States, me: Center)

  /** A plan counts as running until its latest try is older than the time left to its next turn. */
  predicate IsRunning(plan: Option<PlanState>, now: int, next: int) {
    plan.Some? && now - plan.value.latestTryTime <= next - now && plan.value.running
  }

  /** That is, exactly up to halfway from its latest try to its next turn. */
  lemma RunningUpToHalfway(p: PlanState, now: int, next: int)
    ensures IsRunning(Some(p), now, next) <==> p.running && 2 * now <= p.latestTryTime + next
  {
  }

  /** Under a schedule whose turns lie at most `gap` apart, a plan untouched for longer than that has stopped counting,
      and a plan tried a moment ago counts. */
  lemma UntouchedPlanStops(p: PlanState, turns: int -> int, gap: int, now: int)
    requires now < turns(now) <= now + gap
    ensures now - p.latestTryTime > gap ==> !IsRunning(Some(p), now, turns(now))
    ensures p.running && now - p.latestTryTime <= turns(now) - now ==> IsRunning(Some(p), now, turns(now))
  {
  }

  /** Once it has stopped, it does not count again before that turn. */
  lemma StoppedStaysStopped(p: PlanState, now: int, later: int, next: int)
    requires !IsRunning(Some(p), now, next) && now <= later
    ensures !IsRunning(Some(p), later, next)
  {
  }

  /** A start goes ahead for a task that has no record, or one that is not running or starting. */
  predicate MayLaunch(tasks: States, t: Task) {
    t in tasks ==> tasks[t].current.NotRunning? || tasks[t].current.Starting?
  }

  function InProcess(waiting: set<Task>): set<string> {
    set t | t in waiting :: t.id
  }

  function At(s: State, c: nat): Center {
    if c in s.centers then s.centers[c] else IDLE
  }

  function See(s: State, c: nat): View {
    View(s.plan, s.tasks, At(s, c))
  }

  /** The pass puts this task back, and the task still has a record. */
  predicate PutsBack(flow: Flow, v: View, w: Work) {
    && w.PutBackLost? && v.me.lock.Passing? && w.task in v.tasks
    && IsLost(flow, v.me.lock.snapshot, w.see, w.timeout, w.task)
  }

  /** One step of one center; a step that is not enabled changes nothing. */
  function Do(flow: Flow, v: View, w: Work): View {
    var me, lock := v.me, v.me.lock;
    match w
    case BeginPass => if lock.Free? then v.(me := me.(lock := Passing(v.tasks))) else v
    case PutBackLost(t, see, timeout) =>
      if PutsBack(flow, v, w)
      then v.(tasks := v.tasks[t := Requeued(v.tasks[t], LatestTmpID(lock.snapshot[t]), RERUN_REASON, see(t).now)])
      else v
    case EndPass(see, timeout, leader) =>
      if !lock.Passing? then v else
      var started := if leader && !PlanExhausted(flow, lock.snapshot) && !AllDone(flow, lock.snapshot)
                     then ReadySet(flow, lock.snapshot, see, timeout) else {};
      v.(me := me.(lock := Free, queued := me.queued + multiset(started)))
    case AbortPass => if lock.Passing? then v.(me := me.(lock := Free)) else v
    case Dequeue(t) =>
      if me.queued[t] == 0 then v else
      v.(me := me.(queued := me.queued - multiset{t},
                   waiting := if t.id in InProcess(me.waiting) then me.waiting else me.waiting + {t}))
    case CheckPlan(t, now, next) =>
      if t !in me.waiting || !lock.Free? then v
      else if IsRunning(v.plan, now, next) then v.(me := me.(lock := Admitted(t)))
      else v.(me := me.(waiting := me.waiting - {t}))
    case CheckStatus =>
      if !lock.Admitted? then v
      else if MayLaunch(v.tasks, lock.task) then v.(me := me.(lock := Launching(lock.task)))
      else v.(me := me.(waiting := me.waiting - {lock.task}, lock := Free))
    case Launch(command, tmpID, now) =>
      if !lock.Launching? then v else
      v.(tasks := v.tasks[lock.task := Started(Find(v.tasks, lock.task), command, tmpID, now)],
         me := me.(waiting := me.waiting - {lock.task}, lock := Free))
    case AbortLaunch =>
      if !lock.Admitted? && !lock.Launching? then v
      else v.(me := me.(waiting := me.waiting - {lock.task}, lock := Free))
    case BeginClose => if lock.Free? && v.plan.Some? then v.(me := me.(lock := Closing)) else v
    case ClearPlan => if lock.Closing? then v.(plan := None, me := me.(lock := Clearing)) else v
    case ClearTasks => if lock.Clearing? then v.(tasks := map[], me := me.(lock := Free)) else v
    case AbortClose => if lock.Closing? || lock.Clearing? then v.(me := me.(lock := Free)) else v
  }

  function Step(flow: Flow, s: State, a: Action): State {
    match a
    case SetRunning(now) => s.(plan := Some(Restarted(s.plan, now)))
    case ReportRunning(t, tmpID, agentIP, now) =>
      if t !in s.tasks then s else s.(tasks := s.tasks[t := Ran(s.tasks[t], tmpID, agentIP, now)])
    case ReportFinish(t, agentIP, report, now) =>
      if t !in s.tasks then s else s.(tasks := s.tasks[t := Finished(s.tasks[t], agentIP, report, now)])
    case By(c, work) =>
      var v := Do(flow, See(s, c), work);
      State(v.plan, v.tasks, s.centers[c := v.me])
  }

  function Run(flow: Flow, s: State, actions: seq<Action>): State
    decreases |actions|
  {
    if actions == [] then s else Run(flow, Step(flow, s, actions[0]), actions[1..])
  }

  lemma {:induction false} RunConcat(flow: Flow, s: State, a: seq<Action>, b: seq<Action>)
    ensures Run(flow, s, a + b) == Run(flow, Run(flow, s, a), b)
    decreases |a|
  {
    if a == [] {
      assert a + b == b;
    } else {
      assert (a + b)[0] == a[0] && (a + b)[1..] == a[1..] + b;
      RunConcat(flow, Step(flow, s, a[0]), a[1..], b);
    }
  }

  /** A run given by the states it passes through. */
  lemma {:induction false} RunTrace(flow: Flow, states: seq<State>, actions: seq<Action>)
    requires |states| == |actions| + 1
    requires forall i :: 0 <= i < |actions| ==> Step(flow, states[i], actions[i]) == states[i + 1]
    ensures Run(flow, states[0], actions) == states[|actions|]
    decreases |actions|
  {
    if actions != [] {
      assert Step(flow, states[0], actions[0]) == states[0 + 1];
      forall i | 0 <= i < |actions[1..]| ensures Step(flow, states[1..][i], actions[1..][i]) == states[1..][i + 1] {
        assert Step(flow, states[i + 1], actions[i + 1]) == states[i + 1 + 1];
      }
      RunTrace(flow, states[1..], actions[1..]);
    }
  }

  /** No task keys, nothing queued, nobody at work. */
  ghost predicate Fresh(s: State) {
    s.tasks == map[] && forall c: nat :: At(s, c) == IDLE
  }

  predicate Clears(a: Action) {
    a.By? && a.work.ClearTasks?
  }

  // ----- dependency order -----

  ghost predicate DoneIsLogged(states: States) {
    forall t :: t in states && states[t].current.Done? ==> HasDone(states[t].records)
  }

  ghost predicate LoggedDone(states: States, t: Task) {
    t in states && HasDone(states[t].records)
  }

  /** `later` has every record of `earlier`, with a log that extends the old one. */
  ghost predicate Extends(earlier: States, later: States) {
    forall t :: t in earlier ==> t in later && earlier[t].records <= later[t].records
  }

  ghost predicate DepsLogged(flow: Flow, states: States, t: Task) {
    t in flow && forall d :: DependsOn(flow, t, d) ==> LoggedDone(states, d)
  }

  ghost predicate TasksOrdered(flow: Flow, tasks: States) {
    DoneIsLogged(tasks) && forall t :: t in tasks ==> DepsLogged(flow, tasks, t)
  }

  /** A pass over these states may still queue a start of `t`. */
  ghost predicate PassMayStart(flow: Flow, snapshot: States, t: Task) {
    !PlanExhausted(flow, snapshot) && Eligible(flow, snapshot, t) && !StatusIn(snapshot, t).Running?
  }

  /** That is, some debounce window and some answer about starts in process let it. */
  lemma PassMayStartIff(flow: Flow, snapshot: States, t: Task)
    ensures PassMayStart(flow, snapshot, t) <==>
            !PlanExhausted(flow, snapshot) && exists see, timeout :: t in ReadySet(flow, snapshot, see, timeout)
    ensures PassMayStart(flow, snapshot, t) ==> t in ReadySet(flow, snapshot, LateGlances(snapshot, t), 0)
  {
    if PassMayStart(flow, snapshot, t) {
      assert !Exhausted(flow, snapshot, t);
      assert t in ReadySet(flow, snapshot, LateGlances(snapshot, t), 0);
    }
  }

  /** Late enough for the last record of `t`, whose lock is found gone if asked for. */
  function LateGlances(snapshot: States, t: Task): Glances {
    var log := LogIn(snapshot, t);
    var now := if log == [] then 0 else log[|log| - 1].eventTime + DEBOUNCE_MARGIN;
    _ => Glance(now, false, LockGone)
  }

  ghost predicate CenterOrdered(flow: Flow, tasks: States, c: Center) {
    && (forall t :: t in c.queued ==> DepsLogged(flow, tasks, t))
    && (forall t :: t in c.waiting ==> DepsLogged(flow, tasks, t))
    && (c.lock.Passing? ==> forall t :: PassMayStart(flow, c.lock.snapshot, t) ==> DepsLogged(flow, tasks, t))
    && (c.lock.Admitted? || c.lock.Launching? ==> c.lock.task in c.waiting)
  }

  /** A task has a record, a start on its way at any center, or a pass about to start it, only if each of its
      dependencies has been done. */
  ghost predicate Ordered(flow: Flow, s: State) {
    TasksOrdered(flow, s.tasks) && forall c: nat :: CenterOrdered(flow, s.tasks, At(s, c))
  }

  lemma LogGrows(earlier: seq<Record>, later: seq<Record>)
    requires earlier <= later
    ensures HasDone(earlier) ==> HasDone(later)
  {
    if HasDone(earlier) {
      var i :| 0 <= i < |earlier| && earlier[i].status == Known(Done);
      assert later[i].status == Known(Done);
    }
  }

  lemma ExtendsKeepsDone(flow: Flow, earlier: States, later: States, t: Task)
    requires Extends(earlier, later)
    ensures LoggedDone(earlier, t) ==> LoggedDone(later, t)
    ensures DepsLogged(flow, earlier, t) ==> DepsLogged(flow, later, t)
  {
    forall d | LoggedDone(earlier, d) ensures LoggedDone(later, d) {
      LogGrows(earlier[d].records, later[d].records);
    }
  }

  /** What the steps that write one task key have in common. */
  lemma WriteExtends(states: States, t: Task, value: TaskState)
    requires DoneIsLogged(states)
    requires t in states ==> states[t].records <= value.records
    requires value.current.Done? ==> HasDone(value.records)
    ensures Extends(states, states[t := value]) && DoneIsLogged(states[t := value])
  {
  }

  lemma FinishedIsLogged(s: TaskState, agentIP: string, report: Report, now: int)
    requires s.current.Done? ==> HasDone(s.records)
    ensures var next := Finished(s, agentIP, report, now);
            s.records <= next.records && (next.current.Done? ==> HasDone(next.records))
  {
    var next := Finished(s, agentIP, report, now);
    if next != s && next.current.Done? {
      assert next.records[|s.records|].status == Known(Done);
    }
  }

  /** What a pass finds startable in the states it has just read has its dependencies done. */
  lemma EligibleDepsAreLogged(flow: Flow, states: States, t: Task)
    requires DoneIsLogged(states) && Eligible(flow, states, t)
    ensures DepsLogged(flow, states, t)
  {
    forall d | DependsOn(flow, t, d) ensures LoggedDone(states, d) {
      assert IsDone(states, d);
    }
  }

  /** The one task key a center's step writes, if any. */
  function Writes(flow: Flow, v: View, w: Work): (write: Option<(Task, TaskState)>) {
    if PutsBack(flow, v, w)
    then Some((w.task,
               Requeued(v.tasks[w.task], LatestTmpID(v.me.lock.snapshot[w.task]), RERUN_REASON, w.see(w.task).now)))
    else if w.Launch? && v.me.lock.Launching?
    then Some((v.me.lock.task, Started(Find(v.tasks, v.me.lock.task), w.command, w.tmpID, w.now)))
    else None
  }

  /** Apart from the clear, a center's step leaves the task keys alone or writes that one. */
  lemma DoWrites(flow: Flow, v: View, w: Work)
    requires !(w.ClearTasks? && v.me.lock.Clearing?)
    ensures var write := Writes(flow, v, w);
            Do(flow, v, w).tasks == if write.None? then v.tasks else v.tasks[write.value.0 := write.value.1]
  {
  }

  lemma DoExtends(flow: Flow, v: View, w: Work)
    requires DoneIsLogged(v.tasks) && !w.ClearTasks?
    ensures Extends(v.tasks, Do(flow, v, w).tasks) && DoneIsLogged(Do(flow, v, w).tasks)
  {
    DoWrites(flow, v, w);
    var write := Writes(flow, v, w);
    if write.Some? {
      WriteExtends(v.tasks, write.value.0, write.value.1);
    }
  }

  lemma StepExtends(flow: Flow, s: State, a: Action)
    requires DoneIsLogged(s.tasks) && !Clears(a)
    ensures Extends(s.tasks, Step(flow, s, a).tasks) && DoneIsLogged(Step(flow, s, a).tasks)
  {
    match a
    case SetRunning(now) =>
    case ReportRunning(t, tmpID, agentIP, now) =>
      if t in s.tasks { WriteExtends(s.tasks, t, Ran(s.tasks[t], tmpID, agentIP, now)); }
    case ReportFinish(t, agentIP, report, now) =>
      if t in s.tasks {
        FinishedIsLogged(s.tasks[t], agentIP, report, now);
        WriteExtends(s.tasks, t, Finished(s.tasks[t], agentIP, report, now));
      }
    case By(c, work) => DoExtends(flow, See(s, c), work);
  }

  /** Every task that a center's step leaves recorded, queued or waiting was so before, or comes from the ready
      list of the pass that ends. */
  lemma DoAddsOnlyReadyTasks(flow: Flow, v: View, w: Work, t: Task)
    requires v.me.lock.Launching? ==> v.me.lock.task in v.me.waiting
    ensures var next := Do(flow, v, w);
            t in next.tasks || t in next.me.queued || t in next.me.waiting ==>
              || t in v.tasks || t in v.me.queued || t in v.me.waiting
              || (w.EndPass? && v.me.lock.Passing? && PassMayStart(flow, v.me.lock.snapshot, t))
  {
    if w.EndPass? && v.me.lock.Passing? && t in ReadySet(flow, v.me.lock.snapshot, w.see, w.timeout)
       && !PlanExhausted(flow, v.me.lock.snapshot)
    {
      PassMayStartIff(flow, v.me.lock.snapshot, t);
    }
  }

  /** A snapshot is what the tasks were when its pass began. */
  lemma SnapshotSteps(flow: Flow, v: View, w: Work)
    ensures var next := Do(flow, v, w);
            next.me.lock.Passing? ==>
              next.me.lock == v.me.lock || (next.me.lock.snapshot == v.tasks && next.tasks == v.tasks)
  {
  }

  predicate StartIsMarked(c: Center) {
    c.lock.Admitted? || c.lock.Launching? ==> c.lock.task in c.waiting
  }

  /** A start under way stays marked as waiting. */
  lemma MarkSteps(flow: Flow, v: View, w: Work)
    requires StartIsMarked(v.me)
    ensures StartIsMarked(Do(flow, v, w).me)
  {
  }

  /** A center's own step keeps its part in order. */
  lemma DoKeepsOrder(flow: Flow, v: View, w: Work)
    requires TasksOrdered(flow, v.tasks) && CenterOrdered(flow, v.tasks, v.me) && !w.ClearTasks?
    ensures var next := Do(flow, v, w);
            TasksOrdered(flow, next.tasks) && CenterOrdered(flow, next.tasks, next.me)
  {
    var next := Do(flow, v, w);
    DoExtends(flow, v, w);
    SnapshotSteps(flow, v, w);
    MarkSteps(flow, v, w);
    forall t | t in next.tasks || t in next.me.queued || t in next.me.waiting
      ensures DepsLogged(flow, next.tasks, t)
    {
      DoAddsOnlyReadyTasks(flow, v, w, t);
      assert DepsLogged(flow, v.tasks, t);
      ExtendsKeepsDone(flow, v.tasks, next.tasks, t);
    }
    if next.me.lock.Passing? {
      forall t | PassMayStart(flow, next.me.lock.snapshot, t) ensures DepsLogged(flow, next.tasks, t) {
        if next.me.lock != v.me.lock {
          EligibleDepsAreLogged(flow, v.tasks, t);
        }
        ExtendsKeepsDone(flow, v.tasks, next.tasks, t);
      }
    }
  }

  /** A center that does nothing stays in order while the logs grow. */
  lemma GrowthKeepsCenter(flow: Flow, earlier: States, later: States, c: Center)
    requires Extends(earlier, later) && CenterOrdered(flow, earlier, c)
    ensures CenterOrdered(flow, later, c)
  {
    forall t | t in c.queued || t in c.waiting ensures DepsLogged(flow, later, t) {
      ExtendsKeepsDone(flow, earlier, later, t);
    }
    if c.lock.Passing? {
      forall t | PassMayStart(flow, c.lock.snapshot, t) ensures DepsLogged(flow, later, t) {
        ExtendsKeepsDone(flow, earlier, later, t);
      }
    }
  }

  lemma ReportKeepsTasks(flow: Flow, s: State, a: Action)
    requires TasksOrdered(flow, s.tasks) && !a.By?
    ensures TasksOrdered(flow, Step(flow, s, a).tasks)
  {
    var next := Step(flow, s, a);
    StepExtends(flow, s, a);
    forall t | t in next.tasks ensures DepsLogged(flow, next.tasks, t) {
      assert t in s.tasks;
      ExtendsKeepsDone(flow, s.tasks, next.tasks, t);
    }
  }

  lemma StepKeepsOrder(flow: Flow, s: State, a: Action)
    requires Ordered(flow, s) && !Clears(a)
    ensures Ordered(flow, Step(flow, s, a))
  {
    var next := Step(flow, s, a);
    StepExtends(flow, s, a);
    if a.By? {
      assert CenterOrdered(flow, s.tasks, At(s, a.center));
      DoKeepsOrder(flow, See(s, a.center), a.work);
    } else {
      ReportKeepsTasks(flow, s, a);
    }
    forall c: nat ensures CenterOrdered(flow, next.tasks, At(next, c)) {
      if !(a.By? && a.center == c) {
        assert At(next, c) == At(s, c);
        GrowthKeepsCenter(flow, s.tasks, next.tasks, At(s, c));
      }
    }
  }

  lemma FreshIsOrdered(flow: Flow, s: State)
    requires Fresh(s)
    ensures Ordered(flow, s)
  {
    assert forall c: nat :: At(s, c) == IDLE ==> CenterOrdered(flow, s.tasks, At(s, c));
  }

  /** Dependency order, for every interleaving of any number of centers: from a fresh start up to the clearing of
      the plan, no task is ever started or queued before each of its dependencies has been done. */
  lemma {:induction false} DependencyOrder(flow: Flow, s: State, actions: seq<Action>)
    requires Fresh(s) || Ordered(flow, s)
    requires forall a :: a in actions ==> !Clears(a)
    ensures Ordered(flow, Run(flow, s, actions))
    decreases |actions|
  {
    if Fresh(s) {
      FreshIsOrdered(flow, s);
    }
    if actions != [] {
      StepKeepsOrder(flow, s, actions[0]);
      DependencyOrder(flow, Step(flow, s, actions[0]), actions[1..]);
    }
  }

  // ----- cycles -----

  ghost predicate CenterUntouched(c: Center, group: set<Task>) {
    && (forall t :: t in group ==> c.queued[t] == 0 && t !in c.waiting)
    && (c.lock.Passing? ==> forall t :: t in group ==> t !in c.lock.snapshot)
    && StartIsMarked(c)
  }

  /** Nothing in the set has a record, or a start on its way at any center. */
  ghost predicate Untouched(s: State, group: set<Task>) {
    s.tasks.Keys !! group && forall c: nat :: CenterUntouched(At(s, c), group)
  }

  lemma DoKeepsUntouched(flow: Flow, v: View, stuck: set<Task>, w: Work)
    requires Stuck(flow, stuck) && v.tasks.Keys !! stuck && CenterUntouched(v.me, stuck)
    ensures var next := Do(flow, v, w);
            next.tasks.Keys !! stuck && CenterUntouched(next.me, stuck)
  {
    var next := Do(flow, v, w);
    SnapshotSteps(flow, v, w);
    MarkSteps(flow, v, w);
    forall t | t in stuck ensures t !in next.tasks && next.me.queued[t] == 0 && t !in next.me.waiting {
      DoAddsOnlyReadyTasks(flow, v, w, t);
      if w.EndPass? && v.me.lock.Passing? && t in flow {
        var d :| d in stuck && DependsOn(flow, t, d);
        assert !IsDone(v.me.lock.snapshot, d);
      }
    }
  }

  lemma {:induction false} StuckTasksNeverStart(flow: Flow, s: State, stuck: set<Task>, actions: seq<Action>)
    requires Stuck(flow, stuck) && Untouched(s, stuck)
    ensures Untouched(Run(flow, s, actions), stuck)
    decreases |actions|
  {
    if actions != [] {
      var a, next := actions[0], Step(flow, s, actions[0]);
      if a.By? {
        DoKeepsUntouched(flow, See(s, a.center), stuck, a.work);
      } else {
        assert next.tasks.Keys == s.tasks.Keys;
      }
      forall c: nat ensures CenterUntouched(At(next, c), stuck) {
        assert !(a.By? && a.center == c) ==> At(next, c) == At(s, c);
      }
      StuckTasksNeverStart(flow, next, stuck, actions[1..]);
    }
  }

  /** A task that waits, however indirectly, for a cycle (or for a task outside the plan) is never started in
      any run, clears and restarts included, so no pass ever answers that the plan succeeded. */
  lemma BlockedTaskNeverStarts(flow: Flow, s: State, t: Task, actions: seq<Action>, c: nat)
    requires Fresh(s) && t in flow && Blocked(flow, t)
    ensures var last := Run(flow, s, actions);
            && t !in last.tasks && At(last, c).queued[t] == 0 && t !in At(last, c).waiting
            && (At(last, c).lock.Passing? ==> !AllDone(flow, At(last, c).lock.snapshot))
  {
    var stuck := BlockedIsStuck(flow, t);
    assert forall e: nat :: At(s, e) == IDLE ==> CenterUntouched(At(s, e), stuck);
    StuckTasksNeverStart(flow, s, stuck, actions);
    assert CenterUntouched(At(Run(flow, s, actions), c), stuck);
  }

  // ----- what does not hold by itself: "done stays done", and one start at a time -----

  /** The steps that take a done task back: they write its record without looking at its status. */
  predicate Undoes(flow: Flow, s: State, a: Action, t: Task) {
    match a
    case ReportRunning(task, _, _, _) => task == t
    case By(c, Launch(_, _, _)) => At(s, c).lock == Launching(t)
    case By(c, PutBackLost(task, _, _)) => task == t && PutsBack(flow, See(s, c), a.work)
    case By(c, ClearTasks) => At(s, c).lock.Clearing?
    case _ => false
  }

  /** A done task stays done in a step exactly when the step is none of these. */
  lemma DoneSurvivesIff(flow: Flow, s: State, a: Action, t: Task)
    requires IsDone(s.tasks, t)
    ensures IsDone(Step(flow, s, a).tasks, t) <==> !Undoes(flow, s, a, t)
  {
    match a
    case ReportFinish(task, agentIP, report, now) =>
      assert task == t ==> Finished(s.tasks[t], agentIP, report, now) == s.tasks[t];
    case By(c, work) =>
      if !(work.ClearTasks? && At(s, c).lock.Clearing?) {
        DoWrites(flow, See(s, c), work);
      }
    case _ =>
  }

  /** No two starts of one task id are under way at once, and only one of all of them is past its checks. */
  ghost predicate StartsApart(c: Center) {
    && (forall t, u :: t in c.waiting && u in c.waiting && t.id == u.id ==> t == u)
    && StartIsMarked(c)
  }

  lemma DoKeepsStartsApart(flow: Flow, v: View, w: Work)
    requires StartsApart(v.me)
    ensures StartsApart(Do(flow, v, w).me)
  {
    MarkSteps(flow, v, w);
    assert w.Dequeue? ==> forall t :: t in v.me.waiting ==> t.id in InProcess(v.me.waiting);
  }

  lemma {:induction false} StartsStayApart(flow: Flow, s: State, actions: seq<Action>)
    requires Fresh(s) || forall c: nat :: StartsApart(At(s, c))
    ensures forall c: nat :: StartsApart(At(Run(flow, s, actions), c))
    ensures forall c: nat, t, u ::
              var waiting := At(Run(flow, s, actions), c).waiting;
              t in waiting && u in waiting && t.id == u.id ==> t == u
    decreases |actions|
  {
    assert forall c: nat :: At(s, c) == IDLE ==> StartsApart(At(s, c));
    if actions != [] {
      var a, next := actions[0], Step(flow, s, actions[0]);
      if a.By? {
        DoKeepsStartsApart(flow, See(s, a.center), a.work);
      }
      forall c: nat ensures StartsApart(At(next, c)) {
        assert !(a.By? && a.center == c) ==> At(next, c) == At(s, c);
      }
      StartsStayApart(flow, next, actions[1..]);
    }
  }

  // ----- records and their logs -----

  ghost predicate SnapshotReplays(c: Center) {
    c.lock.Passing? ==> AllReplay(c.lock.snapshot)
  }

  ghost predicate Sound(s: State) {
    AllReplay(s.tasks) && forall c: nat :: SnapshotReplays(At(s, c))
  }

  lemma WriteReplays(states: States, t: Task, value: TaskState)
    requires AllReplay(states) && Replays(value)
    ensures AllReplay(states[t := value])
  {
  }

  lemma DoKeepsReplay(flow: Flow, v: View, w: Work)
    requires AllReplay(v.tasks)
    ensures AllReplay(Do(flow, v, w).tasks)
  {
    if !(w.ClearTasks? && v.me.lock.Clearing?) {
      DoWrites(flow, v, w);
      var write := Writes(flow, v, w);
      if PutsBack(flow, v, w) {
        var tmpID := LatestTmpID(v.me.lock.snapshot[w.task]);
        RunAndRequeueReplay(v.tasks[w.task], tmpID, RERUN_REASON, w.see(w.task).now);
        WriteReplays(v.tasks, write.value.0, write.value.1);
      } else if write.Some? {
        StartReplaysIfStored(v.tasks, write.value.0, w.command, w.tmpID, w.now);
        WriteReplays(v.tasks, write.value.0, write.value.1);
      }
    }
  }

  lemma StepKeepsReplay(flow: Flow, s: State, a: Action)
    requires Sound(s)
    requires a.ReportFinish? && a.task in s.tasks ==> Actionable(s.tasks[a.task], a.report)
    ensures Sound(Step(flow, s, a))
  {
    var next := Step(flow, s, a);
    match a {
      case SetRunning(now) =>
      case ReportRunning(t, tmpID, agentIP, now) =>
        if t in s.tasks { RunAndRequeueReplay(s.tasks[t], tmpID, agentIP, now); }
      case ReportFinish(t, agentIP, report, now) =>
        if t in s.tasks { FinishReplaysIff(s.tasks[t], agentIP, report, now); }
      case By(c, work) =>
        DoKeepsReplay(flow, See(s, c), work);
        SnapshotSteps(flow, See(s, c), work);
    }
    forall c: nat ensures SnapshotReplays(At(next, c)) {
      assert SnapshotReplays(At(s, c));
      assert !(a.By? && a.center == c) ==> At(next, c) == At(s, c);
    }
  }

  /** In every run in which agents report done or fail (or a text nobody knows), every stored record is the
      replay of its log, and a failed task a pass looks at has no start left. */
  lemma {:induction false} EveryRunReplays(flow: Flow, s: State, actions: seq<Action>, c: nat)
    requires Sound(s)
    requires forall a :: a in actions && a.ReportFinish? ==>
               Meaningful(Finish(a.agentIP, a.report, a.now))
    ensures var last := Run(flow, s, actions);
            && Sound(last)
            && (At(last, c).lock.Passing? ==>
                  var snapshot := At(last, c).lock.snapshot;
                  && RunningIsLogged(snapshot)
                  && forall t :: Eligible(flow, snapshot, t) && StatusIn(snapshot, t).Fail? ==>
                       Exhausted(flow, snapshot, t))
    decreases |actions|
  {
    if actions == [] {
      if At(s, c).lock.Passing? {
        var snapshot := At(s, c).lock.snapshot;
        assert SnapshotReplays(At(s, c));
        PassKeepsReplay(flow, snapshot, _ => Glance(0, false, LockHeld), 0, snapshot, false);
        forall t | Eligible(flow, snapshot, t) && StatusIn(snapshot, t).Fail? ensures Exhausted(flow, snapshot, t) {
          FailedTasksAreExhausted(flow, snapshot, t);
        }
      }
    } else {
      StepKeepsReplay(flow, s, actions[0]);
      EveryRunReplays(flow, Step(flow, s, actions[0]), actions[1..], c);
    }
  }

  /** What a pass lets through, the start lets through: on a store whose records replay their logs, no ready
      task is turned away for its status, unless it changes in between. */
  lemma ReadyTasksMayLaunch(flow: Flow, states: States, see: Glances, timeout: int, t: Task)
    requires AllReplay(states) && !PlanExhausted(flow, states)
    requires t in ReadySet(flow, states, see, timeout)
    ensures MayLaunch(states, t)
  {
    if StatusIn(states, t).Fail? {
      FailedTasksAreExhausted(flow, states, t);
    }
  }
}
