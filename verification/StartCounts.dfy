/** How often a task can be started: the limit of three starts, what puts it aside, and a bound that counts it
    (app/workflow.go, app/schedule.go). */
module StartCounts {
  import opened Basics
  import TaskStates
  import opened DependencyGraph
  import opened Scheduling
  import opened WorkflowEngine
  import opened WorkflowCompletion

  function CountIn(states: TaskStates.States, t: Task): nat {
    if t in states then states[t].count else 0
  }

  // ----- starts on their way -----

  function OnItsWay(c: Center, t: Task): nat {
    c.queued[t] + if t in c.waiting then 1 else 0
  }

  /** Queued and marked starts of `t` at the centers below `n`. */
  function OnTheirWay(s: State, t: Task, n: nat): nat {
    if n == 0 then 0 else OnTheirWay(s, t, n - 1) + OnItsWay(At(s, n - 1), t)
  }

  lemma {:induction false} OnTheirWayMoves(s: State, next: State, t: Task, n: nat, c: nat)
    requires forall e: nat :: e != c ==> At(next, e) == At(s, e)
    ensures OnTheirWay(next, t, n) - OnTheirWay(s, t, n) ==
            if c < n then OnItsWay(At(next, c), t) - OnItsWay(At(s, c), t) else 0
    ensures c < n ==> OnItsWay(At(s, c), t) <= OnTheirWay(s, t, n)
  {
    if n > 0 {
      OnTheirWayMoves(s, next, t, n - 1, c);
    }
  }

  // ----- what adds to the limit -----

  predicate Queues(flow: Flow, v: View, w: Work, t: Task) {
    && w.EndPass? && w.leader && v.me.lock.Passing?
    && !PlanExhausted(flow, v.me.lock.snapshot) && t in ReadySet(flow, v.me.lock.snapshot, w.see, w.timeout)
  }

  /** The step puts `t` back. */
  predicate PutsItBack(flow: Flow, s: State, a: Action, t: Task) {
    a.By? && PutsBack(flow, See(s, a.center), a.work) && a.work.task == t
  }

  /** The step queues `t` although a start of it is on its way, or another one went through since the pass read the
      states. */
  predicate QueuesExtra(flow: Flow, s: State, a: Action, t: Task, n: nat) {
    && a.By? && Queues(flow, See(s, a.center), a.work, t)
    && (OnTheirWay(s, t, n) > 0 || CountIn(s.tasks, t) > CountIn(At(s, a.center).lock.snapshot, t))
  }

  function PutBacks(flow: Flow, s: State, actions: seq<Action>, t: Task): nat
    decreases |actions|
  {
    if actions == [] then 0
    else (if PutsItBack(flow, s, actions[0], t) then 1 else 0) +
         PutBacks(flow, Step(flow, s, actions[0]), actions[1..], t)
  }

  function ExtraEvents(flow: Flow, s: State, actions: seq<Action>, t: Task, n: nat): nat
    decreases |actions|
  {
    if actions == [] then 0
    else (if QueuesExtra(flow, s, actions[0], t, n) then 1 else 0) +
         ExtraEvents(flow, Step(flow, s, actions[0]), actions[1..], t, n)
  }

  // ----- the bound -----

  /** Another start of `t` fits under the bound if its record invites one. */
  predicate RoomIn(states: TaskStates.States, t: Task, bound: nat) {
    t in states && states[t].current.NotRunning? ==> states[t].count < bound
  }

  ghost predicate CenterBounded(flow: Flow, c: Center, t: Task, bound: nat) {
    && StartIsMarked(c)
    && (c.lock.Passing? && PassMayStart(flow, c.lock.snapshot, t) ==> CountIn(c.lock.snapshot, t) < bound)
  }

  ghost predicate Bounded(flow: Flow, s: State, t: Task, n: nat, bound: nat) {
    && TaskStates.SCHEDULE_LIMIT <= bound
    && CountIn(s.tasks, t) + OnTheirWay(s, t, n) <= bound
    && RoomIn(s.tasks, t, bound)
    && forall c: nat :: CenterBounded(flow, At(s, c), t, bound)
  }

  /** A center's step adds a start on its way only by queueing one: a start that goes through is one no longer on its
      way. */
  lemma DoMovesStarts(flow: Flow, v: View, w: Work, t: Task)
    requires StartIsMarked(v.me)
    ensures var next := Do(flow, v, w);
            CountIn(next.tasks, t) + OnItsWay(next.me, t) <=
            CountIn(v.tasks, t) + OnItsWay(v.me, t) + if Queues(flow, v, w, t) then 1 else 0
  {
  }

  lemma DoKeepsRoom(flow: Flow, v: View, w: Work, t: Task, bound: nat)
    requires RoomIn(v.tasks, t, bound) && CountIn(v.tasks, t) <= bound
    ensures RoomIn(Do(flow, v, w).tasks, t,
                   bound + if PutsBack(flow, v, w) && w.task == t then 1 else 0)
  {
    if !(w.ClearTasks? && v.me.lock.Clearing?) {
      DoWrites(flow, v, w);
    }
  }

  lemma DoKeepsCenterBounded(flow: Flow, v: View, w: Work, t: Task, bound: nat)
    requires TaskStates.SCHEDULE_LIMIT <= bound
    requires CenterBounded(flow, v.me, t, bound) && RoomIn(v.tasks, t, bound)
    ensures CenterBounded(flow, Do(flow, v, w).me, t, bound)
  {
    MarkSteps(flow, v, w);
    SnapshotSteps(flow, v, w);
    if PassMayStart(flow, v.tasks, t) {
      assert !Exhausted(flow, v.tasks, t);
    }
  }

  lemma ByKeepsBounded(flow: Flow, s: State, a: Action, t: Task, n: nat, bound: nat)
    requires Bounded(flow, s, t, n, bound) && a.By? && a.center < n
    ensures Bounded(flow, Step(flow, s, a), t, n,
                    bound + (if PutsItBack(flow, s, a, t) then 1 else 0)
                          + if QueuesExtra(flow, s, a, t, n) then 1 else 0)
  {
    var v, next := See(s, a.center), Step(flow, s, a);
    var more := bound + (if PutsItBack(flow, s, a, t) then 1 else 0) + if QueuesExtra(flow, s, a, t, n) then 1 else 0;
    assert CenterBounded(flow, v.me, t, bound);
    OnTheirWayMoves(s, next, t, n, a.center);
    assert CountIn(next.tasks, t) + OnTheirWay(next, t, n) <= more by {
      DoMovesStarts(flow, v, a.work, t);
      if Queues(flow, v, a.work, t) && !QueuesExtra(flow, s, a, t, n) {
        PassMayStartIff(flow, v.me.lock.snapshot, t);
      }
    }
    assert RoomIn(next.tasks, t, more) by {
      DoKeepsRoom(flow, v, a.work, t, bound);
    }
    forall c: nat ensures CenterBounded(flow, At(next, c), t, more) {
      assert CenterBounded(flow, At(s, c), t, bound);
      if c == a.center {
        DoKeepsCenterBounded(flow, v, a.work, t, bound);
      }
    }
  }

  lemma OthersKeepBounded(flow: Flow, s: State, a: Action, t: Task, n: nat, bound: nat)
    requires Bounded(flow, s, t, n, bound) && !a.By?
    ensures Bounded(flow, Step(flow, s, a), t, n, bound)
  {
    var next := Step(flow, s, a);
    OnTheirWayMoves(s, next, t, n, n);
    forall c: nat ensures CenterBounded(flow, At(next, c), t, bound) {
      assert CenterBounded(flow, At(s, c), t, bound);
    }
  }

  ghost predicate CentersBelow(actions: seq<Action>, n: nat) {
    forall a :: a in actions && a.By? ==> a.center < n
  }

  lemma {:induction false} RunIsBounded(flow: Flow, s: State, actions: seq<Action>, t: Task, n: nat, bound: nat)
    requires Bounded(flow, s, t, n, bound) && CentersBelow(actions, n)
    ensures Bounded(flow, Run(flow, s, actions), t, n,
                    bound + PutBacks(flow, s, actions, t) + ExtraEvents(flow, s, actions, t, n))
    decreases |actions|
  {
    if actions != [] {
      var next := Step(flow, s, actions[0]);
      var more := bound + (if PutsItBack(flow, s, actions[0], t) then 1 else 0)
                        + if QueuesExtra(flow, s, actions[0], t, n) then 1 else 0;
      if actions[0].By? {
        ByKeepsBounded(flow, s, actions[0], t, n, bound);
      } else {
        OthersKeepBounded(flow, s, actions[0], t, n, bound);
      }
      RunIsBounded(flow, next, actions[1..], t, n, more);
    }
  }

  /** In every run from a fresh start a task has been started at most three times, plus once for every time it was put
      back, plus once for every start event beyond the one that its record called for. */
  lemma StartsAreBounded(flow: Flow, s: State, actions: seq<Action>, t: Task, n: nat)
    requires Fresh(s) && CentersBelow(actions, n)
    ensures CountIn(Run(flow, s, actions).tasks, t) <=
            TaskStates.SCHEDULE_LIMIT + PutBacks(flow, s, actions, t) + ExtraEvents(flow, s, actions, t, n)
  {
    NothingOnItsWay(s, t, n);
    assert forall c: nat :: At(s, c) == IDLE ==> CenterBounded(flow, At(s, c), t, 3);
    RunIsBounded(flow, s, actions, t, n, 3);
  }

  lemma {:induction false} NothingOnItsWay(s: State, t: Task, n: nat)
    requires Fresh(s)
    ensures OnTheirWay(s, t, n) == 0
  {
    if n > 0 {
      NothingOnItsWay(s, t, n - 1);
      assert At(s, n - 1) == IDLE;
    }
  }

  // ----- the limit is no cap -----

  /** Started `k` times and put back each time, with the plan running and center 0 at rest. */
  predicate PutBackAfter(s: State, t: Task, k: nat) {
    && s.plan.Some? && s.plan.value.running && s.plan.value.latestTryTime == 0
    && At(s, 0).lock.Free? && At(s, 0).waiting == {} && At(s, 0).queued[t] == 0
    && (if k == 0 then s.tasks == map[] else s.tasks.Keys == {t} && s.tasks[t].current.NotRunning?)
    && CountIn(s.tasks, t) == k
  }

  function Alone(t: Task): Flow {
    map[t := []]
  }

  lemma {:induction false} ExtraConcat(flow: Flow, s: State, a: seq<Action>, b: seq<Action>, t: Task, n: nat)
    ensures ExtraEvents(flow, s, a + b, t, n) ==
            ExtraEvents(flow, s, a, t, n) + ExtraEvents(flow, Run(flow, s, a), b, t, n)
    decreases |a|
  {
    if a == [] {
      assert a + b == b;
    } else {
      assert (a + b)[0] == a[0] && (a + b)[1..] == a[1..] + b;
      ExtraConcat(flow, Step(flow, s, a[0]), a[1..], b, t, n);
    }
  }

  /** Only the end of a pass queues anything. */
  lemma {:induction false} NoPassNoExtra(flow: Flow, s: State, actions: seq<Action>, t: Task, n: nat)
    requires forall a :: a in actions && a.By? ==> !a.work.EndPass?
    ensures ExtraEvents(flow, s, actions, t, n) == 0
    decreases |actions|
  {
    if actions != [] {
      NoPassNoExtra(flow, Step(flow, s, actions[0]), actions[1..], t, n);
    }
  }

  /** A pass late enough for the last record of `t`. */
  function LatePass(s: State, t: Task): seq<Action> {
    [By(0, BeginPass), By(0, EndPass(LateGlances(s.tasks, t), 0, true))]
  }

  function Reading(s: State): State {
    s.(centers := s.centers[0 := At(s, 0).(lock := Passing(s.tasks))])
  }

  lemma LatePassReads(s: State, t: Task)
    requires At(s, 0).lock.Free?
    ensures Step(Alone(t), s, By(0, BeginPass)) == Reading(s)
  {
  }

  lemma LatePassQueues(s: State, t: Task, k: nat)
    requires PutBackAfter(s, t, k)
    ensures var next := Step(Alone(t), Reading(s), LatePass(s, t)[1]);
            && next == s.(centers := s.centers[0 := At(s, 0).(queued := At(next, 0).queued)])
            && At(next, 0).queued[t] == 1
  {
    var flow, see := Alone(t), LateGlances(s.tasks, t);
    assert forall u :: Exhausted(flow, s.tasks, u) ==> u == t;
    assert PassMayStart(flow, s.tasks, t) && !AllDone(flow, s.tasks);
    PassMayStartIff(flow, s.tasks, t);
    var next := Step(flow, Reading(s), LatePass(s, t)[1]);
    assert At(next, 0).queued == At(s, 0).queued + multiset(ReadySet(flow, s.tasks, see, 0));
    assert next.centers == s.centers[0 := At(next, 0)];
  }

  lemma TaskIsQueued(s: State, t: Task, k: nat) returns (actions: seq<Action>)
    requires PutBackAfter(s, t, k)
    ensures var next := Run(Alone(t), s, actions);
            && next == s.(centers := s.centers[0 := At(s, 0).(queued := At(next, 0).queued)])
            && At(next, 0).queued[t] == 1
    ensures ExtraEvents(Alone(t), s, actions, t, 1) == 0
  {
    var flow := Alone(t);
    actions := LatePass(s, t);
    var next := Step(flow, Reading(s), actions[1]);
    LatePassReads(s, t);
    LatePassQueues(s, t, k);
    RunTrace(flow, [s, Reading(s), next], actions);
    NothingExtra(Reading(s), actions[1], t);
    NoPassNoExtra(flow, s, actions[..1], t, 1);
    RunTrace(flow, [s, Reading(s)], actions[..1]);
    assert actions == actions[..1] + actions[1..];
    ExtraConcat(flow, s, actions[..1], actions[1..], t, 1);
    assert actions[1..][1..] == [] && ExtraEvents(flow, next, [], t, 1) == 0;
  }

  /** With nothing on its way and no start since the pass began, the event is not an extra one. */
  lemma NothingExtra(s: State, a: Action, t: Task)
    requires a.By? && a.center == 0 && At(s, 0).queued[t] == 0 && t !in At(s, 0).waiting
    requires At(s, 0).lock == Passing(s.tasks)
    ensures !QueuesExtra(Alone(t), s, a, t, 1)
  {
    assert OnTheirWay(s, t, 0) == 0 && OnTheirWay(s, t, 1) == OnItsWay(At(s, 0), t);
  }

  lemma TaskIsStarted(s: State, t: Task, k: nat) returns (actions: seq<Action>)
    requires s.plan.Some? && s.plan.value.running && s.plan.value.latestTryTime == 0
    requires At(s, 0).lock.Free? && At(s, 0).waiting == {} && At(s, 0).queued[t] == 1
    requires MayLaunch(s.tasks, t) && s.tasks.Keys <= {t} && CountIn(s.tasks, t) == k
    ensures var next := Run(Alone(t), s, actions);
            && next.plan == s.plan && At(next, 0).lock.Free? && At(next, 0).waiting == {} && At(next, 0).queued[t] == 0
            && next.tasks.Keys == {t} && next.tasks[t].count == k + 1
    ensures ExtraEvents(Alone(t), s, actions, t, 1) == 0
  {
    actions := [By(0, Dequeue(t))] + Start(0, t, 0);
    QueuedTaskStarts(Alone(t), s, t, 0);
    NoPassNoExtra(Alone(t), s, actions, t, 1);
  }

  /** The agent reports it running, and a pass finds its lock gone. */
  lemma TaskIsPutBack(s: State, t: Task, k: nat) returns (actions: seq<Action>)
    requires s.plan.Some? && s.plan.value.running && s.plan.value.latestTryTime == 0
    requires At(s, 0).lock.Free? && At(s, 0).waiting == {} && At(s, 0).queued[t] == 0
    requires s.tasks.Keys == {t} && s.tasks[t].count == k + 1
    ensures PutBackAfter(Run(Alone(t), s, actions), t, k + 1)
    ensures ExtraEvents(Alone(t), s, actions, t, 1) == 0
  {
    var flow, report := Alone(t), ReportRunning(t, "", "", 0);
    var running := Step(flow, s, report);
    var rest := PassPutsBack(running, t, k + 1);
    actions := [report] + rest;
    RunTrace(flow, [s, running], [report]);
    RunConcat(flow, s, [report], rest);
    NoPassNoExtra(flow, s, actions, t, 1);
  }

  lemma PassPutsBack(s: State, t: Task, k: nat) returns (actions: seq<Action>)
    requires s.plan.Some? && s.plan.value.running && s.plan.value.latestTryTime == 0
    requires At(s, 0).lock.Free? && At(s, 0).waiting == {} && At(s, 0).queued[t] == 0
    requires k > 0 && s.tasks.Keys == {t} && s.tasks[t].count == k && s.tasks[t].current.Running?
    ensures PutBackAfter(Run(Alone(t), s, actions), t, k)
    ensures forall a :: a in actions && a.By? ==> !a.work.EndPass?
  {
    var flow, lost := Alone(t), PutBackLost(t, LateGlances(s.tasks, t), 0);
    actions := [By(0, BeginPass), By(0, lost), By(0, AbortPass)];
    LatePassReads(s, t);
    assert PutsBack(flow, See(Reading(s), 0), lost);
    var back := Step(flow, Reading(s), actions[1]);
    RunTrace(flow, [s, Reading(s), back, Step(flow, back, actions[2])], actions);
  }

  lemma OnceMore(s: State, t: Task, k: nat) returns (actions: seq<Action>)
    requires PutBackAfter(s, t, k)
    ensures PutBackAfter(Run(Alone(t), s, actions), t, k + 1)
    ensures ExtraEvents(Alone(t), s, actions, t, 1) == 0
  {
    var flow := Alone(t);
    var queue := TaskIsQueued(s, t, k);
    var queued := Run(flow, s, queue);
    var start := TaskIsStarted(queued, t, k);
    var back := TaskIsPutBack(Run(flow, queued, start), t, k);
    actions := queue + (start + back);
    RunConcat(flow, s, queue, start + back);
    RunConcat(flow, queued, start, back);
    ExtraConcat(flow, s, queue, start + back, t, 1);
    ExtraConcat(flow, queued, start, back, t, 1);
  }

  lemma {:induction false} StartAgain(s: State, t: Task, k: nat, m: nat) returns (actions: seq<Action>)
    requires PutBackAfter(s, t, k)
    ensures PutBackAfter(Run(Alone(t), s, actions), t, k + m)
    ensures ExtraEvents(Alone(t), s, actions, t, 1) == 0
    decreases m
  {
    if m == 0 {
      actions := [];
    } else {
      var once := OnceMore(s, t, k);
      var next := Run(Alone(t), s, once);
      var rest := StartAgain(next, t, k + 1, m - 1);
      actions := once + rest;
      RunConcat(Alone(t), s, once, rest);
      ExtraConcat(Alone(t), s, once, rest, t, 1);
    }
  }

  /** For every number of starts there is a run from a fresh start that reaches it, without any extra event: a task
      that is put back is ready again whatever its count. */
  lemma AnyNumberOfStarts(s: State, t: Task, k: nat) returns (actions: seq<Action>)
    requires Fresh(s)
    ensures CountIn(Run(Alone(t), s, actions).tasks, t) == k && ExtraEvents(Alone(t), s, actions, t, 1) == 0
  {
    var flow, start := Alone(t), [SetRunning(0)];
    var ready := Step(flow, s, start[0]);
    assert At(ready, 0) == At(s, 0) == IDLE;
    RunTrace(flow, [s, ready], start);
    var rest := StartAgain(ready, t, 0, k);
    actions := start + rest;
    RunConcat(flow, s, start, rest);
    NoPassNoExtra(flow, s, start, t, 1);
    ExtraConcat(flow, s, start, rest, t, 1);
  }
}
