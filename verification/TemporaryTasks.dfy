/** The worker for one-off tasks: a tick dispatches the waiting tasks of the current minutes and reports the
    overdue ones as failed (app/temporary_task.go, app/app.go). Times are in seconds. */
module TemporaryTasks {
  const MINUTE := 60

  datatype TaskKey = TaskKey(project: int, tmpID: string)

  datatype Row = Row(scheduleTime: int, waiting: bool)

  type Rows = map<TaskKey, Row>

  datatype Outcome = Dispatched(key: TaskKey) | Expired(key: TaskKey)

  /** Which calls succeed for a task during a tick: looking the task up, marking it scheduled before the
      dispatch, and marking it scheduled when it has expired. */
  datatype Calls = Calls(found: bool, marked: bool, markedExpired: bool)

  function MinuteOf(t: int): int {
    t - t % MINUTE
  }

  /** Of this minute, or of the previous one but not on its first second. */
  predicate InWindow(row: Row, now: int) {
    row.waiting &&
    (row.scheduleTime / MINUTE == now / MINUTE
     || (row.scheduleTime / MINUTE == now / MINUTE - 1 && row.scheduleTime % MINUTE != 0))
  }

  /** Of an earlier minute, or on the first second of this one. */
  predicate Overdue(row: Row, at: int) {
    row.waiting &&
    (row.scheduleTime / MINUTE < at / MINUTE
     || (row.scheduleTime / MINUTE == at / MINUTE && row.scheduleTime % MINUTE == 0))
  }

  /** The comparisons of the two queries. */
  lemma WindowBounds(row: Row, now: int)
    ensures InWindow(row, now) <==>
            row.waiting && row.scheduleTime < MinuteOf(now) + MINUTE && row.scheduleTime > MinuteOf(now) - MINUTE
    ensures Overdue(row, now) <==> row.waiting && row.scheduleTime <= MinuteOf(now)
    ensures InWindow(row, now) ==> -MINUTE < now - row.scheduleTime < 2 * MINUTE
    ensures row.waiting && now - MINUTE < row.scheduleTime <= now ==> InWindow(row, now)
    ensures Overdue(row, now) <==>
            row.waiting && row.scheduleTime < now + MINUTE && !InWindow(row, now + MINUTE)
  {
  }

  predicate Dispatches(rows: Rows, now: int, calls: TaskKey -> Calls, k: TaskKey) {
    k in rows && InWindow(rows[k], now) && calls(k).found && calls(k).marked
  }

  predicate Expires(rows: Rows, now: int, later: int, calls: TaskKey -> Calls, k: TaskKey) {
    k in rows && Overdue(rows[k], later - MINUTE) && !Dispatches(rows, now, calls, k)
  }

  function Scheduled(row: Row): Row {
    row.(waiting := false)
  }

  class TemporaryTaskStore {
    var rows: Rows

    constructor ()
      ensures rows == map[]
    {
      rows := map[];
    }

    /** A task whose time has already passed is refused. */
    method CreateTemporaryTask(k: TaskKey, scheduleTime: int, now: int) returns (ok: bool)
      modifies this
      ensures ok <==> now <= scheduleTime
      ensures rows == if ok then old(rows)[k := Row(scheduleTime, true)] else old(rows)
    {
      if scheduleTime < now {
        return false;
      }
      rows := rows[k := Row(scheduleTime, true)];
      return true;
    }

    /** Lists no task more than a minute early or two minutes late, and every one that came due within the
        last minute. */
    method GetNeedToSchedule(now: int) returns (list: set<TaskKey>)
      ensures forall k :: k in list <==> k in rows && InWindow(rows[k], now)
      ensures forall k :: k in list ==> -MINUTE < now - rows[k].scheduleTime < 2 * MINUTE
      ensures forall k :: k in rows && rows[k].waiting && now - MINUTE < rows[k].scheduleTime <= now ==> k in list
    {
      var truncated := MinuteOf(now);
      list := set k | k in rows && rows[k].scheduleTime < truncated + MINUTE
                      && rows[k].scheduleTime > truncated - MINUTE && rows[k].waiting;
      forall k | k in rows ensures k in list <==> InWindow(rows[k], now) {
        WindowBounds(rows[k], now);
      }
      forall k | k in rows
        ensures k in list ==> -MINUTE < now - rows[k].scheduleTime < 2 * MINUTE
        ensures rows[k].waiting && now - MINUTE < rows[k].scheduleTime <= now ==> k in list
      {
        WindowBounds(rows[k], now);
      }
    }

    /** Asked about a minute ago, lists exactly the tasks that are due by now and that the other query, asked now,
        does not list. */
    method GetExpired(at: int) returns (list: set<TaskKey>)
      ensures forall k :: k in list <==> k in rows && Overdue(rows[k], at)
      ensures forall k :: k in list <==>
                k in rows && rows[k].waiting && rows[k].scheduleTime < at + MINUTE && !InWindow(rows[k], at + MINUTE)
    {
      list := set k | k in rows && rows[k].scheduleTime <= MinuteOf(at) && rows[k].waiting;
      forall k | k in rows
        ensures k in list <==> Overdue(rows[k], at)
        ensures Overdue(rows[k], at) <==>
                rows[k].waiting && rows[k].scheduleTime < at + MINUTE && !InWindow(rows[k], at + MINUTE)
      {
        WindowBounds(rows[k], at);
      }
    }

    /** One tick. The two queries read the clock separately; the rows are walked in any order. */
    method Tick(now: int, later: int, calls: TaskKey -> Calls) returns (outcomes: set<Outcome>)
      requires now <= later
      modifies this
      ensures rows.Keys == old(rows).Keys
      ensures forall k :: k in rows ==>
                rows[k] == if Dispatches(old(rows), now, calls, k)
                              || (Expires(old(rows), now, later, calls, k) && calls(k).markedExpired)
                           then Scheduled(old(rows)[k]) else old(rows)[k]
      ensures forall o :: o in outcomes <==>
                match o
                case Dispatched(k) => Dispatches(old(rows), now, calls, k)
                case Expired(k) => Expires(old(rows), now, later, calls, k)
      ensures forall k :: k in old(rows) && old(rows)[k].waiting && now - MINUTE < old(rows)[k].scheduleTime <= now ==>
                (Dispatched(k) in outcomes <==> calls(k).found && calls(k).marked)
      ensures forall k :: Dispatched(k) in outcomes ==>
                && calls(k).found && calls(k).marked && k in old(rows)
                && -MINUTE < now - old(rows)[k].scheduleTime < 2 * MINUTE
      ensures (forall k :: k in rows ==> calls(k).found && calls(k).marked && calls(k).markedExpired) ==>
                forall k :: k in rows && rows[k].waiting ==> rows[k].scheduleTime >= MinuteOf(now) + MINUTE
    {
      ghost var before := rows;
      var dispatched := DispatchAll(now, calls);
      ghost var between := rows;
      var expired := ExpireAll(later - MINUTE, calls);
      forall k | k in before && Dispatches(before, now, calls, k)
        ensures -MINUTE < now - before[k].scheduleTime < 2 * MINUTE
      {
        WindowBounds(before[k], now);
      }
      outcomes := dispatched + expired;
      TickSweeps(before, between, rows, now, later, calls);
    }

    method DispatchAll(now: int, calls: TaskKey -> Calls) returns (outcomes: set<Outcome>)
      modifies this
      ensures rows.Keys == old(rows).Keys
      ensures forall k :: k in rows ==>
                rows[k] == if Dispatches(old(rows), now, calls, k) then Scheduled(old(rows)[k]) else old(rows)[k]
      ensures forall o :: o in outcomes <==> o.Dispatched? && Dispatches(old(rows), now, calls, o.key)
    {
      ghost var before := rows;
      var list := GetNeedToSchedule(now);
      outcomes := {};
      ghost var seen: set<TaskKey> := {};
      while list != {}
        invariant seen + list == (set k | k in before && InWindow(before[k], now)) && seen !! list
        invariant rows.Keys == before.Keys
        invariant forall k :: k in rows ==>
                    rows[k] ==
                    if k in seen && Dispatches(before, now, calls, k) then Scheduled(before[k]) else before[k]
        invariant forall o :: o in outcomes <==> o.Dispatched? && o.key in seen && Dispatches(before, now, calls, o.key)
        decreases list
      {
        var k :| k in list;
        list := list - {k};
        seen := seen + {k};
        if calls(k).found && calls(k).marked {
          rows := rows[k := rows[k].(waiting := false)];
          outcomes := outcomes + {Dispatched(k)};
        }
      }
    }

    /** A task is reported as failed whether or not marking it succeeds. */
    method ExpireAll(at: int, calls: TaskKey -> Calls) returns (outcomes: set<Outcome>)
      modifies this
      ensures rows.Keys == old(rows).Keys
      ensures forall k :: k in rows ==>
                rows[k] == if Overdue(old(rows)[k], at) && calls(k).markedExpired
                           then Scheduled(old(rows)[k]) else old(rows)[k]
      ensures forall o :: o in outcomes <==> o.Expired? && o.key in old(rows) && Overdue(old(rows)[o.key], at)
    {
      ghost var before := rows;
      var list := GetExpired(at);
      outcomes := {};
      ghost var seen: set<TaskKey> := {};
      while list != {}
        invariant seen + list == (set k | k in before && Overdue(before[k], at)) && seen !! list
        invariant rows.Keys == before.Keys
        invariant forall k :: k in rows ==>
                    rows[k] == if k in seen && calls(k).markedExpired then Scheduled(before[k]) else before[k]
        invariant forall o :: o in outcomes <==> o.Expired? && o.key in seen
        decreases list
      {
        var k :| k in list;
        list := list - {k};
        seen := seen + {k};
        if calls(k).markedExpired {
          rows := rows[k := rows[k].(waiting := false)];
        }
        outcomes := outcomes + {Expired(k)};
      }
    }
  }

  lemma MinutesOrdered(now: int, later: int)
    requires now <= later
    ensures MinuteOf(now) - MINUTE <= MinuteOf(later - MINUTE)
  {
  }

  /** The window and the overdue rule leave no gap below the end of the current minute. */
  lemma TickSweeps(before: Rows, between: Rows, after: Rows, now: int, later: int, calls: TaskKey -> Calls)
    requires now <= later
    requires between.Keys == before.Keys && after.Keys == before.Keys
    requires forall k :: k in before ==>
               between[k] == if Dispatches(before, now, calls, k) then Scheduled(before[k]) else before[k]
    requires forall k :: k in before ==>
               after[k] == if Overdue(between[k], later - MINUTE) && calls(k).markedExpired
                           then Scheduled(between[k]) else between[k]
    ensures (forall k :: k in before ==> calls(k).found && calls(k).marked && calls(k).markedExpired) ==>
              forall k :: k in after && after[k].waiting ==> after[k].scheduleTime >= MinuteOf(now) + MINUTE
  {
    forall k | k in before
      ensures InWindow(before[k], now) || !before[k].waiting || Overdue(before[k], later - MINUTE)
              || before[k].scheduleTime >= MinuteOf(now) + MINUTE
    {
      WindowBounds(before[k], now);
      WindowBounds(before[k], later - MINUTE);
      MinutesOrdered(now, later);
    }
  }

  // ----- every run -----

  datatype Event =
    | Create(key: TaskKey, scheduleTime: int)
    | Delete(key: TaskKey)
    | Clock(now: int, later: int, calls: TaskKey -> Calls)

  /** The rows, every outcome with the number of the tick it came from, and the last clock reading of a tick. */
  datatype World = World(rows: Rows, outcomes: set<(Outcome, nat)>, ticks: nat, clock: int)

  function Outcomes(rows: Rows, now: int, later: int, calls: TaskKey -> Calls): set<Outcome> {
    (set k | k in rows && Dispatches(rows, now, calls, k) :: Dispatched(k)) +
    set k | k in rows && Expires(rows, now, later, calls, k) :: Expired(k)
  }

  function Step(w: World, e: Event): World {
    match e
    case Create(k, scheduleTime) => w.(rows := w.rows[k := Row(scheduleTime, true)])
    case Delete(k) => w.(rows := w.rows - {k})
    case Clock(now, later, calls) =>
      World(
        map k | k in w.rows ::
          if Dispatches(w.rows, now, calls, k) || (Expires(w.rows, now, later, calls, k) && calls(k).markedExpired)
          then Scheduled(w.rows[k]) else w.rows[k],
        w.outcomes + (set o | o in Outcomes(w.rows, now, later, calls) :: (o, w.ticks)),
        w.ticks + 1, later)
  }

  function Run(w: World, events: seq<Event>): World
    decreases |events|
  {
    if events == [] then w else Run(Step(w, events[0]), events[1..])
  }

  /** Keys are generated anew for every task. */
  predicate NewKey(w: World, k: TaskKey) {
    k !in w.rows && forall o :: o in w.outcomes ==> o.0.key != k
  }

  /** No task has two outcomes. */
  ghost predicate AtMostOnce(w: World) {
    forall o, p :: o in w.outcomes && p in w.outcomes && o.0.key == p.0.key ==> o == p
  }

  ghost predicate TicksBefore(w: World) {
    forall o :: o in w.outcomes ==> o.1 < w.ticks
  }

  ghost predicate Reported(w: World, k: TaskKey) {
    exists o :: o in w.outcomes && o.0.key == k
  }

  ghost predicate Reports(w: World, e: Event, k: TaskKey) {
    e.Clock? && (Dispatches(w.rows, e.now, e.calls, k) || Expires(w.rows, e.now, e.later, e.calls, k))
  }

  /** A step loses "at most one outcome per task" exactly by reporting a task that has been reported before. */
  lemma StepKeepsAtMostOnceIff(w: World, e: Event)
    requires AtMostOnce(w) && TicksBefore(w)
    ensures TicksBefore(Step(w, e))
    ensures AtMostOnce(Step(w, e)) <==> !exists k :: Reported(w, k) && Reports(w, e, k)
  {
    var next := Step(w, e);
    if k :| Reported(w, k) && Reports(w, e, k) {
      var o :| o in w.outcomes && o.0.key == k;
      var again := if Dispatches(w.rows, e.now, e.calls, k) then Dispatched(k) else Expired(k);
      assert again in Outcomes(w.rows, e.now, e.later, e.calls);
      assert (again, w.ticks) in next.outcomes && o in next.outcomes && o != (again, w.ticks);
    } else {
      forall o, p | o in next.outcomes && p in next.outcomes && o.0.key == p.0.key ensures o == p {
        assert o !in w.outcomes ==> Reports(w, e, o.0.key);
        assert p !in w.outcomes ==> Reports(w, e, p.0.key);
        assert o in w.outcomes ==> Reported(w, o.0.key);
        assert p in w.outcomes ==> Reported(w, p.0.key);
      }
    }
  }

  /** Moreover, no task that has been reported still waits to be. */
  ghost predicate Settles(w: World) {
    AtMostOnce(w) && forall o :: o in w.outcomes && o.0.key in w.rows ==> !w.rows[o.0.key].waiting
  }

  /** Every task that expires in the tick can be marked. */
  ghost predicate MarksExpired(rows: Rows, e: Event)
    requires e.Clock?
  {
    forall k :: Expires(rows, e.now, e.later, e.calls, k) ==> e.calls(k).markedExpired
  }

  ghost predicate StepMarks(w: World, e: Event) {
    (e.Create? ==> NewKey(w, e.key)) && (e.Clock? ==> MarksExpired(w.rows, e))
  }

  /** New keys for new tasks, and ticks that mark whatever expires in them. */
  ghost predicate Marking(w: World, events: seq<Event>)
    decreases |events|
  {
    events == [] || (StepMarks(w, events[0]) && Marking(Step(w, events[0]), events[1..]))
  }

  predicate ClockRunsOn(clock: int, events: seq<Event>)
    decreases |events|
  {
    events == [] ||
    if events[0].Clock? then clock <= events[0].now <= events[0].later && ClockRunsOn(events[0].later, events[1..])
    else ClockRunsOn(clock, events[1..])
  }

  lemma StepSettles(w: World, e: Event)
    requires Settles(w) && StepMarks(w, e)
    ensures Settles(Step(w, e))
  {
    var next := Step(w, e);
    if e.Clock? {
      forall o | o in next.outcomes && o !in w.outcomes
        ensures o.1 == w.ticks && Reports(w, e, o.0.key) && w.rows[o.0.key].waiting && !next.rows[o.0.key].waiting
      {
        assert o.0 in Outcomes(w.rows, e.now, e.later, e.calls);
      }
    }
  }

  /** At most one outcome per task, whatever the spacing of the ticks, if the tasks that expire can be marked. */
  lemma {:induction false} EachTaskEndsOnce(w: World, events: seq<Event>)
    requires Settles(w) && Marking(w, events)
    ensures Settles(Run(w, events))
    decreases |events|
  {
    if events != [] {
      StepSettles(w, events[0]);
      EachTaskEndsOnce(Step(w, events[0]), events[1..]);
    }
  }

  /** Whatever happens from here on, with a clock that does not run back and all later markings successful, no task
      gets two outcomes. */
  ghost predicate Safe(w: World) {
    forall events :: Marking(w, events) && ClockRunsOn(w.clock, events) ==> AtMostOnce(Run(w, events))
  }

  const ALL_WELL: TaskKey -> Calls := _ => Calls(true, true, true)

  /** A reported task that still waits is overdue sooner or later, and is then reported again. */
  lemma WaitingIsReported(w: World, k: TaskKey) returns (e: Event)
    requires k in w.rows && w.rows[k].waiting
    ensures StepMarks(w, e) && ClockRunsOn(w.clock, [e]) && Reports(w, e, k)
  {
    var due := w.rows[k].scheduleTime + 2 * MINUTE;
    var t := if w.clock < due then due else w.clock;
    e := Clock(t, t, ALL_WELL);
    WindowBounds(w.rows[k], t - MINUTE);
  }

  lemma SafeIffSettles(w: World)
    requires TicksBefore(w)
    ensures Safe(w) <==> Settles(w)
  {
    if Settles(w) {
      forall events | Marking(w, events) ensures AtMostOnce(Run(w, events)) {
        EachTaskEndsOnce(w, events);
      }
    } else if AtMostOnce(w) {
      var o :| o in w.outcomes && o.0.key in w.rows && w.rows[o.0.key].waiting;
      var e := WaitingIsReported(w, o.0.key);
      StepKeepsAtMostOnceIff(w, e);
      assert Reported(w, o.0.key);
      assert [e][1..] == [] && Run(w, [e]) == Run(Step(w, e), []);
      assert Marking(w, [e]) && !AtMostOnce(Run(w, [e]));
    } else {
      assert Marking(w, []) && Run(w, []) == w;
    }
  }

  /** A tick endangers "at most one outcome per task" exactly by reporting a task that it fails to mark: if it marks
      everything it expires, no continuation reports a task twice; if it does not, some continuation does, although
      all later markings succeed. */
  lemma TickIsSafeIff(w: World, e: Event)
    requires Settles(w) && TicksBefore(w) && e.Clock?
    ensures Safe(Step(w, e)) <==> MarksExpired(w.rows, e)
  {
    var next := Step(w, e);
    StepSettlesIff(w, e);
    assert TicksBefore(next);
    SafeIffSettles(next);
  }

  /** A step leaves a reported task waiting exactly by failing to mark one it reports as expired. */
  lemma StepSettlesIff(w: World, e: Event)
    requires Settles(w)
    requires e.Create? ==> NewKey(w, e.key)
    ensures Settles(Step(w, e)) <==> (e.Clock? ==> MarksExpired(w.rows, e))
  {
    var next := Step(w, e);
    if e.Clock? ==> MarksExpired(w.rows, e) {
      StepSettles(w, e);
    } else {
      var k :| Expires(w.rows, e.now, e.later, e.calls, k) && !e.calls(k).markedExpired;
      assert Expired(k) in Outcomes(w.rows, e.now, e.later, e.calls);
      assert (Expired(k), w.ticks) in next.outcomes && next.rows[k].waiting;
    }
  }

  /** The next tick of a clock that does not run back reports such a task again, whatever succeeds then. */
  lemma UnmarkedIsReportedAgain(w: World, e: Event, f: Event, k: TaskKey)
    requires e.Clock? && f.Clock? && e.later <= f.later
    requires Expires(w.rows, e.now, e.later, e.calls, k) && !e.calls(k).markedExpired
    ensures !AtMostOnce(Step(Step(w, e), f))
  {
    var next := Step(w, e);
    var last := Step(next, f);
    assert Expired(k) in Outcomes(w.rows, e.now, e.later, e.calls);
    assert (Expired(k), w.ticks) in last.outcomes;
    OverdueStays(w.rows[k], e.later - MINUTE, f.later - MINUTE);
    assert next.rows[k] == w.rows[k] && Reports(next, f, k);
    var again := if Dispatches(next.rows, f.now, f.calls, k) then Dispatched(k) else Expired(k);
    assert again in Outcomes(next.rows, f.now, f.later, f.calls);
    assert (again, w.ticks + 1) in last.outcomes;
  }

  lemma OverdueStays(row: Row, at: int, later: int)
    requires Overdue(row, at) && at <= later
    ensures Overdue(row, later)
  {
    WindowBounds(row, at);
    WindowBounds(row, later);
    MinutesOrdered(at, later);
  }

  const START := World(map[], {}, 0, 0)

  /** Two ticks, a minute apart, report one task, because the first cannot mark it. */
  lemma DoubleReport(k: TaskKey)
    ensures var last := Run(START, [Create(k, 0), Clock(180, 180, _ => Calls(true, true, false)),
                                    Clock(240, 240, ALL_WELL)]);
            last.outcomes == {(Expired(k), 0), (Expired(k), 1)} && !AtMostOnce(last)
  {
    var e, f := Clock(180, 180, _ => Calls(true, true, false)), Clock(240, 240, ALL_WELL);
    var w := Step(START, Create(k, 0));
    assert w.rows == map[k := Row(0, true)];
    assert Outcomes(w.rows, 180, 180, e.calls) == {Expired(k)};
    var next := Step(w, e);
    assert next == World(map[k := Row(0, true)], {(Expired(k), 0)}, 1, 180);
    assert Outcomes(next.rows, 240, 240, f.calls) == {Expired(k)};
    UnmarkedIsReportedAgain(w, e, f, k);
    var last := Step(next, f);
    assert last.outcomes == {(Expired(k), 0), (Expired(k), 1)};
    var events := [Create(k, 0), e, f];
    assert events[1..] == [e, f] && [e, f][1..] == [f] && [f][1..] == [];
    assert Run(START, events) == Run(w, [e, f]) == Run(next, [f]) == Run(last, []);
  }
}
