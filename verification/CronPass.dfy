/** The agent's cron table: plans are saved and removed under a scheduler key, and a pass over the table
    starts what is due and moves it to its next time (agent/scheduler.go, common/protocol.go). */
module CronPass {
  import opened Basics

  /** The zero time, which the pass takes for "no time seen yet" and the cron library returns for "never". */
  const ZERO_TIME: int := -62135596800

  /** A parsed cron expression: the next time after a given one. */
  type Cron = int -> int

  /** `enabled` is the stored task status being "start". */
  datatype Plan = Plan(planTime: int, cron: Cron, enabled: bool)

  type Table = map<string, Plan>

  datatype Start = Start(key: string, planTime: int)

  predicate Due(plan: Plan, now: int) {
    plan.planTime <= now
  }

  function Advanced(plan: Plan, now: int): Plan {
    if Due(plan, now) then plan.(planTime := plan.cron(now)) else plan
  }

  /** What the pass starts, given that the agent takes work at all. */
  predicate Starts(table: Table, now: int, working: bool, s: Start) {
    && s.key in table && s.planTime == table[s.key].planTime
    && Due(table[s.key], now) && table[s.key].enabled && working
  }

  /** Every due plan has a next time. */
  predicate NextTimesExist(table: Table, now: int) {
    forall k :: k in table && Due(table[k], now) ==> table[k].cron(now) > now
  }

  class TaskScheduler {
    var planTable: Table

    constructor ()
      ensures planTable == map[]
    {
      planTable := map[];
    }

    /** Saving a task puts a new plan in the table, or takes it out if the task is not to run; `cron` is None for an
        expression that does not parse, which leaves the old plan in place. */
    method SaveTask(key: string, cron: Option<Cron>, enabled: bool, now: int)
      modifies this
      ensures enabled && cron.Some? ==> planTable == old(planTable)[key := Plan(cron.value(now), cron.value, true)]
      ensures enabled && cron.None? ==> planTable == old(planTable)
      ensures !enabled ==> planTable == old(planTable) - {key}
      ensures planTable == Step(World(old(planTable), now, {}, 0), Save(key, cron, enabled), now).table
    {
      if enabled {
        if cron.None? {
          return;
        }
        planTable := planTable[key := Plan(cron.value(now), cron.value, true)];
        return;
      }
      RemovePlan(key);
    }

    method RemovePlan(key: string)
      modifies this
      ensures planTable == old(planTable) - {key}
      ensures forall now :: planTable == Step(World(old(planTable), now, {}, 0), Remove(key), now).table
    {
      planTable := planTable - {key};
    }

    /** What the pass does with one plan. */
    method Visit(key: string, now: int, weight: int, started: seq<Start>) returns (more: seq<Start>)
      requires key in planTable
      modifies this
      ensures planTable == old(planTable)[key := Advanced(old(planTable)[key], now)]
      ensures more ==
              if Starts(old(planTable), now, weight > 0, Start(key, old(planTable)[key].planTime))
              then started + [Start(key, old(planTable)[key].planTime)] else started
    {
      more := started;
      var plan := planTable[key];
      if plan.planTime < now || plan.planTime == now {
        if weight > 0 && plan.enabled {
          more := started + [Start(key, plan.planTime)];
        }
        plan := plan.(planTime := plan.cron(now));
      }
      planTable := planTable[key := plan];
    }

    /** One pass; a second is returned for an empty table. The plans are visited in any order. */
    method TrySchedule(now: int, weight: int, second: int) returns (after: int, started: seq<Start>)
      modifies this
      ensures planTable.Keys == old(planTable).Keys
      ensures forall k :: k in planTable ==> planTable[k] == Advanced(old(planTable)[k], now)
      ensures Distinct(started)
      ensures forall s :: s in started <==> Starts(old(planTable), now, weight > 0, s)
      ensures weight <= 0 ==> started == []
      ensures weight > 0 ==> forall k :: k in old(planTable) ==>
                (Start(k, old(planTable)[k].planTime) in started <==>
                 old(planTable)[k].enabled && old(planTable)[k].planTime <= now)
      ensures forall s :: s in started ==> s.key in old(planTable) && s.planTime == old(planTable)[s.key].planTime
      ensures forall k :: k in planTable && planTable[k].planTime != old(planTable)[k].planTime ==>
                && old(planTable)[k].planTime <= now && planTable[k].planTime == old(planTable)[k].cron(now)
                && (weight > 0 && old(planTable)[k].enabled ==> Start(k, old(planTable)[k].planTime) in started)
      ensures var next := Step(World(old(planTable), now, {}, 0), Pass(weight > 0), now);
              planTable == next.table && next.starts == set s | s in started :: (s, 0)
      ensures (forall k :: k in planTable ==> planTable[k].planTime > now) <==> NextTimesExist(old(planTable), now)
      ensures planTable == map[] ==> after == second
      ensures planTable != map[] && NextTimesExist(old(planTable), now) && now >= ZERO_TIME ==>
                && after > 0
                && (forall k :: k in planTable ==> after <= planTable[k].planTime - now)
                && exists k :: k in planTable && after == planTable[k].planTime - now
    {
      ghost var before := planTable;
      if |planTable| == 0 {
        assert planTable == map[];
        PassIsStep(before, planTable, [], now, weight > 0);
        return second, [];
      }
      SomeKey(before);
      var nearTime;
      nearTime, started := PlanRange(now, weight);
      PassedAll(before, planTable, now);
      PassIsStep(before, planTable, started, now, weight > 0);
      assert started != [] ==> started[0] in started;
      after := nearTime - now;
    }

    /** The walk over the table, in any order. */
    method PlanRange(now: int, weight: int) returns (nearTime: int, started: seq<Start>)
      modifies this
      ensures Visited(old(planTable), old(planTable).Keys, now, weight > 0, planTable, started)
      ensures Nearest(old(planTable), old(planTable).Keys, now, nearTime)
    {
      started, nearTime := [], ZERO_TIME;
      var todo := planTable.Keys;
      ghost var before, seen: set<string> := planTable, {};
      while todo != {}
        invariant seen + todo == before.Keys && seen !! todo
        invariant Visited(before, seen, now, weight > 0, planTable, started)
        invariant Nearest(before, seen, now, nearTime)
        decreases todo
      {
        var key :| key in todo;
        todo := todo - {key};
        VisitKey(before, seen, key, now, weight > 0, planTable, started);
        NearestMoves(before, seen, key, now, nearTime);
        started := Visit(key, now, weight, started);
        seen := seen + {key};
        if nearTime == ZERO_TIME || planTable[key].planTime < nearTime {
          nearTime := planTable[key].planTime;
        }
      }
      assert seen == before.Keys;
    }
  }

  /** The keys of `seen` have been visited: their due plans moved on and, if they are to run, started. */
  ghost predicate Visited(before: Table, seen: set<string>, now: int, working: bool, table: Table,
                          started: seq<Start>)
  {
    && table.Keys == before.Keys
    && (forall k :: k in before ==> table[k] == if k in seen then Advanced(before[k], now) else before[k])
    && Distinct(started)
    && forall s :: s in started <==> s.key in seen && Starts(before, now, working, s)
  }

  lemma VisitKey(before: Table, seen: set<string>, key: string, now: int, working: bool, table: Table,
                 started: seq<Start>)
    requires Visited(before, seen, now, working, table, started) && key in before && key !in seen
    ensures table[key] == before[key]
    ensures var plan := before[key];
            Visited(before, seen + {key}, now, working, table[key := Advanced(plan, now)],
                    if Starts(table, now, working, Start(key, plan.planTime))
                    then started + [Start(key, plan.planTime)] else started)
  {
  }

  /** The pass is the step of the runs below. */
  lemma PassIsStep(before: Table, table: Table, started: seq<Start>, now: int, working: bool)
    requires Visited(before, before.Keys, now, working, table, started)
    ensures var next := Step(World(before, now, {}, 0), Pass(working), now);
            table == next.table && next.starts == set s | s in started :: (s, 0)
  {
    var next := Step(World(before, now, {}, 0), Pass(working), now);
    forall s | s in started ensures (s, 0) in next.starts {
      assert Starts(before, now, working, s) && s == Start(s.key, before[s.key].planTime);
    }
    forall s | s in next.starts ensures s.1 == 0 && s.0 in started {
      assert Starts(before, now, working, s.0);
    }
  }

  lemma PassedAll(before: Table, table: Table, now: int)
    requires table.Keys == before.Keys && forall k :: k in before ==> table[k] == Advanced(before[k], now)
    ensures (forall k :: k in table ==> table[k].planTime > now) <==> NextTimesExist(before, now)
  {
    if forall k :: k in table ==> table[k].planTime > now {
      forall k | k in before && Due(before[k], now) ensures before[k].cron(now) > now {
        assert table[k].planTime > now;
      }
    }
  }

  /** While next times exist, `near` is the least plan time seen so far. */
  ghost predicate Nearest(before: Table, seen: set<string>, now: int, near: int) {
    now >= ZERO_TIME && NextTimesExist(before, now) && seen <= before.Keys ==>
      if seen == {} then near == ZERO_TIME
      else near > now && (forall k :: k in seen ==> near <= Advanced(before[k], now).planTime)
           && exists k :: k in seen && near == Advanced(before[k], now).planTime
  }

  lemma NearestMoves(before: Table, seen: set<string>, key: string, now: int, near: int)
    requires Nearest(before, seen, now, near) && key in before && key !in seen
    ensures var time := Advanced(before[key], now).planTime;
            Nearest(before, seen + {key}, now, if near == ZERO_TIME || time < near then time else near)
  {
    var time := Advanced(before[key], now).planTime;
    if now >= ZERO_TIME && NextTimesExist(before, now) && seen <= before.Keys {
      assert time > now;
      assert key in seen + {key};
      if seen != {} && !(near == ZERO_TIME || time < near) {
        var k :| k in seen && near == Advanced(before[k], now).planTime;
        assert k in seen + {key};
      }
    }
  }

  lemma SomeKey(table: Table)
    requires |table| > 0
    ensures table.Keys != {}
  {
    assert |table.Keys| == |table|;
  }

  // ----- every run -----

  datatype Event = Save(key: string, cron: Option<Cron>, enabled: bool) | Remove(key: string) | Pass(working: bool)

  /** The table, the last clock reading, and every start so far with the pass it belongs to. */
  datatype World = World(table: Table, clock: int, starts: set<(Start, int)>, passes: nat)

  function Step(w: World, e: Event, now: int): World {
    match e
    case Save(key, cron, enabled) =>
      w.(clock := now,
         table := if !enabled then w.table - {key}
                  else if cron.None? then w.table
                  else w.table[key := Plan(cron.value(now), cron.value, true)])
    case Remove(key) => w.(clock := now, table := w.table - {key})
    case Pass(working) =>
      World(map k | k in w.table :: Advanced(w.table[k], now), now,
            w.starts + (set k | k in w.table && Due(w.table[k], now) && w.table[k].enabled && working
                          :: (Start(k, w.table[k].planTime), w.passes)),
            w.passes + 1)
  }

  ghost predicate ProperCron(cron: Cron) {
    forall n :: cron(n) > n
  }

  /** Starts under one key are ordered like the passes that made them, and everything still in the table under
      that key is later than all of them. */
  ghost predicate Good(w: World) {
    && (forall s :: s in w.starts ==> s.0.planTime <= w.clock && s.1 < w.passes)
    && (forall s, t :: s in w.starts && t in w.starts && s.0.key == t.0.key && s.1 < t.1 ==>
          s.0.planTime < t.0.planTime)
    && (forall s, t :: s in w.starts && t in w.starts && s.0.key == t.0.key && s.1 == t.1 ==> s == t)
    && (forall s :: s in w.starts && s.0.key in w.table ==> s.0.planTime < w.table[s.0.key].planTime)
    && (forall k :: k in w.table ==> ProperCron(w.table[k].cron))
  }

  lemma StepKeepsGood(w: World, e: Event, now: int)
    requires Good(w) && w.clock <= now
    requires e.Save? && e.cron.Some? ==> ProperCron(e.cron.value)
    ensures Good(Step(w, e, now)) && Step(w, e, now).clock == now
  {
    var next := Step(w, e, now);
    if e.Pass? {
      forall s | s in next.starts && s !in w.starts
        ensures s.1 == w.passes && s.0.key in w.table && s.0.planTime == w.table[s.0.key].planTime <= now
      {
      }
      forall s | s in next.starts && s.0.key in next.table
        ensures s.0.planTime < next.table[s.0.key].planTime
      {
        assert ProperCron(w.table[s.0.key].cron);
        assert w.table[s.0.key].cron(now) > now;
      }
    }
  }

  function Run(w: World, events: seq<(Event, int)>): World {
    if events == [] then w
    else Step(Run(w, events[..|events| - 1]), events[|events| - 1].0, events[|events| - 1].1)
  }

  /** With a clock that never runs back and expressions that always have a next time, no plan time is started
      twice under one key: later passes start strictly later times, re-saved plans included. */
  lemma {:induction false} StartsStrictlyIncrease(events: seq<(Event, int)>, origin: int)
    requires forall i :: 0 <= i < |events| ==> origin <= events[i].1
    requires forall i, j :: 0 <= i < j < |events| ==> events[i].1 <= events[j].1
    requires forall i :: 0 <= i < |events| && events[i].0.Save? && events[i].0.cron.Some? ==>
               ProperCron(events[i].0.cron.value)
    ensures var w := Run(World(map[], origin, {}, 0), events);
            && Good(w) && w.clock == (if events == [] then origin else events[|events| - 1].1)
            && (forall s, t :: s in w.starts && t in w.starts && s.0.key == t.0.key && s.1 < t.1 ==>
                  s.0.planTime < t.0.planTime)
            && (forall s, t :: s in w.starts && t in w.starts && s.0.key == t.0.key && s.1 == t.1 ==> s == t)
            && (forall s :: s in w.starts && s.0.key in w.table ==> s.0.planTime < w.table[s.0.key].planTime)
  {
    if events != [] {
      var n := |events| - 1;
      StartsStrictlyIncrease(events[..n], origin);
      StepKeepsGood(Run(World(map[], origin, {}, 0), events[..n]), events[n].0, events[n].1);
    }
  }

  // ----- expressions without a next time -----

  ghost predicate StartedIn(w: World, key: string, pass: nat) {
    exists time :: (Start(key, time), pass) in w.starts
  }

  /** From `origin` on the expression has no next time; the cron library then returns the zero time. */
  ghost predicate Spent(cron: Cron, origin: int) {
    forall n :: origin <= n ==> cron(n) <= n
  }

  ghost predicate SpentAndDue(w: World, key: string, origin: int) {
    && key in w.table && w.table[key].enabled && Spent(w.table[key].cron, origin)
    && Due(w.table[key], w.clock) && origin <= w.clock
  }

  predicate Touches(e: Event, key: string) {
    !e.Pass? && e.key == key
  }

  lemma SpentStep(w: World, e: Event, now: int, key: string, origin: int)
    requires SpentAndDue(w, key, origin) && w.clock <= now && !Touches(e, key)
    ensures SpentAndDue(Step(w, e, now), key, origin)
    ensures e == Pass(true) ==> StartedIn(Step(w, e, now), key, w.passes)
  {
    var next := Step(w, e, now);
    if e.Pass? {
      assert w.table[key].cron(now) <= now;
      assert next.table[key] == Advanced(w.table[key], now);
      if e.working {
        assert (Start(key, w.table[key].planTime), w.passes) in next.starts;
      }
    }
  }

  lemma StartsStay(w: World, e: Event, now: int, key: string, pass: nat)
    requires StartedIn(w, key, pass)
    ensures StartedIn(Step(w, e, now), key, pass)
  {
    var time :| (Start(key, time), pass) in w.starts;
    assert (Start(key, time), pass) in Step(w, e, now).starts;
  }

  /** Once the plan of an expression without a next time is due, it stays due for good, and every later pass of a
      working agent starts it again, until the plan is saved anew or removed. */
  lemma {:induction false} SpentCronStaysDue(w: World, events: seq<(Event, int)>, key: string, origin: int)
    requires SpentAndDue(w, key, origin)
    requires forall i :: 0 <= i < |events| ==> w.clock <= events[i].1 && !Touches(events[i].0, key)
    requires forall i, j :: 0 <= i < j < |events| ==> events[i].1 <= events[j].1
    ensures var last := Run(w, events);
            && SpentAndDue(last, key, origin)
            && last.clock == (if events == [] then w.clock else events[|events| - 1].1)
            && forall i :: 0 <= i < |events| && events[i].0 == Pass(true) ==>
                 StartedIn(last, key, Run(w, events[..i]).passes)
  {
    if events != [] {
      var n := |events| - 1;
      var front, before := events[..n], Run(w, events[..n]);
      SpentCronStaysDue(w, front, key, origin);
      SpentStep(before, events[n].0, events[n].1, key, origin);
      forall i | 0 <= i < |events| && events[i].0 == Pass(true)
        ensures StartedIn(Run(w, events), key, Run(w, events[..i]).passes)
      {
        if i < n {
          assert front[..i] == events[..i] && front[i] == events[i];
          StartsStay(before, events[n].0, events[n].1, key, Run(w, events[..i]).passes);
        }
      }
    }
  }
}
