/** The dependency graph of a workflow plan: each listed task with the tasks it waits for. */
module DependencyGraph {
  import opened Basics

  type Flow = map<Task, seq<Task>>

  /** `t` waits for `d`; an entry with the empty id is a placeholder and waits for nothing. */
  predicate DependsOn(flow: Flow, t: Task, d: Task) {
    t in flow && d in flow[t] && d.id != ""
  }

  function Mentioned(flow: Flow): set<Task> {
    flow.Keys + set t, d | t in flow && d in flow[t] :: d
  }

  ghost predicate Path(flow: Flow, p: seq<Task>) {
    p != [] && forall i :: 0 <= i < |p| - 1 ==> DependsOn(flow, p[i], p[i + 1])
  }

  /** A dependency path that returns to its own start. */
  ghost predicate Cycle(flow: Flow, p: seq<Task>) {
    |p| >= 2 && Path(flow, p) && p[|p| - 1] == p[0]
  }

  /** Following dependencies from `t` runs into a cycle. */
  ghost predicate ReachesCycle(flow: Flow, t: Task) {
    exists p, c :: Path(flow, p) && Cycle(flow, c) && p[0] == t && p[|p| - 1] == c[0]
  }

  /** Following dependencies from `t` leaves the plan. */
  ghost predicate ReachesUnlisted(flow: Flow, t: Task) {
    exists p :: Path(flow, p) && p[0] == t && p[|p| - 1] !in flow
  }

  ghost predicate Blocked(flow: Flow, t: Task) {
    ReachesCycle(flow, t) || ReachesUnlisted(flow, t)
  }

  ghost predicate Acyclic(flow: Flow) {
    forall p :: !Cycle(flow, p)
  }

  ghost predicate AllListed(flow: Flow) {
    forall t, d :: DependsOn(flow, t, d) ==> d in flow
  }

  /** Every listed member of the set waits for another member: nothing in it can be the first to finish. */
  ghost predicate Stuck(flow: Flow, s: set<Task>) {
    forall t :: t in s && t in flow ==> exists d :: d in s && DependsOn(flow, t, d)
  }

  lemma PathIsStuck(flow: Flow, p: seq<Task>, rest: set<Task>)
    requires Path(flow, p)
    requires Stuck(flow, rest)
    requires p[|p| - 1] in rest
    ensures Stuck(flow, rest + set t | t in p)
  {
    var all := rest + set t | t in p;
    forall t | t in all && t in flow ensures exists d :: d in all && DependsOn(flow, t, d) {
      if t in rest {
        var d :| d in rest && DependsOn(flow, t, d);
        assert d in all;
      } else {
        var i :| 0 <= i < |p| && p[i] == t;
        assert i < |p| - 1;
        assert p[i + 1] in all && DependsOn(flow, p[i], p[i + 1]);
      }
    }
  }

  lemma CycleIsStuck(flow: Flow, c: seq<Task>)
    requires Cycle(flow, c)
    ensures Stuck(flow, set t | t in c)
  {
    var all := set t | t in c;
    forall t | t in all && t in flow ensures exists d :: d in all && DependsOn(flow, t, d) {
      var i :| 0 <= i < |c| && c[i] == t;
      var j := if i < |c| - 1 then i else 0;
      assert c[j] == t && DependsOn(flow, c[j], c[j + 1]) && c[j + 1] in all;
    }
  }

  lemma BlockedIsStuck(flow: Flow, t: Task) returns (s: set<Task>)
    requires Blocked(flow, t)
    ensures t in s && Stuck(flow, s)
  {
    if ReachesCycle(flow, t) {
      var p, c :| Path(flow, p) && Cycle(flow, c) && p[0] == t && p[|p| - 1] == c[0];
      CycleIsStuck(flow, c);
      assert c[0] in c;
      PathIsStuck(flow, p, set x | x in c);
      s := (set x | x in c) + set x | x in p;
    } else {
      var p :| Path(flow, p) && p[0] == t && p[|p| - 1] !in flow;
      PathIsStuck(flow, p, {p[|p| - 1]});
      s := {p[|p| - 1]} + set x | x in p;
    }
    assert t in s;
  }

  /** Walk inside a stuck set until the walk leaves the plan or meets itself; the set is finite, so it must. */
  lemma {:induction false} WalkInStuckSet(flow: Flow, s: set<Task>, p: seq<Task>)
    requires Stuck(flow, s)
    requires Path(flow, p) && Distinct(p)
    requires forall x :: x in p ==> x in s
    ensures Blocked(flow, p[0])
    decreases |s| - |p|
  {
    DistinctFits(p, s);
    var last := p[|p| - 1];
    assert last in s;
    if last in flow {
      var d :| d in s && DependsOn(flow, last, d);
      var q := p + [d];
      assert Path(flow, q);
      if d in p {
        var i :| 0 <= i < |p| && p[i] == d;
        var c := q[i..];
        assert Cycle(flow, c);
        assert Path(flow, p[..i + 1]);
        assert p[..i + 1][0] == p[0] && p[..i + 1][i] == c[0];
      } else {
        DistinctFits(q, s);
        WalkInStuckSet(flow, s, q);
        assert q[0] == p[0];
      }
    }
  }

  /** A task waits forever exactly when it lies in some stuck set. */
  lemma BlockedIffStuck(flow: Flow, t: Task)
    ensures Blocked(flow, t) <==> exists s :: t in s && Stuck(flow, s)
  {
    if Blocked(flow, t) {
      var s := BlockedIsStuck(flow, t);
    }
    if exists s :: t in s && Stuck(flow, s) {
      var s :| t in s && Stuck(flow, s);
      WalkInStuckSet(flow, s, [t]);
    }
  }

  /** No listed task is blocked exactly when the plan has no cycle and names no unlisted dependency. */
  lemma NothingBlockedIff(flow: Flow)
    ensures (forall t :: t in flow ==> !Blocked(flow, t)) <==> Acyclic(flow) && AllListed(flow)
  {
    if Acyclic(flow) && AllListed(flow) {
      forall t | t in flow ensures !Blocked(flow, t) {
        forall p | Path(flow, p) && p[0] == t ensures p[|p| - 1] in flow {
          if |p| > 1 {
            assert DependsOn(flow, p[|p| - 2], p[|p| - 2 + 1]);
          }
        }
      }
    }
    if !Acyclic(flow) {
      var c :| Cycle(flow, c);
      assert DependsOn(flow, c[0], c[0 + 1]);
      assert Path(flow, [c[0]]) && [c[0]][0] == c[0];
      assert Blocked(flow, c[0]) && c[0] in flow;
    }
    if !AllListed(flow) {
      var t, d :| DependsOn(flow, t, d) && d !in flow;
      var p := [t, d];
      assert Path(flow, p) && p[0] == t && p[|p| - 1] !in flow;
      assert Blocked(flow, t) && t in flow;
    }
  }
}
