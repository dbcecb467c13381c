/** Saving a workflow plan as rows and reading it back: flattening, the checks made on the rows, and the
    regrouping into a dependency graph (app/workflow.go). Task indexes, which the checks use as map keys,
    are modelled by the tasks they name (`EtcdKeys.TaskIndexIsInjective`). */
module PlanRows {
  import opened Basics
  import opened DependencyGraph

  /** One submitted task with the tasks it is to wait for. */
  datatype Entry = Entry(task: Task, deps: seq<Task>)

  datatype Row = Row(task: Task, dep: Task)

  /** The dependency of a task without dependencies. */
  const NO_DEPENDENCY := Task(0, "")

  // ----- flattening -----

  /** The entry names `d` as a dependency of `t`, or names none and `d` is the placeholder. */
  predicate Names(e: Entry, t: Task, d: Task) {
    e.task == t && (d in e.deps || (e.deps == [] && d == NO_DEPENDENCY))
  }

  /** How often the entry names `d` as a dependency of `t`, or stands for "none". */
  function Mentions(e: Entry, t: Task, d: Task): nat {
    if e.task != t then 0
    else if e.deps == [] then (if d == NO_DEPENDENCY then 1 else 0)
    else multiset(e.deps)[d]
  }

  function Occurrences(entries: seq<Entry>, t: Task, d: Task): nat {
    if entries == [] then 0
    else Occurrences(entries[..|entries| - 1], t, d) + Mentions(entries[|entries| - 1], t, d)
  }

  /** The rows are those of the entries, in some order, each as often as it is named. */
  ghost predicate Flattened(entries: seq<Entry>, rows: seq<Row>) {
    forall t, d :: multiset(rows)[Row(t, d)] == Occurrences(entries, t, d)
  }

  lemma {:induction false} OccursIffNamed(entries: seq<Entry>, t: Task, d: Task)
    ensures Occurrences(entries, t, d) > 0 <==> exists e :: e in entries && Names(e, t, d)
  {
    if entries != [] {
      var n := |entries| - 1;
      OccursIffNamed(entries[..n], t, d);
      assert entries == entries[..n] + [entries[n]];
      assert Mentions(entries[n], t, d) > 0 <==> Names(entries[n], t, d);
    }
  }

  lemma FlattenedHas(entries: seq<Entry>, rows: seq<Row>, t: Task, d: Task)
    requires Flattened(entries, rows)
    ensures Row(t, d) in rows <==> exists e :: e in entries && Names(e, t, d)
  {
    OccursIffNamed(entries, t, d);
    assert Row(t, d) in rows <==> multiset(rows)[Row(t, d)] > 0;
  }

  method Flatten(entries: seq<Entry>) returns (rows: seq<Row>)
    ensures Flattened(entries, rows)
    ensures forall t, d :: Row(t, d) in rows <==> exists e :: e in entries && Names(e, t, d)
  {
    rows := [];
    for i := 0 to |entries|
      invariant Flattened(entries[..i], rows)
    {
      assert entries[..i + 1][..i] == entries[..i];
      rows := FlattenOne(rows, entries[i]);
    }
    assert entries[..|entries|] == entries;
    forall t, d ensures Row(t, d) in rows <==> exists e :: e in entries && Names(e, t, d) {
      FlattenedHas(entries, rows, t, d);
    }
  }

  method FlattenOne(before: seq<Row>, v: Entry) returns (rows: seq<Row>)
    ensures forall t, d :: multiset(rows)[Row(t, d)] == multiset(before)[Row(t, d)] + Mentions(v, t, d)
  {
    rows := before;
    if |v.deps| > 0 {
      for j := 0 to |v.deps|
        invariant Extended(before, v.task, v.deps[..j], rows)
      {
        assert v.deps[..j + 1] == v.deps[..j] + [v.deps[j]];
        ExtendOnce(before, v.task, v.deps[..j], rows, v.deps[j]);
        rows := rows + [Row(v.task, v.deps[j])];
      }
      assert v.deps[..|v.deps|] == v.deps;
    } else {
      rows := rows + [Row(v.task, NO_DEPENDENCY)];
    }
  }

  ghost predicate Extended(before: seq<Row>, task: Task, deps: seq<Task>, rows: seq<Row>) {
    forall t, d :: multiset(rows)[Row(t, d)] == multiset(before)[Row(t, d)] + if t == task then multiset(deps)[d] else 0
  }

  lemma ExtendOnce(before: seq<Row>, task: Task, deps: seq<Task>, rows: seq<Row>, dep: Task)
    requires Extended(before, task, deps, rows)
    ensures Extended(before, task, deps + [dep], rows + [Row(task, dep)])
  {
    forall t, d ensures multiset(rows + [Row(task, dep)])[Row(t, d)] ==
                        multiset(before)[Row(t, d)] + if t == task then multiset(deps + [dep])[d] else 0
    {
      assert multiset(rows)[Row(t, d)] == multiset(before)[Row(t, d)] + if t == task then multiset(deps)[d] else 0;
    }
  }

  // ----- regrouping -----

  function Owners(rows: seq<Row>): set<Task> {
    set r | r in rows :: r.task
  }

  /** The dependencies listed for a task, in row order. */
  function DepsIn(rows: seq<Row>, t: Task): seq<Task> {
    if rows == [] then []
    else DepsIn(rows[..|rows| - 1], t) + if rows[|rows| - 1].task == t then [rows[|rows| - 1].dep] else []
  }

  function FlowOf(rows: seq<Row>): Flow {
    map t | t in Owners(rows) :: DepsIn(rows, t)
  }

  lemma {:induction false} DepsInHasRow(rows: seq<Row>, t: Task, d: Task)
    ensures d in DepsIn(rows, t) <==> Row(t, d) in rows
  {
    if rows != [] {
      var n := |rows| - 1;
      DepsInHasRow(rows[..n], t, d);
      assert rows == rows[..n] + [rows[n]];
    }
  }

  /** The graph that a refresh leaves: `latest` is the creation time of the newest row, if there is one, and
      `updated` the time the graph in memory was built from. */
  function RefreshedFlow(flow: Flow, updated: int, rows: seq<Row>, latest: Option<int>): Flow {
    if latest.None? then map[] else if latest.value == updated then flow else FlowOf(rows)
  }

  lemma Regrouping(rows: seq<Row>, v: Row)
    ensures FlowOf(rows + [v]) ==
            FlowOf(rows)[v.task := (if v.task in FlowOf(rows) then FlowOf(rows)[v.task] else []) + [v.dep]]
  {
    var all := rows + [v];
    var deps := (if v.task in Owners(rows) then DepsIn(rows, v.task) else []) + [v.dep];
    OwnersGrow(rows, v);
    assert all[..|rows|] == rows && all[|rows|] == v;
    if v.task !in Owners(rows) {
      NoRowsNoDeps(rows, v.task);
    }
    forall t ensures DepsIn(all, t) == if t == v.task then deps else DepsIn(rows, t) {
      assert DepsIn(all, t) == DepsIn(rows, t) + if v.task == t then [v.dep] else [];
    }
  }

  lemma {:induction false} NoRowsNoDeps(rows: seq<Row>, t: Task)
    requires t !in Owners(rows)
    ensures DepsIn(rows, t) == []
  {
    if rows != [] {
      var n := |rows| - 1;
      assert rows[n] in rows;
      forall r | r in rows[..n] ensures r.task != t {
        assert r in rows;
      }
      NoRowsNoDeps(rows[..n], t);
    }
  }

  /** Round trip: whatever order the store returns the rows in, the graph read back has exactly the submitted
      tasks, each with exactly the dependencies named for it or with the placeholder alone. */
  lemma PlanRoundTrip(entries: seq<Entry>, flattened: seq<Row>, stored: seq<Row>)
    requires forall t, d :: Row(t, d) in flattened <==> exists e :: e in entries && Names(e, t, d)
    requires multiset(stored) == multiset(flattened)
    ensures forall t :: t in FlowOf(stored) <==> exists e :: e in entries && e.task == t
    ensures forall t, d :: t in FlowOf(stored) ==>
              (d in FlowOf(stored)[t] <==> exists e :: e in entries && Names(e, t, d))
    ensures forall t, d :: DependsOn(FlowOf(stored), t, d) <==>
              d.id != "" && exists e :: e in entries && e.task == t && d in e.deps
  {
    var flow := FlowOf(stored);
    forall r ensures r in stored <==> r in flattened {
      assert r in multiset(stored) <==> r in multiset(flattened);
    }
    forall t ensures t in flow <==> exists e :: e in entries && e.task == t {
      if t in flow {
        var r :| r in stored && r.task == t;
        assert Row(t, r.dep) in flattened;
      }
      if e :| e in entries && e.task == t {
        var d := if e.deps == [] then NO_DEPENDENCY else e.deps[0];
        assert Names(e, t, d);
        assert Row(t, d) in stored;
      }
    }
    forall t, d ensures t in flow ==> (d in flow[t] <==> exists e :: e in entries && Names(e, t, d)) {
      DepsInHasRow(stored, t, d);
    }
  }

  // ----- validation -----

  datatype Check = Accepted | Duplicate(task: Task) | MissingDependency(dep: Task) | UnknownTask(task: Task)

  /** Two rows of one task clash: they repeat a dependency, or follow a "no dependency" row, or the later one
      carries project 0. */
  predicate Clash(earlier: Row, later: Row) {
    && earlier.task == later.task
    && (earlier.dep == later.dep || earlier.dep == NO_DEPENDENCY || later.dep.project == 0)
  }

  ghost predicate NoClash(rows: seq<Row>) {
    forall i, j :: 0 <= i < j < |rows| ==> !Clash(rows[i], rows[j])
  }

  /** Every row with a real dependency names a listed task, and its own task exists. */
  ghost predicate Resolved(rows: seq<Row>, known: set<Task>) {
    forall r :: r in rows && r.dep.id != "" ==> r.dep in Owners(rows) && r.task in known
  }

  method Validate(rows: seq<Row>, known: set<Task>) returns (check: Check)
    ensures check.Accepted? <==> NoClash(rows) && Resolved(rows, known)
    ensures check.Duplicate? <==> !NoClash(rows)
    ensures check.Duplicate? <==>
            exists i, j ::
              && 0 <= i < j < |rows| && rows[i].task == rows[j].task
              && (rows[i].dep == rows[j].dep || rows[i].dep == Task(0, "") || rows[j].dep.project == 0)
    ensures check.Duplicate? ==> exists j :: FirstClash(rows, j) && rows[j].task == check.task
    ensures check.MissingDependency? ==> check.dep !in Owners(rows) && exists r :: r in rows && r.dep == check.dep
    ensures check.UnknownTask? ==> check.task !in known && exists r :: r in rows && r.task == check.task
  {
    var clash, tasks := FindClash(rows);
    if clash.Some? {
      return Duplicate(clash.value);
    }
    check := Resolve(rows, tasks.Keys, known);
  }

  /** The first pass over the rows: it collects each owner's dependencies until a row clashes. */
  method FindClash(rows: seq<Row>) returns (clash: Option<Task>, tasks: map<Task, set<Task>>)
    ensures clash.None? <==> NoClash(rows)
    ensures clash.None? ==> Collected(rows, tasks)
    ensures clash.Some? ==> exists j :: FirstClash(rows, j) && rows[j].task == clash.value
  {
    tasks := map[];
    for i := 0 to |rows|
      invariant Collected(rows[..i], tasks)
      invariant NoClash(rows[..i])
    {
      var v := rows[i];
      var sons := if v.task in tasks then tasks[v.task] else {};
      NextRow(rows, i, tasks);
      if (v.dep.project == 0 && |sons| > 0) || v.dep in sons || NO_DEPENDENCY in sons {
        assert FirstClash(rows, i) && rows[i].task == v.task;
        return Some(v.task), tasks;
      }
      tasks := tasks[v.task := sons + {v.dep}];
    }
    assert rows[..|rows|] == rows;
    return None, tasks;
  }

  /** The second pass over the rows, once their owners are known. */
  method Resolve(rows: seq<Row>, owners: set<Task>, known: set<Task>) returns (check: Check)
    requires owners == Owners(rows)
    ensures check.Accepted? <==> Resolved(rows, known)
    ensures !check.Duplicate?
    ensures check.MissingDependency? ==> check.dep !in Owners(rows) && exists r :: r in rows && r.dep == check.dep
    ensures check.UnknownTask? ==> check.task !in known && exists r :: r in rows && r.task == check.task
  {
    for i := 0 to |rows|
      invariant forall r :: r in rows[..i] && r.dep.id != "" ==> r.dep in owners && r.task in known
    {
      var v := rows[i];
      assert rows[..i + 1] == rows[..i] + [v] && v in rows;
      if v.dep.id == "" {
        continue;
      }
      if v.dep !in owners {
        return MissingDependency(v.dep);
      }
      if v.task !in known {
        return UnknownTask(v.task);
      }
    }
    assert rows[..|rows|] == rows;
    return Accepted;
  }

  /** The map built by the first loop of the checks: each owner with its dependencies so far. */
  ghost predicate Collected(rows: seq<Row>, tasks: map<Task, set<Task>>) {
    && tasks.Keys == Owners(rows)
    && forall t, d :: t in tasks ==> (d in tasks[t] <==> Row(t, d) in rows)
  }

  lemma NoClashGrows(rows: seq<Row>, v: Row)
    requires NoClash(rows)
    ensures NoClash(rows + [v]) <==> forall r :: r in rows ==> !Clash(r, v)
  {
    var all := rows + [v];
    if NoClash(all) {
      forall r | r in rows ensures !Clash(r, v) {
        var i :| 0 <= i < |rows| && rows[i] == r;
        assert !Clash(all[i], all[|rows|]);
      }
    }
    if forall r :: r in rows ==> !Clash(r, v) {
      forall i, j | 0 <= i < j < |all| ensures !Clash(all[i], all[j]) {
        assert j < |rows| ==> !Clash(rows[i], rows[j]);
        assert rows[i] in rows;
      }
    }
  }

  lemma CollectedGrows(rows: seq<Row>, v: Row, tasks: map<Task, set<Task>>)
    requires Collected(rows, tasks)
    ensures Collected(rows + [v], tasks[v.task := (if v.task in tasks then tasks[v.task] else {}) + {v.dep}])
  {
    OwnersGrow(rows, v);
    assert forall t, d :: Row(t, d) in rows ==> Row(t, d).task in Owners(rows);
  }

  lemma RowClashesIff(rows: seq<Row>, v: Row, tasks: map<Task, set<Task>>)
    requires Collected(rows, tasks) && NoClash(rows)
    ensures var sons := if v.task in tasks then tasks[v.task] else {};
            && (NoClash(rows + [v]) <==>
                  !((v.dep.project == 0 && |sons| > 0) || v.dep in sons || NO_DEPENDENCY in sons))
            && Collected(rows + [v], tasks[v.task := sons + {v.dep}])
  {
    var sons := if v.task in tasks then tasks[v.task] else {};
    CollectedGrows(rows, v, tasks);
    NoClashGrows(rows, v);
    forall d ensures d in sons <==> Row(v.task, d) in rows {
      assert Row(v.task, d) in rows ==> Row(v.task, d).task in Owners(rows);
    }
    if (v.dep.project == 0 && |sons| > 0) || v.dep in sons || NO_DEPENDENCY in sons {
      var d :| d in sons && (v.dep.project == 0 || d == v.dep || d == NO_DEPENDENCY);
      assert Clash(Row(v.task, d), v);
    } else {
      forall r | r in rows ensures !Clash(r, v) {
        assert r.task == v.task ==> r == Row(v.task, r.dep) && r.dep in sons;
      }
    }
  }

  /** Row `j` is the first that clashes with one before it. */
  ghost predicate FirstClash(rows: seq<Row>, j: int) {
    0 <= j < |rows| && NoClash(rows[..j]) && !NoClash(rows[..j + 1])
  }

  lemma NextRow(rows: seq<Row>, i: nat, tasks: map<Task, set<Task>>)
    requires i < |rows|
    requires Collected(rows[..i], tasks) && NoClash(rows[..i])
    ensures var v := rows[i];
            var sons := if v.task in tasks then tasks[v.task] else {};
            if (v.dep.project == 0 && |sons| > 0) || v.dep in sons || NO_DEPENDENCY in sons
            then !NoClash(rows) && FirstClash(rows, i)
            else NoClash(rows[..i + 1]) && Collected(rows[..i + 1], tasks[v.task := sons + {v.dep}])
  {
    assert rows[..i + 1] == rows[..i] + [rows[i]];
    RowClashesIff(rows[..i], rows[i], tasks);
    if !NoClash(rows[..i + 1]) {
      var j, k :| 0 <= j < k < i + 1 && Clash(rows[..i + 1][j], rows[..i + 1][k]);
      assert Clash(rows[j], rows[k]);
    }
  }

  lemma OwnersGrow(rows: seq<Row>, v: Row)
    ensures Owners(rows + [v]) == Owners(rows) + {v.task}
  {
    assert forall r :: r in rows + [v] <==> r in rows || r == v;
    assert v in rows + [v];
    forall t | t in Owners(rows) ensures t in Owners(rows + [v]) {
      var r :| r in rows && r.task == t;
      assert r in rows + [v];
    }
  }

  /** A row without a dependency is the only one of its task. */
  ghost predicate NoneStandsAlone(rows: seq<Row>) {
    forall i, j :: 0 <= i < |rows| && 0 <= j < |rows| && i != j && rows[i].task == rows[j].task ==>
      rows[i].dep != NO_DEPENDENCY
  }

  /** For dependencies with a project and an id, the checks mean what they say, whatever the row order: no
      pair twice, and "no dependency" only on its own. */
  lemma NoClashForProperRows(rows: seq<Row>)
    requires forall r :: r in rows ==> r.dep == NO_DEPENDENCY || (r.dep.project != 0 && r.dep.id != "")
    ensures NoClash(rows) <==> Distinct(rows) && NoneStandsAlone(rows)
  {
    assert forall i :: 0 <= i < |rows| ==> rows[i] in rows;
    if NoClash(rows) {
      forall i, j | 0 <= i < |rows| && 0 <= j < |rows| && i != j && rows[i].task == rows[j].task
        ensures rows[i].dep != NO_DEPENDENCY
      {
        assert if i < j then !Clash(rows[i], rows[j]) else !Clash(rows[j], rows[i]);
      }
      forall i, j | 0 <= i < j < |rows| ensures rows[i] != rows[j] {
        assert !Clash(rows[i], rows[j]);
      }
    }
  }

  /** The checks do not look for cycles: two tasks that wait for each other pass. */
  lemma CyclesAreAccepted(a: Task, b: Task, known: set<Task>)
    requires a != b && a.project != 0 && a.id != "" && b.project != 0 && b.id != ""
    requires a in known && b in known
    ensures var rows := [Row(a, b), Row(b, a)];
            NoClash(rows) && Resolved(rows, known) && Cycle(FlowOf(rows), [a, b, a])
  {
    var rows := [Row(a, b), Row(b, a)];
    assert rows[0] in rows && rows[1] in rows;
    DepsInHasRow(rows, a, b);
    DepsInHasRow(rows, b, a);
    var p := [a, b, a];
    assert forall i :: 0 <= i < |p| - 1 ==> DependsOn(FlowOf(rows), p[i], p[i + 1]);
  }

  // ----- validation, in terms of what was submitted -----

  ghost predicate ProperDeps(entries: seq<Entry>) {
    forall e, d :: e in entries && d in e.deps ==> d.project != 0 && d.id != ""
  }

  /** No task names a dependency twice or says "none" twice, and none says both. */
  ghost predicate NamedOnce(entries: seq<Entry>) {
    EachOnce(entries) && NoneSaidAlone(entries)
  }

  ghost predicate EachOnce(entries: seq<Entry>) {
    forall t, d :: Occurrences(entries, t, d) <= 1
  }

  ghost predicate NoneSaidAlone(entries: seq<Entry>) {
    forall e, f :: e in entries && f in entries && e.task == f.task && e.deps == [] ==> f.deps == []
  }

  /** Every named dependency is itself submitted, and a task with dependencies exists. */
  ghost predicate Provided(entries: seq<Entry>, known: set<Task>) {
    forall e, d :: e in entries && d in e.deps ==> e.task in known && exists f :: f in entries && f.task == d
  }

  lemma RowsAreDistinctIff(entries: seq<Entry>, rows: seq<Row>)
    requires Flattened(entries, rows)
    ensures Distinct(rows) <==> EachOnce(entries)
  {
    if Distinct(rows) {
      forall t, d ensures Occurrences(entries, t, d) <= 1 {
        DistinctCounts(rows, Row(t, d));
      }
    } else {
      var i, j :| 0 <= i < j < |rows| && rows[i] == rows[j];
      RepeatedCounts(rows, i, j);
      assert rows[i] == Row(rows[i].task, rows[i].dep);
      assert Occurrences(entries, rows[i].task, rows[i].dep) >= 2;
    }
  }

  /** With proper dependencies, "none" rows come from entries without any, and from nothing else. */
  lemma NoneStandsAloneIff(entries: seq<Entry>, rows: seq<Row>)
    requires Flattened(entries, rows) && ProperDeps(entries) && Distinct(rows)
    ensures NoneStandsAlone(rows) <==> NoneSaidAlone(entries)
  {
    if e, f :| e in entries && f in entries && e.task == f.task && e.deps == [] && f.deps != [] {
      var r, q := Row(e.task, NO_DEPENDENCY), Row(e.task, f.deps[0]);
      assert f.deps[0] in f.deps && Names(e, e.task, NO_DEPENDENCY) && Names(f, e.task, f.deps[0]);
      FlattenedHas(entries, rows, e.task, NO_DEPENDENCY);
      FlattenedHas(entries, rows, e.task, f.deps[0]);
      var i :| 0 <= i < |rows| && rows[i] == r;
      var j :| 0 <= j < |rows| && rows[j] == q;
      assert i != j && rows[i].task == rows[j].task;
    } else {
      forall i, j | 0 <= i < |rows| && 0 <= j < |rows| && i != j && rows[i].task == rows[j].task
        ensures rows[i].dep != NO_DEPENDENCY
      {
        assert rows[i] != rows[j] && rows[i] in rows && rows[j] in rows;
        FlattenedHas(entries, rows, rows[i].task, rows[i].dep);
        FlattenedHas(entries, rows, rows[j].task, rows[j].dep);
        assert rows[i] == Row(rows[i].task, rows[i].dep) && rows[j] == Row(rows[j].task, rows[j].dep);
        var e :| e in entries && Names(e, rows[i].task, rows[i].dep);
        var f :| f in entries && Names(f, rows[j].task, rows[j].dep);
      }
    }
  }

  lemma OwnersAreSubmitted(entries: seq<Entry>, rows: seq<Row>, t: Task)
    requires Flattened(entries, rows)
    ensures t in Owners(rows) <==> exists e :: e in entries && e.task == t
  {
    if t in Owners(rows) {
      var r :| r in rows && r.task == t;
      assert r == Row(t, r.dep);
      FlattenedHas(entries, rows, t, r.dep);
    }
    if e :| e in entries && e.task == t {
      var d := if e.deps == [] then NO_DEPENDENCY else e.deps[0];
      assert Names(e, t, d);
      FlattenedHas(entries, rows, t, d);
      assert Row(t, d) in rows;
    }
  }

  lemma ResolvedIffProvided(entries: seq<Entry>, rows: seq<Row>, known: set<Task>)
    requires Flattened(entries, rows) && ProperDeps(entries)
    ensures Resolved(rows, known) <==> Provided(entries, known)
  {
    if Resolved(rows, known) {
      forall e, d | e in entries && d in e.deps ensures e.task in known && exists f :: f in entries && f.task == d {
        assert Names(e, e.task, d);
        FlattenedHas(entries, rows, e.task, d);
        assert Row(e.task, d) in rows && Row(e.task, d).dep.id != "";
        OwnersAreSubmitted(entries, rows, d);
      }
    }
    if Provided(entries, known) {
      forall r | r in rows && r.dep.id != "" ensures r.dep in Owners(rows) && r.task in known {
        assert r == Row(r.task, r.dep);
        FlattenedHas(entries, rows, r.task, r.dep);
        var e :| e in entries && Names(e, r.task, r.dep);
        OwnersAreSubmitted(entries, rows, r.dep);
      }
    }
  }

  /** What the two loops accept, read off the submitted entries, for dependencies with a project and an id. */
  lemma AcceptedIff(entries: seq<Entry>, rows: seq<Row>, known: set<Task>)
    requires Flattened(entries, rows) && ProperDeps(entries)
    ensures NoClash(rows) && Resolved(rows, known) <==> NamedOnce(entries) && Provided(entries, known)
  {
    forall r | r in rows ensures r.dep == NO_DEPENDENCY || (r.dep.project != 0 && r.dep.id != "") {
      assert r == Row(r.task, r.dep);
      FlattenedHas(entries, rows, r.task, r.dep);
    }
    NoClashForProperRows(rows);
    RowsAreDistinctIff(entries, rows);
    if Distinct(rows) {
      NoneStandsAloneIff(entries, rows);
    }
    assert NoClash(rows) <==> NamedOnce(entries);
    ResolvedIffProvided(entries, rows, known);
  }
}
