/** The task log as a guard against double starts: a start is refused if the log has one already
    (pkg/store/sqlStore/task_log_partition.go, app/schedule.go). The check and the insert are two statements,
    and a start whose log call fails goes ahead. */
module StartLog {
  datatype LogKey = LogKey(planTime: int, project: int, taskID: string, tmpID: string)

  datatype LogRow = LogRow(key: LogKey, agentIP: string, startTime: int, endTime: int, result: string,
                           withError: int, project: string)

  /** The table keeps rows unique on (plan time, project, task, tmp id). */
  ghost predicate UniqueKeys(rows: seq<LogRow>) {
    forall i, j :: 0 <= i < j < |rows| ==> rows[i].key != rows[j].key
  }

  predicate SameTask(a: LogKey, b: LogKey) {
    a.planTime == b.planTime && a.project == b.project && a.taskID == b.taskID
  }

  predicate HasKey(rows: seq<LogRow>, key: LogKey) {
    exists i :: 0 <= i < |rows| && rows[i].key == key
  }

  /** A start of the same task at the same plan time is logged, whatever its tmp id. */
  predicate HasTask(rows: seq<LogRow>, key: LogKey) {
    exists i :: 0 <= i < |rows| && SameTask(rows[i].key, key)
  }

  datatype Start = Start(key: LogKey, noseize: bool)

  /** Tasks that every agent may run ("noseize") are guarded per tmp id only. */
  predicate AlreadyStarted(rows: seq<LogRow>, start: Start) {
    if start.noseize then HasKey(rows, start.key) else HasTask(rows, start.key)
  }

  /** The row tells of the same start, or, for an ordinary task, of any start of the task at that plan time. */
  predicate TellsOf(row: LogRow, start: Start) {
    && row.key.planTime == start.key.planTime
    && row.key.project == start.key.project
    && row.key.taskID == start.key.taskID
    && (start.noseize ==> row.key.tmpID == start.key.tmpID)
  }

  /** The statement that fails, if any; a failing insert may have taken effect all the same. */
  datatype Fault = NoFault | SelectFails | InsertFails(applied: bool)

  function StartRow(key: LogKey, agentIP: string, now: int): LogRow {
    LogRow(key, agentIP, now, 0, "", 0, "")
  }

  /** The insert; the unique key turns a second row away. */
  function Inserted(rows: seq<LogRow>, key: LogKey, agentIP: string, now: int, fault: Fault): seq<LogRow> {
    if HasKey(rows, key) || fault == InsertFails(false) then rows else rows + [StartRow(key, agentIP, now)]
  }

  function Updated(row: LogRow, data: LogRow): LogRow {
    row.(endTime := data.endTime, result := data.result, withError := data.withError, project := data.project)
  }

  function Upserted(rows: seq<LogRow>, data: LogRow): seq<LogRow> {
    if HasKey(rows, data.key)
    then seq(|rows|, i requires 0 <= i < |rows| => if rows[i].key == data.key then Updated(rows[i], data) else rows[i])
    else rows + [data]
  }

  class TaskLogTable {
    var rows: seq<LogRow>

    constructor ()
      ensures rows == [] && UniqueKeys(rows)
    {
      rows := [];
    }

    method Exists(key: LogKey, anyTmpID: bool) returns (exist: bool)
      ensures exist <==> if anyTmpID then HasTask(rows, key) else HasKey(rows, key)
    {
      for i := 0 to |rows|
        invariant forall j :: 0 <= j < i ==>
                    if anyTmpID then !SameTask(rows[j].key, key) else rows[j].key != key
      {
        if rows[i].key == key || (anyTmpID && SameTask(rows[i].key, key)) {
          return true;
        }
      }
      return false;
    }

    /** Check and insert with nothing in between: the insert itself never collides. */
    method CheckOrCreateScheduleLog(start: Start, agentIP: string, now: int, fault: Fault)
      returns (isCreate: bool, failed: bool)
      requires UniqueKeys(rows)
      modifies this
      ensures isCreate <==> !fault.SelectFails? && !AlreadyStarted(old(rows), start)
      ensures !isCreate && !failed <==>
                !fault.SelectFails? && exists i :: 0 <= i < |old(rows)| && TellsOf(old(rows)[i], start)
      ensures failed <==> fault.SelectFails? || (isCreate && fault.InsertFails?)
      ensures rows == if isCreate && fault != InsertFails(false) then old(rows) + [StartRow(start.key, agentIP, now)]
                      else old(rows)
      ensures isCreate ==> rows == Inserted(old(rows), start.key, agentIP, now, fault)
      ensures UniqueKeys(rows)
    {
      RefusalTells(rows, start);
      if fault.SelectFails? {
        return false, true;
      }
      var exist: bool;
      if start.noseize {
        exist := Exists(start.key, false);
      } else {
        exist := Exists(start.key, true);
      }
      if exist {
        return false, false;
      }
      NoTaskNoKey(rows, start.key);
      var taken := Exists(start.key, false);
      if taken || fault == InsertFails(false) {
        return true, true;
      }
      rows := rows + [StartRow(start.key, agentIP, now)];
      return true, fault.InsertFails?;
    }

    /** What the center answers to a running report: only a start that the log is known to have is refused.
        `consulted`: the agent is new enough and the start has a plan time. */
    method AdmitStart(start: Start, agentIP: string, now: int, consulted: bool, fault: Fault) returns (accepted: bool)
      requires UniqueKeys(rows)
      modifies this
      ensures !accepted <==> consulted && !fault.SelectFails? && AlreadyStarted(old(rows), start)
      ensures !accepted ==> exists i :: 0 <= i < |old(rows)| && TellsOf(old(rows)[i], start)
      ensures accepted && consulted && fault.NoFault? ==> rows == old(rows) + [StartRow(start.key, agentIP, now)]
      ensures rows != old(rows) ==>
                accepted && consulted && fault in {NoFault, InsertFails(true)} && HasKey(rows, start.key)
      ensures UniqueKeys(rows)
      ensures forall key :: HasKey(old(rows), key) ==> HasKey(rows, key)
    {
      ghost var before := rows;
      accepted := true;
      if consulted {
        var isCreate, failed := CheckOrCreateScheduleLog(start, agentIP, now, fault);
        if !failed && !isCreate {
          accepted := false;
        }
        if rows != before {
          AppendedHasKeys(before, StartRow(start.key, agentIP, now));
        }
      }
    }

    /** Insert, or update the four result columns of the row that is there. */
    method CreateOrUpdateTaskLog(data: LogRow)
      requires UniqueKeys(rows)
      modifies this
      ensures rows == Upserted(old(rows), data)
      ensures |old(rows)| <= |rows| <= |old(rows)| + 1 && (|rows| > |old(rows)| ==> rows[|old(rows)|] == data)
      ensures forall i :: 0 <= i < |old(rows)| ==>
                && rows[i].key == old(rows)[i].key
                && rows[i].agentIP == old(rows)[i].agentIP && rows[i].startTime == old(rows)[i].startTime
                && (rows[i].key != data.key ==> rows[i] == old(rows)[i])
                && (rows[i].key == data.key ==>
                      && rows[i].endTime == data.endTime && rows[i].result == data.result
                      && rows[i].withError == data.withError && rows[i].project == data.project)
      ensures UniqueKeys(rows)
      ensures HasKey(rows, data.key)
      ensures forall key :: HasKey(old(rows), key) ==> HasKey(rows, key)
    {
      UpsertKeepsRows(rows, data);
      for i := 0 to |rows|
        invariant rows == old(rows)
        invariant forall j :: 0 <= j < i ==> rows[j].key != data.key
      {
        if rows[i].key == data.key {
          rows := rows[i := Updated(rows[i], data)];
          assert HasKey(old(rows), data.key);
          assert rows == Upserted(old(rows), data);
          return;
        }
      }
      rows := rows + [data];
    }
  }

  lemma RefusalTells(rows: seq<LogRow>, start: Start)
    ensures AlreadyStarted(rows, start) <==> exists i :: 0 <= i < |rows| && TellsOf(rows[i], start)
  {
    if AlreadyStarted(rows, start) {
      if start.noseize {
        var i :| 0 <= i < |rows| && rows[i].key == start.key;
        assert TellsOf(rows[i], start);
      } else {
        var i :| 0 <= i < |rows| && SameTask(rows[i].key, start.key);
        assert TellsOf(rows[i], start);
      }
    }
    if i :| 0 <= i < |rows| && TellsOf(rows[i], start) {
      assert SameTask(rows[i].key, start.key) && (start.noseize ==> rows[i].key == start.key);
    }
  }

  lemma NoTaskNoKey(rows: seq<LogRow>, key: LogKey)
    ensures HasKey(rows, key) ==> HasTask(rows, key)
  {
    if HasKey(rows, key) {
      var i :| 0 <= i < |rows| && rows[i].key == key;
      assert SameTask(rows[i].key, key);
    }
  }

  lemma UpsertKeepsRows(rows: seq<LogRow>, data: LogRow)
    requires UniqueKeys(rows)
    ensures var next := Upserted(rows, data);
            && UniqueKeys(next) && HasKey(next, data.key)
            && forall key :: HasKey(rows, key) ==> HasKey(next, key)
  {
    var next := Upserted(rows, data);
    assert forall i :: 0 <= i < |rows| ==> next[i].key == rows[i].key;
    if HasKey(rows, data.key) {
      var i :| 0 <= i < |rows| && rows[i].key == data.key;
      assert next[i].key == data.key;
    } else {
      assert next[|rows|].key == data.key;
    }
    forall key | HasKey(rows, key) ensures HasKey(next, key) {
      var i :| 0 <= i < |rows| && rows[i].key == key;
      assert next[i].key == key;
    }
  }

  lemma AppendedHasKeys(rows: seq<LogRow>, row: LogRow)
    ensures HasKey(rows + [row], row.key)
    ensures forall key :: HasKey(rows, key) ==> HasKey(rows + [row], key)
  {
    var next := rows + [row];
    assert next[|rows|] == row;
    forall key | HasKey(rows, key) ensures HasKey(next, key) {
      var i :| 0 <= i < |rows| && rows[i].key == key;
      assert next[i].key == key;
    }
  }

  // ----- every run -----

  /** A start whose check found nothing; `at` starts had been accepted by then. */
  datatype Pending = Pending(start: Start, at: nat)

  /** `logged`: the start's key was in the log when it was accepted. */
  datatype Accepted = Accepted(start: Start, logged: bool)

  /** The execution lock of a task, held under a tmp id. */
  datatype TaskID = TaskID(project: int, id: string)

  datatype World = World(rows: seq<LogRow>, pending: multiset<Pending>, accepted: seq<Accepted>,
                         locks: map<TaskID, string>)

  const START := World([], multiset{}, [], map[])

  /** `Unchecked`: the log is not consulted, or its check fails. `Upsert`: the write of a result. */
  datatype Event =
    | Check(start: Start)
    | Insert(pending: Pending, agentIP: string, now: int, fault: Fault)
    | Unchecked(start: Start)
    | Upsert(data: LogRow)
    | Lock(task: TaskID, tmpID: string)
    | LoseLock(task: TaskID)

  function Step(w: World, e: Event): World {
    match e
    case Check(start) =>
      if AlreadyStarted(w.rows, start) then w
      else w.(pending := w.pending + multiset{Pending(start, |w.accepted|)})
    case Insert(p, agentIP, now, fault) =>
      if p !in w.pending then w else
      var rows := Inserted(w.rows, p.start.key, agentIP, now, fault);
      w.(rows := rows, pending := w.pending - multiset{p},
         accepted := w.accepted + [Accepted(p.start, HasKey(rows, p.start.key))])
    case Unchecked(start) => w.(accepted := w.accepted + [Accepted(start, HasKey(w.rows, start.key))])
    case Upsert(data) => w.(rows := Upserted(w.rows, data))
    case Lock(task, tmpID) =>
      if task in w.locks && w.locks[task] != tmpID then w else w.(locks := w.locks[task := tmpID])
    case LoseLock(task) => w.(locks := w.locks - {task})
  }

  function Run(w: World, events: seq<Event>): World {
    if events == [] then w else Step(Run(w, events[..|events| - 1]), events[|events| - 1])
  }

  /** A later start that should have been refused because of an earlier one. */
  predicate Repeats(earlier: Start, later: Start) {
    if later.noseize then earlier.key == later.key else SameTask(earlier.key, later.key)
  }

  /** At most one start of an ordinary task is accepted per plan time, none after any other start of it, and at
      most one "noseize" start per tmp id. */
  ghost predicate NoRepeats(accepted: seq<Accepted>) {
    forall i, j :: 0 <= i < j < |accepted| ==> !Repeats(accepted[i].start, accepted[j].start)
  }

  ghost predicate Clashes(w: World, i: nat, start: Start) {
    i < |w.accepted| && Repeats(w.accepted[i].start, start)
  }

  /** What the checks guarantee: an accepted start that clashes with a pending one was accepted after its check,
      or without leaving its key in the log. */
  ghost predicate PendingIsNew(w: World, p: Pending) {
    p.at <= |w.accepted| && forall i :: 0 <= i < p.at && w.accepted[i].logged ==> !Clashes(w, i, p.start)
  }

  ghost predicate Good(w: World) {
    && UniqueKeys(w.rows)
    && (forall i :: 0 <= i < |w.accepted| && w.accepted[i].logged ==> HasKey(w.rows, w.accepted[i].start.key))
    && forall p :: p in w.pending ==> PendingIsNew(w, p)
  }

  /** The step accepts a start that clashes with one accepted since its check or left out of the log. */
  ghost predicate Untimely(w: World, e: Event) {
    match e
    case Insert(p, _, _, _) =>
      && p in w.pending
      && exists i :: 0 <= i < |w.accepted| && (p.at <= i || !w.accepted[i].logged) && Clashes(w, i, p.start)
    case Unchecked(start) => exists i :: 0 <= i < |w.accepted| && Clashes(w, i, start)
    case _ => false
  }

  lemma InsertedKeepsRows(rows: seq<LogRow>, key: LogKey, agentIP: string, now: int, fault: Fault)
    requires UniqueKeys(rows)
    ensures var next := Inserted(rows, key, agentIP, now, fault);
            UniqueKeys(next) && forall k :: HasKey(rows, k) ==> HasKey(next, k)
  {
    AppendedHasKeys(rows, StartRow(key, agentIP, now));
    assert !HasKey(rows, key) ==> forall i :: 0 <= i < |rows| ==> rows[i].key != key;
  }

  /** A check that finds nothing clashes with no logged start. */
  lemma CheckIsNew(w: World, start: Start)
    requires Good(w) && !AlreadyStarted(w.rows, start)
    ensures PendingIsNew(w, Pending(start, |w.accepted|))
  {
    forall i | 0 <= i < |w.accepted| && w.accepted[i].logged ensures !Clashes(w, i, start) {
      var j :| 0 <= j < |w.rows| && w.rows[j].key == w.accepted[i].start.key;
      assert start.noseize || !SameTask(w.rows[j].key, start.key);
    }
  }

  /** The table keeps its keys, accepted starts stay, and what is pending was so before or is new. */
  ghost predicate Grows(w: World, next: World) {
    && UniqueKeys(next.rows)
    && (forall key :: HasKey(w.rows, key) ==> HasKey(next.rows, key))
    && w.accepted <= next.accepted
    && (forall i :: |w.accepted| <= i < |next.accepted| && next.accepted[i].logged ==>
          HasKey(next.rows, next.accepted[i].start.key))
    && (forall p :: p in next.pending ==> p in w.pending || PendingIsNew(next, p))
  }

  lemma GrowthIsGood(w: World, next: World)
    requires Good(w) && Grows(w, next)
    ensures Good(next)
  {
    forall p | p in w.pending ensures PendingIsNew(next, p) {
      assert PendingIsNew(w, p);
      forall i | 0 <= i < p.at && next.accepted[i].logged ensures !Clashes(next, i, p.start) {
        assert next.accepted[i] == w.accepted[i] && !Clashes(w, i, p.start);
      }
    }
    forall i | 0 <= i < |next.accepted| && next.accepted[i].logged
      ensures HasKey(next.rows, next.accepted[i].start.key)
    {
      if i < |w.accepted| {
        assert next.accepted[i] == w.accepted[i];
      }
    }
  }

  lemma CheckGrows(w: World, start: Start)
    requires Good(w)
    ensures Grows(w, Step(w, Check(start)))
  {
    var next, added := Step(w, Check(start)), Pending(start, |w.accepted|);
    if !AlreadyStarted(w.rows, start) {
      CheckIsNew(w, start);
      assert PendingIsNew(next, added) by {
        assert forall i: nat :: Clashes(next, i, start) == Clashes(w, i, start);
      }
    }
  }

  lemma StepIsGood(w: World, e: Event)
    requires Good(w)
    ensures Good(Step(w, e))
  {
    match e {
      case Check(start) => CheckGrows(w, start);
      case Insert(p, agentIP, now, fault) => InsertedKeepsRows(w.rows, p.start.key, agentIP, now, fault);
      case Upsert(data) => UpsertKeepsRows(w.rows, data);
      case _ =>
    }
    GrowthIsGood(w, Step(w, e));
  }

  lemma AcceptKeepsNoRepeatsIff(w: World, a: Accepted)
    ensures NoRepeats(w.accepted + [a]) <==>
            NoRepeats(w.accepted) && forall i :: 0 <= i < |w.accepted| ==> !Clashes(w, i, a.start)
  {
    var all := w.accepted + [a];
    if NoRepeats(all) {
      forall i, j | 0 <= i < j < |w.accepted| ensures !Repeats(w.accepted[i].start, w.accepted[j].start) {
        assert !Repeats(all[i].start, all[j].start);
      }
      forall i | 0 <= i < |w.accepted| ensures !Clashes(w, i, a.start) {
        assert !Repeats(all[i].start, all[|w.accepted|].start);
      }
    }
    if NoRepeats(w.accepted) && forall i :: 0 <= i < |w.accepted| ==> !Clashes(w, i, a.start) {
      forall i, j | 0 <= i < j < |all| ensures !Repeats(all[i].start, all[j].start) {
        assert j == |w.accepted| ==> !Clashes(w, i, a.start);
      }
    }
  }

  /** Step by step: "accepted at most once" survives exactly the steps that are not untimely. */
  lemma StepKeepsOnceIff(w: World, e: Event)
    requires Good(w)
    ensures NoRepeats(Step(w, e).accepted) <==> NoRepeats(w.accepted) && !Untimely(w, e)
  {
    match e
    case Insert(p, agentIP, now, fault) =>
      if p in w.pending {
        assert PendingIsNew(w, p);
        AcceptKeepsNoRepeatsIff(w, Accepted(p.start, HasKey(Step(w, e).rows, p.start.key)));
      }
    case Unchecked(start) =>
      AcceptKeepsNoRepeatsIff(w, Accepted(start, HasKey(w.rows, start.key)));
    case _ =>
  }

  /** No step of the run is untimely. */
  ghost predicate AllTimely(events: seq<Event>) {
    events == [] ||
    var n := |events| - 1;
    AllTimely(events[..n]) && !Untimely(Run(START, events[..n]), events[n])
  }

  /** In every run: rows stay unique and keep the key of every logged start, and no start is accepted twice exactly
      when no step of the run is untimely. */
  lemma {:induction false} StartsAtMostOnceIff(events: seq<Event>)
    ensures Good(Run(START, events))
    ensures NoRepeats(Run(START, events).accepted) <==> AllTimely(events)
  {
    if events != [] {
      var n := |events| - 1;
      StartsAtMostOnceIff(events[..n]);
      StepIsGood(Run(START, events[..n]), events[n]);
      StepKeepsOnceIff(Run(START, events[..n]), events[n]);
    }
  }

  // ----- and nothing is refused without a reason -----

  ghost predicate AcceptedKey(w: World, key: LogKey) {
    exists i :: 0 <= i < |w.accepted| && w.accepted[i].start.key == key
  }

  /** Rows come from accepted starts. */
  ghost predicate RowsAreStarts(w: World) {
    forall i :: 0 <= i < |w.rows| ==> AcceptedKey(w, w.rows[i].key)
  }

  lemma RowsStayStarts(w: World, e: Event)
    requires RowsAreStarts(w) && (e.Upsert? ==> AcceptedKey(w, e.data.key))
    ensures RowsAreStarts(Step(w, e))
  {
    var next := Step(w, e);
    forall j | 0 <= j < |next.rows| ensures AcceptedKey(next, next.rows[j].key) {
      if j < |w.rows| {
        assert next.rows[j].key == w.rows[j].key;
        var i :| 0 <= i < |w.accepted| && w.accepted[i].start.key == w.rows[j].key;
        assert next.accepted[i] == w.accepted[i];
      } else if e.Upsert? {
        assert next.rows[j] == e.data;
      } else {
        assert next.accepted[|w.accepted|].start.key == next.rows[j].key;
      }
    }
  }

  /** Results are written for accepted starts. */
  ghost predicate OwnResults(events: seq<Event>) {
    events == [] ||
    var n := |events| - 1;
    && OwnResults(events[..n])
    && (events[n].Upsert? ==> AcceptedKey(Run(START, events[..n]), events[n].data.key))
  }

  /** In every run in which results are written for accepted starts only, a check refuses a start exactly when it
      repeats an accepted start that has left its key in the log. */
  lemma {:induction false} RefusedIffRepeats(events: seq<Event>, start: Start)
    requires OwnResults(events)
    ensures var w := Run(START, events);
            && RowsAreStarts(w)
            && (Step(w, Check(start)).pending == w.pending <==>
                exists i: nat :: Clashes(w, i, start) && HasKey(w.rows, w.accepted[i].start.key))
  {
    var w := Run(START, events);
    if events != [] {
      var n := |events| - 1;
      RefusedIffRepeats(events[..n], start);
      RowsStayStarts(Run(START, events[..n]), events[n]);
    }
    assert w.pending + multiset{Pending(start, |w.accepted|)} != w.pending by {
      assert (w.pending + multiset{Pending(start, |w.accepted|)})[Pending(start, |w.accepted|)] ==
             w.pending[Pending(start, |w.accepted|)] + 1;
    }
    KnownIffRepeats(w, start);
  }

  lemma KnownIffRepeats(w: World, start: Start)
    requires RowsAreStarts(w)
    ensures AlreadyStarted(w.rows, start) <==>
            exists i: nat :: Clashes(w, i, start) && HasKey(w.rows, w.accepted[i].start.key)
  {
    if AlreadyStarted(w.rows, start) {
      RefusalTells(w.rows, start);
      var j :| 0 <= j < |w.rows| && TellsOf(w.rows[j], start);
      assert AcceptedKey(w, w.rows[j].key);
      var i :| 0 <= i < |w.accepted| && w.accepted[i].start.key == w.rows[j].key;
      assert Clashes(w, i, start) && HasKey(w.rows, w.accepted[i].start.key);
    }
    if i: nat :| Clashes(w, i, start) && HasKey(w.rows, w.accepted[i].start.key) {
      var j :| 0 <= j < |w.rows| && w.rows[j].key == w.accepted[i].start.key;
      assert SameTask(w.rows[j].key, start.key);
    }
  }

  /** Each start checked and inserted in turn. */
  function InTurn(starts: seq<Start>, agentIP: string, now: int): seq<Event> {
    if starts == [] then [] else
    var n := |starts| - 1;
    InTurn(starts[..n], agentIP, now) + [Check(starts[n]), Insert(Pending(starts[n], n), agentIP, now, NoFault)]
  }

  lemma NewStartIsAccepted(w: World, start: Start, agentIP: string, now: int)
    requires w.pending == multiset{} && !AlreadyStarted(w.rows, start) && !HasKey(w.rows, start.key)
    ensures Run(w, [Check(start), Insert(Pending(start, |w.accepted|), agentIP, now, NoFault)]) ==
            World(w.rows + [StartRow(start.key, agentIP, now)], multiset{},
                  w.accepted + [Accepted(start, true)], w.locks)
  {
    var p := Pending(start, |w.accepted|);
    var events := [Check(start), Insert(p, agentIP, now, NoFault)];
    var checked := w.(pending := multiset{p});
    assert Step(w, events[0]) == checked;
    InsertIsAccepted(checked, p, agentIP, now);
    assert multiset{p} - multiset{p} == multiset{};
    RunTrace([w, checked, Step(checked, events[1])], events, 2);
    assert events[..2] == events;
  }

  /** Exactly these starts have been accepted, each with a row of its own. */
  ghost predicate AllAccepted(w: World, starts: seq<Start>) {
    && w.pending == multiset{} && |w.rows| == |w.accepted| == |starts|
    && (forall i :: 0 <= i < |starts| ==> w.accepted[i] == Accepted(starts[i], true))
    && (forall i :: 0 <= i < |starts| ==> w.rows[i].key == starts[i].key)
  }

  ghost predicate NoseizeApart(starts: seq<Start>) {
    && (forall i :: 0 <= i < |starts| ==> starts[i].noseize)
    && forall i, j :: 0 <= i < j < |starts| ==> starts[i].key != starts[j].key
  }

  lemma OneMoreIsAccepted(w: World, starts: seq<Start>, next: Start, agentIP: string, now: int)
    requires AllAccepted(w, starts) && NoseizeApart(starts + [next])
    ensures AllAccepted(Run(w, [Check(next), Insert(Pending(next, |starts|), agentIP, now, NoFault)]), starts + [next])
  {
    var all := starts + [next];
    assert all[|starts|] == next;
    forall i | 0 <= i < |w.rows| ensures w.rows[i].key != next.key {
      assert all[i] == starts[i];
    }
    NewStartIsAccepted(w, next, agentIP, now);
  }

  /** Every agent may run a "noseize" task: any number of its starts with tmp ids of their own are all accepted. */
  lemma {:induction false} NoseizeStartsAreAllAccepted(starts: seq<Start>, agentIP: string, now: int)
    requires NoseizeApart(starts)
    ensures AllAccepted(Run(START, InTurn(starts, agentIP, now)), starts)
  {
    if starts != [] {
      var n := |starts| - 1;
      var first := InTurn(starts[..n], agentIP, now);
      NoseizeStartsAreAllAccepted(starts[..n], agentIP, now);
      assert starts[..n] + [starts[n]] == starts;
      OneMoreIsAccepted(Run(START, first), starts[..n], starts[n], agentIP, now);
      RunConcat(START, first, [Check(starts[n]), Insert(Pending(starts[n], n), agentIP, now, NoFault)]);
    }
  }

  // ----- runs in which the log suffices -----

  /** No call fails, the log is always consulted, and nothing is accepted between a check and its insert. */
  ghost predicate Prompt(w: World, e: Event) {
    !e.Unchecked? && (e.Insert? && e.pending in w.pending ==> e.fault.NoFault? && e.pending.at == |w.accepted|)
  }

  ghost predicate AllLogged(w: World) {
    forall i :: 0 <= i < |w.accepted| ==> w.accepted[i].logged
  }

  lemma {:induction false} StartsAtMostOnce(events: seq<Event>)
    requires forall k :: 0 <= k < |events| ==> Prompt(Run(START, events[..k]), events[k])
    ensures Good(Run(START, events)) && AllLogged(Run(START, events)) && NoRepeats(Run(START, events).accepted)
  {
    if events != [] {
      var n := |events| - 1;
      var front, w := events[..n], Run(START, events[..n]);
      forall k | 0 <= k < n ensures Prompt(Run(START, front[..k]), front[k]) {
        assert front[..k] == events[..k] && front[k] == events[k];
      }
      StartsAtMostOnce(front);
      StepIsGood(w, events[n]);
      StepKeepsOnceIff(w, events[n]);
      LoggedStep(w, events[n]);
      assert Prompt(Run(START, events[..n]), events[n]);
    }
  }

  lemma LoggedStep(w: World, e: Event)
    requires AllLogged(w) && !e.Unchecked?
    requires e.Insert? && e.pending in w.pending ==> e.fault.NoFault?
    ensures AllLogged(Step(w, e))
  {
    if e.Insert? && e.pending in w.pending {
      AppendedHasKeys(w.rows, StartRow(e.pending.start.key, e.agentIP, e.now));
    }
  }

  // ----- runs in which the execution lock serialises ordinary starts -----

  function TaskOf(key: LogKey): TaskID {
    TaskID(key.project, key.taskID)
  }

  /** A running report is sent under the task's lock (unless the task is "noseize"), not twice at a time, and the
      lock is kept until the report has been handled; no call fails, and a task is "noseize" for all or none. */
  ghost predicate Serial(w: World, e: Event, noseize: TaskID -> bool) {
    match e
    case Check(start) =>
      && start.noseize == noseize(TaskOf(start.key))
      && (!start.noseize ==> TaskOf(start.key) in w.locks && w.locks[TaskOf(start.key)] == start.key.tmpID)
      && forall p :: p in w.pending ==> p.start.key != start.key
    case Insert(_, _, _, fault) => fault.NoFault?
    case Unchecked(_) => false
    case LoseLock(task) => forall p :: p in w.pending && !p.start.noseize ==> TaskOf(p.start.key) != task
    case _ => true
  }

  /** Pending ordinary starts hold their locks, and nothing that clashes with a pending start is accepted. */
  ghost predicate PendingIsSafe(w: World, p: Pending, noseize: TaskID -> bool) {
    && w.pending[p] == 1
    && p.start.noseize == noseize(TaskOf(p.start.key))
    && (!p.start.noseize ==> TaskOf(p.start.key) in w.locks && w.locks[TaskOf(p.start.key)] == p.start.key.tmpID)
    && (forall q :: q in w.pending && q.start.key == p.start.key ==> q == p)
    && forall i :: 0 <= i < |w.accepted| ==> !Clashes(w, i, p.start)
  }

  ghost predicate Serialised(w: World, noseize: TaskID -> bool) {
    && Good(w) && AllLogged(w) && NoRepeats(w.accepted)
    && KindsAgree(w.accepted, noseize)
    && forall p :: p in w.pending ==> PendingIsSafe(w, p, noseize)
  }

  lemma SerialCheck(w: World, e: Event, noseize: TaskID -> bool)
    requires Serialised(w, noseize) && Serial(w, e, noseize) && e.Check? && !AlreadyStarted(w.rows, e.start)
    ensures forall p :: p in Step(w, e).pending ==> PendingIsSafe(Step(w, e), p, noseize)
  {
    var next, added := Step(w, e), Pending(e.start, |w.accepted|);
    CheckIsNew(w, e.start);
    forall p | p in next.pending ensures PendingIsSafe(next, p, noseize) {
      assert p != added ==> PendingIsSafe(w, p, noseize);
      assert forall i: nat :: Clashes(next, i, p.start) == Clashes(w, i, p.start);
      assert p == added ==> forall i :: 0 <= i < |w.accepted| ==> !Clashes(w, i, p.start);
    }
  }

  /** Two pending starts that clash hold the same lock under the same tmp id, so they are one. */
  lemma PendingDoNotClash(w: World, p: Pending, q: Pending, noseize: TaskID -> bool)
    requires p in w.pending && q in w.pending && p != q
    requires PendingIsSafe(w, p, noseize) && PendingIsSafe(w, q, noseize)
    ensures !Repeats(p.start, q.start)
  {
    assert SameTask(p.start.key, q.start.key) ==> TaskOf(p.start.key) == TaskOf(q.start.key);
  }

  lemma SerialInsert(w: World, e: Event, noseize: TaskID -> bool)
    requires Serialised(w, noseize) && Serial(w, e, noseize) && e.Insert? && e.pending in w.pending
    ensures !Untimely(w, e)
    ensures forall q :: q in Step(w, e).pending ==> PendingIsSafe(Step(w, e), q, noseize)
  {
    var next, p := Step(w, e), e.pending;
    assert PendingIsSafe(w, p, noseize);
    forall q | q in next.pending ensures PendingIsSafe(next, q, noseize) {
      assert q in w.pending && q != p && PendingIsSafe(w, q, noseize);
      PendingDoNotClash(w, p, q, noseize);
      forall i | 0 <= i < |next.accepted| ensures !Clashes(next, i, q.start) {
        assert i < |w.accepted| ==> !Clashes(w, i, q.start);
      }
    }
  }

  lemma SerialOther(w: World, e: Event, noseize: TaskID -> bool)
    requires Serialised(w, noseize) && Serial(w, e, noseize)
    requires e.Upsert? || e.Lock? || e.LoseLock?
    ensures forall p :: p in Step(w, e).pending ==> PendingIsSafe(Step(w, e), p, noseize)
  {
    var next := Step(w, e);
    forall p | p in next.pending ensures PendingIsSafe(next, p, noseize) {
      assert PendingIsSafe(w, p, noseize);
      assert forall i: nat :: Clashes(next, i, p.start) == Clashes(w, i, p.start);
    }
  }

  lemma SerialIsSafe(w: World, e: Event, noseize: TaskID -> bool)
    requires Serialised(w, noseize) && Serial(w, e, noseize)
    ensures forall p :: p in Step(w, e).pending ==> PendingIsSafe(Step(w, e), p, noseize)
  {
    if e.Check? && !AlreadyStarted(w.rows, e.start) {
      SerialCheck(w, e, noseize);
    } else if e.Insert? && e.pending in w.pending {
      SerialInsert(w, e, noseize);
    } else if !e.Check? && !e.Insert? {
      SerialOther(w, e, noseize);
    }
  }

  lemma SerialKeepsOnce(w: World, e: Event, noseize: TaskID -> bool)
    requires Serialised(w, noseize) && Serial(w, e, noseize)
    ensures NoRepeats(Step(w, e).accepted)
  {
    if e.Insert? && e.pending in w.pending {
      SerialInsert(w, e, noseize);
    }
    StepKeepsOnceIff(w, e);
  }

  ghost predicate KindsAgree(accepted: seq<Accepted>, noseize: TaskID -> bool) {
    forall i :: 0 <= i < |accepted| ==> accepted[i].start.noseize == noseize(TaskOf(accepted[i].start.key))
  }

  lemma SerialKeepsKinds(w: World, e: Event, noseize: TaskID -> bool)
    requires Serialised(w, noseize) && Serial(w, e, noseize)
    ensures KindsAgree(Step(w, e).accepted, noseize)
  {
    if e.Insert? && e.pending in w.pending {
      assert PendingIsSafe(w, e.pending, noseize);
    }
  }

  lemma StepStaysSerialised(w: World, e: Event, noseize: TaskID -> bool)
    requires Serialised(w, noseize) && Serial(w, e, noseize)
    ensures Serialised(Step(w, e), noseize)
  {
    assert Good(Step(w, e)) by { StepIsGood(w, e); }
    assert AllLogged(Step(w, e)) by { LoggedStep(w, e); }
    assert NoRepeats(Step(w, e).accepted) by { SerialKeepsOnce(w, e, noseize); }
    assert KindsAgree(Step(w, e).accepted, noseize) by { SerialKeepsKinds(w, e, noseize); }
    SerialIsSafe(w, e, noseize);
  }

  /** Where the lock does its work, the log does too, checks and inserts interleaved as they may be. */
  lemma {:induction false} LockedRunsStartOnce(events: seq<Event>, noseize: TaskID -> bool)
    requires forall k :: 0 <= k < |events| ==> Serial(Run(START, events[..k]), events[k], noseize)
    ensures Serialised(Run(START, events), noseize)
    ensures NoRepeats(Run(START, events).accepted)
  {
    if events != [] {
      var n := |events| - 1;
      var front := events[..n];
      forall k | 0 <= k < n ensures Serial(Run(START, front[..k]), front[k], noseize) {
        assert front[..k] == events[..k] && front[k] == events[k];
      }
      LockedRunsStartOnce(front, noseize);
      assert Serial(Run(START, events[..n]), events[n], noseize);
      StepStaysSerialised(Run(START, front), events[n], noseize);
    }
  }

  // ----- and runs in which it does not -----

  /** A run given by the states it passes through. */
  lemma {:induction false} RunTrace(states: seq<World>, events: seq<Event>, k: nat)
    requires |states| == |events| + 1 && k <= |events|
    requires forall i :: 0 <= i < |events| ==> Step(states[i], events[i]) == states[i + 1]
    ensures Run(states[0], events[..k]) == states[k]
  {
    if k > 0 {
      RunTrace(states, events, k - 1);
      var upto := events[..k];
      assert upto[..k - 1] == events[..k - 1] && Step(states[k - 1], events[k - 1]) == states[k - 1 + 1];
    }
  }

  lemma {:induction false} RunConcat(w: World, a: seq<Event>, b: seq<Event>)
    ensures Run(w, a + b) == Run(Run(w, a), b)
  {
    if b == [] {
      assert a + b == a;
    } else {
      var n := |b| - 1;
      assert (a + b)[..|a + b| - 1] == a + b[..n] && (a + b)[|a + b| - 1] == b[n];
      RunConcat(w, a, b[..n]);
    }
  }

  lemma AppendedHasOnly(rows: seq<LogRow>, row: LogRow, key: LogKey)
    ensures HasKey(rows + [row], key) ==> HasKey(rows, key) || key == row.key
  {
    if HasKey(rows + [row], key) {
      var i :| 0 <= i < |rows + [row]| && (rows + [row])[i].key == key;
      assert i < |rows| ==> rows[i].key == key;
    }
  }

  function InsertBoth(a: Start, b: Start, at: nat, agentIP: string, now: int): seq<Event> {
    [Insert(Pending(a, at), agentIP, now, NoFault), Insert(Pending(b, at), agentIP, now, NoFault)]
  }

  lemma BothAreAccepted(w: World, a: Start, b: Start, at: nat, agentIP: string, now: int)
    requires multiset{Pending(a, at), Pending(b, at)} <= w.pending && Repeats(a, b)
    requires !HasKey(w.rows, a.key) && !HasKey(w.rows, b.key)
    ensures var last := Run(w, InsertBoth(a, b, at, agentIP, now));
            && last.accepted == w.accepted + [Accepted(a, true), Accepted(b, true)]
            && !NoRepeats(last.accepted)
            && last.rows == w.rows + [StartRow(a.key, agentIP, now)] +
                            if a.key == b.key then [] else [StartRow(b.key, agentIP, now)]
  {
    var events, p, q := InsertBoth(a, b, at, agentIP, now), Pending(a, at), Pending(b, at);
    var one := w.rows + [StartRow(a.key, agentIP, now)];
    var two := one + if a.key == b.key then [] else [StartRow(b.key, agentIP, now)];
    var next := World(one, w.pending - multiset{p}, w.accepted + [Accepted(a, true)], w.locks);
    var last := World(two, w.pending - multiset{p} - multiset{q}, next.accepted + [Accepted(b, true)], w.locks);
    assert Step(w, events[0]) == next by {
      InsertIsAccepted(w, p, agentIP, now);
    }
    assert Step(next, events[1]) == last by {
      assert (w.pending - multiset{p})[q] > 0;
      AppendedHasOnly(w.rows, StartRow(a.key, agentIP, now), b.key);
      AppendedHasKeys(w.rows, StartRow(a.key, agentIP, now));
      InsertIsAccepted(next, q, agentIP, now);
    }
    RunTrace([w, next, last], events, 2);
    assert events[..2] == events;
    LastTwoRepeat(w.accepted, Accepted(a, true), Accepted(b, true));
    assert last.accepted == w.accepted + [Accepted(a, true), Accepted(b, true)];
  }

  lemma InsertIsAccepted(w: World, p: Pending, agentIP: string, now: int)
    requires p in w.pending
    ensures Step(w, Insert(p, agentIP, now, NoFault)) ==
            World(w.rows + (if HasKey(w.rows, p.start.key) then [] else [StartRow(p.start.key, agentIP, now)]),
                  w.pending - multiset{p}, w.accepted + [Accepted(p.start, true)], w.locks)
  {
    AppendedHasKeys(w.rows, StartRow(p.start.key, agentIP, now));
    assert w.rows + [] == w.rows;
  }

  lemma LastTwoRepeat(accepted: seq<Accepted>, x: Accepted, y: Accepted)
    requires Repeats(x.start, y.start)
    ensures !NoRepeats(accepted + [x, y])
  {
    var all := accepted + [x, y];
    assert Repeats(all[|accepted|].start, all[|accepted| + 1].start);
  }

  /** Whenever two starts that clash are both unknown to the log, with equal keys or not, their checks may both come
      before either insert, and then both are accepted. */
  lemma RacingStarts(w: World, a: Start, b: Start, agentIP: string, now: int)
    requires !AlreadyStarted(w.rows, a) && !AlreadyStarted(w.rows, b) && Repeats(a, b)
    ensures var last := Run(w, [Check(a), Check(b)] + InsertBoth(a, b, |w.accepted|, agentIP, now));
            && last.accepted == w.accepted + [Accepted(a, true), Accepted(b, true)]
            && !NoRepeats(last.accepted)
            && last.rows == w.rows + [StartRow(a.key, agentIP, now)] +
                            if a.key == b.key then [] else [StartRow(b.key, agentIP, now)]
  {
    NoTaskNoKey(w.rows, a.key);
    NoTaskNoKey(w.rows, b.key);
    var checks, one := [Check(a), Check(b)], Step(w, Check(a));
    RunTrace([w, one, Step(one, Check(b))], checks, 2);
    assert checks[..2] == checks;
    RunConcat(w, [Check(a), Check(b)], InsertBoth(a, b, |w.accepted|, agentIP, now));
    BothAreAccepted(Run(w, [Check(a), Check(b)]), a, b, |w.accepted|, agentIP, now);
  }

  /** A lock taken and lost between check and insert, and taken by the next start. */
  function LostLock(a: Start, b: Start): seq<Event> {
    [Lock(TaskOf(a.key), a.key.tmpID), Check(a), LoseLock(TaskOf(a.key)), Lock(TaskOf(a.key), b.key.tmpID), Check(b)]
  }

  /** For an ordinary task it takes the loss of a lock between check and insert, and nothing else: the second start
      takes the lock, and both are accepted. */
  lemma LostLockRace(a: Start, b: Start, agentIP: string, now: int)
    requires !a.noseize && !b.noseize && SameTask(a.key, b.key) && a.key.tmpID != b.key.tmpID
    ensures forall k :: 0 <= k < 5 ==>
              (Serial(Run(START, LostLock(a, b)[..k]), LostLock(a, b)[k], _ => false) <==> k != 2)
    ensures var last := Run(START, LostLock(a, b) + InsertBoth(a, b, 0, agentIP, now));
            last.accepted == [Accepted(a, true), Accepted(b, true)] && !NoRepeats(last.accepted)
  {
    var events, states := LostLock(a, b), LostLockStates(a, b);
    LostLockSteps(a, b);
    forall k | 0 <= k < 5 ensures Serial(Run(START, events[..k]), events[k], _ => false) <==> k != 2 {
      RunTrace(states, events, k);
      LostLockIsSerialBut(a, b, k);
    }
    RunTrace(states, events, 5);
    assert events[..5] == events;
    RunConcat(START, events, InsertBoth(a, b, 0, agentIP, now));
    BothAreAccepted(states[5], a, b, 0, agentIP, now);
  }

  function LostLockStates(a: Start, b: Start): seq<World> {
    var task, p, q := TaskOf(a.key), Pending(a, 0), Pending(b, 0);
    [START, World([], multiset{}, [], map[task := a.key.tmpID]), World([], multiset{p}, [], map[task := a.key.tmpID]),
     World([], multiset{p}, [], map[]), World([], multiset{p}, [], map[task := b.key.tmpID]),
     World([], multiset{p, q}, [], map[task := b.key.tmpID])]
  }

  lemma LostLockSteps(a: Start, b: Start)
    ensures var states, events := LostLockStates(a, b), LostLock(a, b);
            forall i :: 0 <= i < 5 ==> Step(states[i], events[i]) == states[i + 1]
  {
    var states, events := LostLockStates(a, b), LostLock(a, b);
    forall i | 0 <= i < 5 ensures Step(states[i], events[i]) == states[i + 1] {
      if i == 1 || i == 4 {
        UnknownIsPending(states[i], if i == 1 then a else b);
        assert multiset{} + multiset{Pending(a, 0)} == multiset{Pending(a, 0)};
        assert multiset{Pending(a, 0)} + multiset{Pending(b, 0)} == multiset{Pending(a, 0), Pending(b, 0)};
      } else {
        LockMoves(a, b, i);
      }
    }
  }

  lemma UnknownIsPending(w: World, start: Start)
    requires w.rows == []
    ensures Step(w, Check(start)) == w.(pending := w.pending + multiset{Pending(start, |w.accepted|)})
  {
  }

  lemma LockMoves(a: Start, b: Start, i: nat)
    requires i == 0 || i == 2 || i == 3
    ensures Step(LostLockStates(a, b)[i], LostLock(a, b)[i]) == LostLockStates(a, b)[i + 1]
  {
    assert map[TaskOf(a.key) := a.key.tmpID] - {TaskOf(a.key)} == map[];
  }

  lemma LostLockIsSerialBut(a: Start, b: Start, k: nat)
    requires k < 5 && !a.noseize && !b.noseize && SameTask(a.key, b.key) && a.key.tmpID != b.key.tmpID
    ensures Serial(LostLockStates(a, b)[k], LostLock(a, b)[k], _ => false) <==> k != 2
  {
  }
}
