/** The per-task state record of a running workflow and the four transactions that change it
    (app/schedule.go). The JSON text kept in etcd is modelled by the record it encodes, and the
    identity fields of the record by the key it is stored under. */
module TaskStates {
  import opened Basics

  /** A task that failed is tried again until it has been started this many times. */
  const SCHEDULE_LIMIT: nat := 3

  datatype Status = NotRunning | Starting | Running | Done | Fail

  /** The status an agent reports is free text; only the five texts above mean anything. */
  datatype Reported = Known(status: Status) | Unknown(text: string)

  datatype Record = Record(tmpID: string, result: string, status: Reported, eventTime: int, agentIP: string)

  datatype TaskState = TaskState(
    current: Status, count: nat, command: string, startTime: int, endTime: int, records: seq<Record>)

  type States = map<Task, TaskState>

  datatype Report = Report(tmpID: string, status: Reported, result: string)

  /** What is stored under the plan key; `running` is "the stored status is the running text". */
  datatype PlanState = PlanState(startTime: int, latestTryTime: int, running: bool)

  function Find(states: States, t: Task): Option<TaskState> {
    if t in states then Some(states[t]) else None
  }

  predicate Settled(s: TaskState) {
    s.current.Done? || s.current.Fail?
  }

  // ----- the transitions, on one record -----

  function Started(prior: Option<TaskState>, command: string, tmpID: string, now: int): TaskState {
    var entry := Record(tmpID, "", Known(Starting), now, "");
    match prior
    case None => TaskState(Starting, 1, command, now, 0, [entry])
    case Some(s) => s.(current := Starting, count := s.count + 1, records := s.records + [entry])
  }

  function Ran(s: TaskState, tmpID: string, agentIP: string, now: int): TaskState {
    s.(current := Running, records := s.records + [Record(tmpID, "", Known(Running), now, agentIP)])
  }

  function Requeued(s: TaskState, tmpID: string, reason: string, now: int): TaskState {
    s.(current := NotRunning, records := s.records + [Record(tmpID, reason, Known(NotRunning), now, "")])
  }

  /** The finish report fails the whole plan: the task failed and has no start left. */
  predicate FailsPlan(s: TaskState, report: Report) {
    !Settled(s) && report.status == Known(Fail) && s.count >= SCHEDULE_LIMIT
  }

  function Finished(s: TaskState, agentIP: string, report: Report, now: int): TaskState {
    if Settled(s) then s else
    var logged := s.(records := s.records + [Record(report.tmpID, report.result, report.status, now, agentIP)]);
    match report.status
    case Known(Fail) =>
      if s.count >= SCHEDULE_LIMIT then logged.(current := Fail, endTime := now) else logged.(current := NotRunning)
    case Known(Done) => logged.(current := Done, endTime := now)
    case _ => logged
  }

  // ----- the same facts read off the append-only log alone -----

  function Starts(log: seq<Record>): nat {
    if log == [] then 0
    else Starts(log[..|log| - 1]) + if log[|log| - 1].status == Known(Starting) then 1 else 0
  }

  /** The status a log stands for: its last meaningful record, where a failure counts as one only when
      the starts are used up. */
  function StatusOf(log: seq<Record>): Status {
    if log == [] then NotRunning else
    match log[|log| - 1].status
    case Unknown(_) => StatusOf(log[..|log| - 1])
    case Known(Fail) => if Starts(log) >= SCHEDULE_LIMIT then Fail else NotRunning
    case Known(status) => status
  }

  ghost predicate HasDone(log: seq<Record>) {
    exists i :: 0 <= i < |log| && log[i].status == Known(Done)
  }

  ghost predicate Replays(s: TaskState) {
    s.count == Starts(s.records) && s.current == StatusOf(s.records)
  }

  ghost predicate AllReplay(states: States) {
    forall t :: t in states ==> Replays(states[t])
  }

  lemma AppendToLog(log: seq<Record>, entry: Record)
    ensures Starts(log + [entry]) == Starts(log) + if entry.status == Known(Starting) then 1 else 0
    ensures StatusOf(log + [entry]) ==
            match entry.status
            case Unknown(_) => StatusOf(log)
            case Known(Fail) => if Starts(log) >= SCHEDULE_LIMIT then Fail else NotRunning
            case Known(status) => status
  {
    assert (log + [entry])[..|log|] == log;
  }

  lemma StartReplays(prior: Option<TaskState>, command: string, tmpID: string, now: int)
    requires prior.Some? ==> Replays(prior.value)
    ensures Replays(Started(prior, command, tmpID, now))
    ensures Started(prior, command, tmpID, now).count == (if prior.None? then 0 else prior.value.count) + 1
    ensures prior.None? ==>
              var s := Started(prior, command, tmpID, now);
              s.startTime == now && s.endTime == 0 && s.command == command && |s.records| == 1
  {
    var log := if prior.None? then [] else prior.value.records;
    var entry := Record(tmpID, "", Known(Starting), now, "");
    AppendToLog(log, entry);
    assert [] + [entry] == [entry];
  }

  lemma RunAndRequeueReplay(s: TaskState, tmpID: string, text: string, now: int)
    requires Replays(s)
    ensures Replays(Ran(s, tmpID, text, now))
    ensures Replays(Requeued(s, tmpID, text, now))
  {
    AppendToLog(s.records, Record(tmpID, "", Known(Running), now, text));
    AppendToLog(s.records, Record(tmpID, text, Known(NotRunning), now, ""));
  }

  /** A report may call itself "starting", "running" or "not running"; such a record is logged without
      being acted on, so the log and the record part ways. */
  predicate Actionable(s: TaskState, report: Report) {
    || Settled(s)
    || report.status.Unknown?
    || report.status.status.Done?
    || report.status.status.Fail?
    || (report.status.status == s.current && !s.current.Starting?)
  }

  /** Exactly the actionable reports keep the record equal to the replay of its log. */
  lemma FinishReplaysIff(s: TaskState, agentIP: string, report: Report, now: int)
    requires Replays(s)
    ensures Replays(Finished(s, agentIP, report, now)) <==> Actionable(s, report)
  {
    if !Settled(s) {
      var entry := Record(report.tmpID, report.result, report.status, now, agentIP);
      AppendToLog(s.records, entry);
      var next := Finished(s, agentIP, report, now);
      var log := s.records + [entry];
      assert next.records == log && next.count == Starts(s.records);
      assert Replays(next) <==> Starts(log) == next.count && StatusOf(log) == next.current;
    }
  }

  /** "The whole plan has failed" is answered exactly in the step that enters `Fail`, and never before
      three starts are in the log. */
  lemma PlanFailsOnEntryToFail(s: TaskState, agentIP: string, report: Report, now: int)
    requires Replays(s)
    ensures FailsPlan(s, report) <==> !s.current.Fail? && Finished(s, agentIP, report, now).current.Fail?
    ensures FailsPlan(s, report) ==>
              Starts(s.records) >= SCHEDULE_LIMIT && Finished(s, agentIP, report, now).endTime == now
    ensures s.current.Fail? ==> s.count >= SCHEDULE_LIMIT
  {
    ReplayedFailIsExhausted(s.records);
  }

  lemma {:induction false} ReplayedFailIsExhausted(log: seq<Record>)
    ensures StatusOf(log).Fail? ==> Starts(log) >= SCHEDULE_LIMIT
    ensures StatusOf(log).Done? ==> HasDone(log)
    ensures !StatusOf(log).NotRunning? ==> log != []
  {
    if log != [] {
      var front := log[..|log| - 1];
      ReplayedFailIsExhausted(front);
      if StatusOf(log).Done? {
        if log[|log| - 1].status.Unknown? {
          var i :| 0 <= i < |front| && front[i].status == Known(Done);
          assert log[i].status == Known(Done);
        } else {
          assert log[|log| - 1].status == Known(Done);
        }
      }
    }
  }

  // ----- every sequence of transactions on one key -----

  datatype Transaction =
    | Start(command: string, tmpID: string, now: int)
    | Run(tmpID: string, agentIP: string, now: int)
    | Requeue(tmpID: string, reason: string, now: int)
    | Finish(agentIP: string, report: Report, now: int)

  /** Only a start creates the record; the other three leave an absent record absent. */
  function Apply(prior: Option<TaskState>, tx: Transaction): Option<TaskState> {
    match tx
    case Start(command, tmpID, now) => Some(Started(prior, command, tmpID, now))
    case Run(tmpID, agentIP, now) => if prior.None? then None else Some(Ran(prior.value, tmpID, agentIP, now))
    case Requeue(tmpID, reason, now) => if prior.None? then None else Some(Requeued(prior.value, tmpID, reason, now))
    case Finish(agentIP, report, now) => if prior.None? then None else Some(Finished(prior.value, agentIP, report, now))
  }

  function ApplyAll(prior: Option<TaskState>, txs: seq<Transaction>): Option<TaskState> {
    if txs == [] then prior else Apply(ApplyAll(prior, txs[..|txs| - 1]), txs[|txs| - 1])
  }

  /** Agents report done or fail (agent/scheduler.go); a text the center does not know is harmless too. */
  predicate Meaningful(tx: Transaction) {
    tx.Finish? ==> tx.report.status.Unknown? || tx.report.status.status.Done? || tx.report.status.status.Fail?
  }

  lemma {:induction false} EverySequenceReplays(txs: seq<Transaction>)
    requires forall tx :: tx in txs ==> Meaningful(tx)
    ensures var s := ApplyAll(None, txs);
            s.Some? ==> Replays(s.value) && (s.value.current.Fail? ==> s.value.count >= SCHEDULE_LIMIT)
  {
    if txs != [] {
      var front := txs[..|txs| - 1];
      EverySequenceReplays(front);
      ApplyReplays(ApplyAll(None, front), txs[|txs| - 1]);
      var s := ApplyAll(None, txs);
      if s.Some? {
        ReplayedFailIsExhausted(s.value.records);
      }
    }
  }

  lemma ApplyReplays(prior: Option<TaskState>, tx: Transaction)
    requires prior.Some? ==> Replays(prior.value)
    requires Meaningful(tx)
    ensures Apply(prior, tx).Some? ==> Replays(Apply(prior, tx).value)
  {
    match tx
    case Start(command, tmpID, now) =>
      StartReplays(prior, command, tmpID, now);
    case Run(tmpID, agentIP, now) =>
      if prior.Some? { RunAndRequeueReplay(prior.value, tmpID, agentIP, now); }
    case Requeue(tmpID, reason, now) =>
      if prior.Some? { RunAndRequeueReplay(prior.value, tmpID, reason, now); }
    case Finish(agentIP, report, now) =>
      if prior.Some? { FinishReplaysIff(prior.value, agentIP, report, now); }
  }

  /** The log only grows: a transaction adds at most one record, stamped with its own attempt, time,
      agent and text, and never rewrites an earlier one. The end time moves exactly when a report settles
      the task. */
  lemma LogIsAppendOnly(prior: TaskState, tx: Transaction)
    ensures Apply(Some(prior), tx).Some?
    ensures var next := Apply(Some(prior), tx).value;
            && next.startTime == prior.startTime && next.command == prior.command
            && (next == prior || |next.records| == |prior.records| + 1)
            && next.records[..|prior.records|] == prior.records
            && (next != prior ==>
                  next.records[|prior.records|] ==
                  match tx
                  case Start(_, tmpID, now) => Record(tmpID, "", Known(Starting), now, "")
                  case Run(tmpID, agentIP, now) => Record(tmpID, "", Known(Running), now, agentIP)
                  case Requeue(tmpID, reason, now) => Record(tmpID, reason, Known(NotRunning), now, "")
                  case Finish(agentIP, report, now) => Record(report.tmpID, report.result, report.status, now, agentIP))
            && (next == prior <==> tx.Finish? && Settled(prior))
            && next.endTime == if tx.Finish? && !Settled(prior) && Settled(next) then tx.now else prior.endTime
  {
    var next := Apply(Some(prior), tx).value;
    assert next != prior ==> |next.records| == |prior.records| + 1;
  }

  // ----- the store, changed in place -----

  /** The keys of one workflow in etcd: its plan key and one key per task that has been started. */
  class WorkflowStore {
    var plan: Option<PlanState>
    var states: States

    constructor ()
      ensures plan == None && states == map[]
    {
      plan, states := None, map[];
    }

    method SetPlanRunning(now: int)
      modifies this`plan
      ensures plan.Some? && plan.value.running && plan.value.latestTryTime == now
      ensures plan.value.startTime == if old(plan).None? then now else old(plan).value.startTime
      ensures plan == Some(Restarted(old(plan), now))
    {
      var planState;
      if plan.None? {
        planState := PlanState(now, now, true);
      } else {
        planState := plan.value;
        planState := planState.(latestTryTime := now);
        planState := planState.(running := true);
      }
      plan := Some(planState);
    }

    method SetTaskStarting(t: Task, command: string, tmpID: string, now: int)
      modifies this`states
      ensures states == old(states)[t := Started(Find(old(states), t), command, tmpID, now)]
      ensures old(AllReplay(states)) ==> AllReplay(states)
    {
      var entry := Record(tmpID, "", Known(Starting), now, "");
      StartReplaysIfStored(states, t, command, tmpID, now);
      if t !in states {
        states := states[t := TaskState(Starting, 1, command, now, 0, [entry])];
      } else {
        var value := states[t];
        value := value.(current := Starting);
        value := value.(count := value.count + 1);
        value := value.(records := value.records + [entry]);
        states := states[t := value];
      }
    }

    /** The only transaction that answers an absent record with an error. */
    method SetTaskRunning(t: Task, tmpID: string, agentIP: string, now: int) returns (ok: bool)
      modifies this`states
      ensures ok <==> t in old(states)
      ensures states == if ok then old(states)[t := Ran(old(states)[t], tmpID, agentIP, now)] else old(states)
      ensures old(AllReplay(states)) ==> AllReplay(states)
    {
      if t !in states {
        return false;
      }
      var value := states[t];
      if Replays(value) { RunAndRequeueReplay(value, tmpID, agentIP, now); }
      value := value.(current := Running);
      value := value.(records := value.records + [Record(tmpID, "", Known(Running), now, agentIP)]);
      states := states[t := value];
      return true;
    }

    method SetTaskNotRunning(t: Task, tmpID: string, reason: string, now: int)
      modifies this`states
      ensures states ==
              if t in old(states) then old(states)[t := Requeued(old(states)[t], tmpID, reason, now)] else old(states)
      ensures old(AllReplay(states)) ==> AllReplay(states)
    {
      if t !in states {
        return;
      }
      var value := states[t];
      if Replays(value) { RunAndRequeueReplay(value, tmpID, reason, now); }
      value := value.(current := NotRunning);
      value := value.(records := value.records + [Record(tmpID, reason, Known(NotRunning), now, "")]);
      states := states[t := value];
    }

    method SetTaskFinished(t: Task, agentIP: string, report: Report, now: int) returns (planFinished: bool)
      modifies this`states
      ensures states ==
              if t in old(states) then old(states)[t := Finished(old(states)[t], agentIP, report, now)] else old(states)
      ensures planFinished <==> t in old(states) && FailsPlan(old(states)[t], report)
      ensures old(AllReplay(states)) && (t in old(states) ==> Actionable(old(states)[t], report)) ==> AllReplay(states)
    {
      planFinished := false;
      if t !in states {
        return;
      }
      var value := states[t];
      if Replays(value) { FinishReplaysIff(value, agentIP, report, now); }
      if value.current == Done || value.current == Fail {
        assert states[t := value] == states;
        return;
      }
      value := value.(records := value.records + [Record(report.tmpID, report.result, report.status, now, agentIP)]);
      if report.status == Known(Fail) {
        if value.count >= SCHEDULE_LIMIT {
          value := value.(current := Fail);
          value := value.(endTime := now);
          planFinished := true;
        } else {
          value := value.(current := NotRunning);
        }
      } else if report.status == Known(Done) {
        value := value.(current := Done);
        value := value.(endTime := now);
      }
      states := states[t := value];
    }

    method Clear()
      modifies this
      ensures plan == None && states == map[]
    {
      plan := None;
      states := map[];
    }
  }

  function Restarted(plan: Option<PlanState>, now: int): PlanState {
    match plan
    case None => PlanState(now, now, true)
    case Some(p) => p.(latestTryTime := now, running := true)
  }

  lemma StartReplaysIfStored(states: States, t: Task, command: string, tmpID: string, now: int)
    ensures AllReplay(states) ==> Replays(Started(Find(states, t), command, tmpID, now))
  {
    if AllReplay(states) {
      StartReplays(Find(states, t), command, tmpID, now);
    }
  }
}
