/** The runner's own methods, executed without interruption: start or refuse a plan, start one task, run a
    decision pass and act on its answer, and close a plan (app/workflow.go, app/schedule.go). */
module WorkflowRunner {
  import opened Basics
  import opened TaskStates
  import opened DependencyGraph
  import opened Scheduling
  import PlanRows
  import WorkflowEngine

  /** What is written to the workflow log when a plan is closed. */
  datatype FinalState = FinalState(startTime: int, endTime: int, records: States)

  function Active(states: States): set<Task> {
    set t | t in states && (states[t].current.Starting? || states[t].current.Running?)
  }

  /** What one call of `scheduleWorkflowPlan` answers and does: the pass's verdict, the start events sent, and
      the log and kill list if it closed the plan. */
  datatype Outcome = Outcome(verdict: Verdict, events: seq<Task>, log: Option<FinalState>, killed: set<Task>)

  /** A close without a plan key does nothing; otherwise the log keeps every record, the keys go, and with an
      error exactly the starting and running tasks are named to be killed. */
  ghost predicate Closed(plan: Option<PlanState>, states: States, withError: bool, now: int,
                         log: Option<FinalState>, killed: set<Task>, plan': Option<PlanState>, states': States)
  {
    && plan'.None?
    && (plan.None? ==> log.None? && killed == {} && states' == states)
    && (plan.Some? ==>
          && states' == map[]
          && log == Some(FinalState(plan.value.startTime, now, states))
          && killed == if withError then Active(states) else {})
  }

  /** From plan key and records before to those after: a plan that goes on keeps its key, has its lost tasks put
      back, and the leader sends exactly the ready list; one that failed or succeeded is closed over the records
      the pass left (`swept`), and nothing is sent. */
  ghost predicate Scheduled(flow: Flow, plan: Option<PlanState>, states: States, see: Glances, timeout: int, now: int,
                            leader: bool, o: Outcome, plan': Option<PlanState>, states': States)
  {
    && Answers(o.verdict, flow, states, see, timeout)
    && o.events == (if o.verdict.Ready? && leader then o.verdict.tasks else [])
    && if o.verdict.Ready? then
         && plan' == plan && o.log.None? && o.killed == {}
         && Swept(flow, states, see, timeout, states', true)
       else
         exists swept ::
           && Swept(flow, states, see, timeout, swept, o.verdict.Succeeded?)
           && Closed(plan, swept, o.verdict.Failed?, now, o.log, o.killed, plan', states')
  }

  class Runner {
    var inProcess: set<string>
    var isLeader: bool

    constructor (leader: bool)
      ensures inProcess == {} && isLeader == leader
    {
      inProcess, isLeader := {}, leader;
    }

    /** A plan that counts as running is left alone; another is set running, and the leader runs a pass over it
        (unless the plan is locked by then). `pass` is the clock of that pass. */
    method TryStartPlan(store: WorkflowStore, plan: WorkflowPlan, rows: seq<PlanRows.Row>, latest: Option<int>,
                        see: Glances, timeout: int, now: int, next: int, pass: int)
      returns (started: bool, outcome: Option<Outcome>)
      requires RunningIsLogged(store.states)
      modifies store, plan`taskFlow, plan`planUpdateTime
      ensures started <==> !WorkflowEngine.IsRunning(old(store.plan), now, next)
      ensures old(store.plan).None? || !old(store.plan).value.running ==> started
      ensures old(store.plan).Some? && now - old(store.plan).value.latestTryTime > next - now ==> started
      ensures (old(store.plan).Some? && old(store.plan).value.running
               && now - old(store.plan).value.latestTryTime <= next - now) ==> !started
      ensures outcome.Some? <==> started && isLeader
      ensures outcome.None? ==>
                && plan.taskFlow == old(plan.taskFlow) && plan.planUpdateTime == old(plan.planUpdateTime)
                && store.plan == (if started then Some(Restarted(old(store.plan), now)) else old(store.plan))
                && store.states == old(store.states)
      ensures outcome.Some? ==>
                && plan.taskFlow ==
                   PlanRows.RefreshedFlow(old(plan.taskFlow), old(plan.planUpdateTime), rows, latest)
                && (if plan.locked
                    then outcome.value == Outcome(Busy, [], None, {})
                         && store.plan == Some(Restarted(old(store.plan), now)) && store.states == old(store.states)
                    else Scheduled(plan.taskFlow, Some(Restarted(old(store.plan), now)), old(store.states),
                                   see, timeout, pass, true, outcome.value, store.plan, store.states))
      ensures started && store.plan.Some? && now <= next ==> WorkflowEngine.IsRunning(store.plan, now, next)
    {
      if WorkflowEngine.IsRunning(store.plan, now, next) {
        return false, None;
      }
      store.SetPlanRunning(now);
      if !isLeader {
        return true, None;
      }
      var o := ScheduleWorkflowPlan(store, plan, rows, latest, see, timeout, pass);
      return true, Some(o);
    }

    /** Handling of one start event; a second event for a task id that is already in process is dropped. */
    method ScheduleTask(store: WorkflowStore, t: Task, command: string, tmpID: string, now: int, next: int)
      returns (launched: bool)
      modifies this`inProcess, store`states
      ensures inProcess == old(inProcess)
      ensures launched <==>
              && t.id !in old(inProcess)
              && WorkflowEngine.IsRunning(store.plan, now, next)
              && (t in old(store.states) ==>
                    old(store.states)[t].current.NotRunning? || old(store.states)[t].current.Starting?)
      ensures launched ==>
                store.plan.Some? && store.plan.value.running && now - store.plan.value.latestTryTime <= next - now
      ensures store.states ==
              if launched then old(store.states)[t := Started(Find(old(store.states), t), command, tmpID, now)]
              else old(store.states)
    {
      launched := false;
      if t.id in inProcess {
        return;
      }
      inProcess := inProcess + {t.id};
      if WorkflowEngine.IsRunning(store.plan, now, next) {
        if t !in store.states || store.states[t].current == NotRunning || store.states[t].current == Starting {
          store.SetTaskStarting(t, command, tmpID, now);
          launched := true;
        }
      }
      inProcess := inProcess - {t.id};
    }

    /** Close a plan: log every record, clear the keys, and name the tasks to be killed. */
    method Finish(store: WorkflowStore, withError: bool, now: int) returns (log: Option<FinalState>, killed: set<Task>)
      modifies store
      ensures Closed(old(store.plan), old(store.states), withError, now, log, killed, store.plan, store.states)
      ensures old(store.plan).Some? ==>
                && log.Some? && log.value.records == old(store.states)
                && log.value.startTime == old(store.plan).value.startTime && log.value.endTime == now
      ensures forall t :: t in killed <==>
                && withError && old(store.plan).Some? && t in old(store.states)
                && (old(store.states)[t].current == Starting || old(store.states)[t].current == Running)
    {
      killed := {};
      if store.plan.None? {
        return None, {};
      }
      var states := store.states;
      var killList: set<Task> := {};
      var todo := states.Keys;
      while todo != {}
        invariant todo <= states.Keys
        invariant killList == Active(states) - todo
        decreases todo
      {
        var t :| t in todo;
        todo := todo - {t};
        if states[t].current == Starting {
          killList := killList + {t};
        } else if states[t].current == Running {
          killList := killList + {t};
        }
      }
      log := Some(FinalState(store.plan.value.startTime, now, states));
      store.Clear();
      if withError {
        killed := killList;
      }
    }

    /** Refresh the graph, run one pass over the plan, and act on its answer; only the leader sends start events. */
    method ScheduleWorkflowPlan(store: WorkflowStore, plan: WorkflowPlan, rows: seq<PlanRows.Row>, latest: Option<int>,
                                see: Glances, timeout: int, now: int)
      returns (o: Outcome)
      requires RunningIsLogged(store.states)
      modifies store, plan`taskFlow, plan`planUpdateTime
      ensures plan.taskFlow == PlanRows.RefreshedFlow(old(plan.taskFlow), old(plan.planUpdateTime), rows, latest)
      ensures plan.planUpdateTime == if latest.None? then 0 else latest.value
      ensures plan.locked ==>
                o == Outcome(Busy, [], None, {}) && store.plan == old(store.plan) && store.states == old(store.states)
      ensures !plan.locked ==>
                Scheduled(plan.taskFlow, old(store.plan), old(store.states), see, timeout, now, isLeader, o,
                          store.plan, store.states)
    {
      plan.RefreshPlanTasks(rows, latest);
      var verdict := plan.CanSchedule(store, see, timeout);
      ghost var swept := store.states;
      match verdict
      case Busy =>
        return Outcome(verdict, [], None, {});
      case Failed =>
        var log, killed := Finish(store, true, now);
        assert Swept(plan.taskFlow, old(store.states), see, timeout, swept, false);
        return Outcome(verdict, [], log, killed);
      case Succeeded =>
        var log, killed := Finish(store, false, now);
        assert Swept(plan.taskFlow, old(store.states), see, timeout, swept, true);
        return Outcome(verdict, [], log, killed);
      case Ready(tasks) =>
        return Outcome(verdict, if isLeader then tasks else [], None, {});
    }

    /** A finish report: record it, close the plan if the task has no start left, and otherwise let the leader
        run a pass over what the report left. */
    method HandleTaskResult(store: WorkflowStore, plan: WorkflowPlan, rows: seq<PlanRows.Row>, latest: Option<int>,
                            t: Task, agentIP: string, report: Report, see: Glances, timeout: int, now: int)
      returns (closed: Option<FinalState>, killed: set<Task>, outcome: Option<Outcome>)
      requires RunningIsLogged(store.states)
      modifies store, plan`taskFlow, plan`planUpdateTime
      ensures var planFailed := t in old(store.states) && FailsPlan(old(store.states)[t], report);
              var reported := AfterReport(old(store.states), t, agentIP, report, now);
              && (outcome.Some? <==> !planFailed && isLeader)
              && (planFailed ==>
                    Closed(old(store.plan), reported, false, now, closed, killed, store.plan, store.states))
              && (!planFailed ==> closed.None?) && killed == {}
              && (!planFailed && !isLeader ==> store.plan == old(store.plan) && store.states == reported)
              && (outcome.Some? ==>
                    && plan.taskFlow ==
                       PlanRows.RefreshedFlow(old(plan.taskFlow), old(plan.planUpdateTime), rows, latest)
                    && (if plan.locked
                        then outcome.value == Outcome(Busy, [], None, {})
                             && store.plan == old(store.plan) && store.states == reported
                        else Scheduled(plan.taskFlow, old(store.plan), reported, see, timeout, now, true,
                                       outcome.value, store.plan, store.states)))
      ensures (outcome.Some? && t in old(store.states) && old(store.states)[t].records != []
               && !Settled(old(store.states)[t]) && report.status == Known(Fail)
               && see(t).now < now + timeout + 2) ==> t !in outcome.value.events
    {
      var planFinished := store.SetTaskFinished(t, agentIP, report, now);
      if planFinished {
        closed, killed := Finish(store, false, now);
        return closed, killed, None;
      }
      if !isLeader {
        return None, {}, None;
      }
      ghost var reported := store.states;
      var o := ScheduleWorkflowPlan(store, plan, rows, latest, see, timeout, now);
      if t in reported {
        ReadyTasksAreRested(plan.taskFlow, reported, see, timeout, t);
      }
      return None, {}, Some(o);
    }
  }

  function AfterReport(states: States, t: Task, agentIP: string, report: Report, now: int): States {
    if t in states then states[t := Finished(states[t], agentIP, report, now)] else states
  }

  /** The uninterrupted start is the interleaved one with nothing in between. */
  lemma ScheduleTaskIsFourSteps(flow: Flow, v: WorkflowEngine.View, t: Task, command: string, tmpID: string,
                                now: int, next: int)
    requires v.me.lock.Free? && t in v.me.queued && t !in v.me.waiting
    ensures var marked := WorkflowEngine.Do(flow, v, WorkflowEngine.Dequeue(t));
            var admitted := WorkflowEngine.Do(flow, marked, WorkflowEngine.CheckPlan(t, now, next));
            var checked := WorkflowEngine.Do(flow, admitted, WorkflowEngine.CheckStatus);
            var last := WorkflowEngine.Do(flow, checked, WorkflowEngine.Launch(command, tmpID, now));
            && last.plan == v.plan && last.me == v.me.(queued := v.me.queued - multiset{t})
            && last.tasks ==
               if t.id !in WorkflowEngine.InProcess(v.me.waiting)
                  && WorkflowEngine.IsRunning(v.plan, now, next) && WorkflowEngine.MayLaunch(v.tasks, t)
               then v.tasks[t := Started(Find(v.tasks, t), command, tmpID, now)]
               else v.tasks
  {
    if t.id !in WorkflowEngine.InProcess(v.me.waiting) {
      assert v.me.waiting + {t} - {t} == v.me.waiting;
    }
  }
}
