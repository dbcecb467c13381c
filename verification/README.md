# Scheduling protocols of gopherCron

gopherCron is a distributed cron service: a center keeps plans and task state in etcd and SQL, and agents
run the commands. This project models the protocols that decide what runs, when, and how often, and proves
what they keep in every run.

| file | what it models |
|---|---|
| `TaskStates.dfy` | the state record of a workflow task, its append-only log, and the four transactions on it |
| `DependencyGraph.dfy` | dependency graphs: cycles, blocked tasks, stuck sets |
| `Scheduling.dfy` | the decision pass `CanSchedule` over a plan |
| `WorkflowEngine.dfy` | the engine as it interleaves, with any number of centers: passes, queued starts, reports, clearing |
| `WorkflowCompletion.dfy` | which plans can be run to completion |
| `WorkflowClosing.dfy` | closing a plan while other work is still on its way |
| `DoneTasks.dfy` | when a done task stays done |
| `StartCounts.dfy` | how often a task can be started |
| `WorkflowRunner.dfy` | the runner's methods, executed without interruption |
| `RunnerSteps.dfy` | the runner's passes and closes as runs of the interleaved engine |
| `PlanRows.dfy` | plans as rows: flattening, validation, regrouping |
| `LeaseLock.dfy` | the lease-based lock with inheritance by the same owner, and the gap between its two calls |
| `OutputPipeline.dfy` | two scanners, a bounded channel and a consumer collecting a command's output |
| `ResponseRendezvous.dfy` | matching agents' replies to waiting requests |
| `StreamRegistry.dfy` | the registry of agents' streams |
| `CronPass.dfy` | the agent's cron table and its pass |
| `TemporaryTasks.dfy` | the worker for one-off tasks |
| `WeightedChoice.dfy` | choosing a node in proportion to its weight |
| `StartLog.dfy` | the task log as a guard against double starts: check, insert, and the execution lock |
| `EtcdKeys.dfy` | key texts and the prefix deletes that clear a workflow |

Code that runs alone is a method of a class with the source's fields, proved against functions of the old
state. Code that interleaves is a step function on a state value built from the same functions, with
lemmas about every sequence of steps. The clock, the cron library's "next time", the random draw, lock
probes and the outcome of calls to etcd, SQL and agents are parameters. JSON text is modelled by the record
it encodes.

Nine things the code does not do in general are stated with the exact condition under which it does:

- after a clear, all runs up to the next one keep dependency order exactly when no start with a dependency is
  queued or marked at any center and no pass may still queue one (`ClearKeepsOrderIff`; each of the three
  breaks it from reachable states: `StaleEventBreaksOrder`, `StaleStartBreaksOrder`, `StalePassBreaksOrder`,
  `StaleWorkIsReachable`, `ClearCanBreakOrder`);
- a workflow whose keys are gone stays cleared exactly when no center holds a start that has seen the plan
  running (`NoResurrectionIff`);
- a done task stays done in a step exactly when the step is not one of four unguarded writes
  (`DoneSurvivesIff`), and in all runs without a clear or another running report on it exactly when no center is
  past its checks for a start of it or in a pass that has read it as running (`DoneStaysDoneIff`,
  `LateReportTakesBack`, `SecondStartTakesBack`);
- the limit of three starts is no cap (`AnyNumberOfStarts`): the bound is three, plus the put-backs, plus the
  start events queued beyond those the record called for (`StartsAreBounded`);
- the lock's owner stays for as long as its lease exactly when no inheriting put overwrites the key
  (`StepIsExclusiveIff`, `EveryStepIsExclusiveIff`, `GapCanReplaceOwner`), and a condition on the events that
  rules this out (`OwnerIsNeverReplaced`);
- a start is accepted at most once exactly when no accepted start clashes with one accepted since its check or
  left out of the log (`StartsAtMostOnceIff`, `RacingStarts`, `LostLockRace`), which the execution lock ensures
  where it is kept (`LockedRunsStartOnce`);
- a cron pass leaves every plan in the future exactly when every due expression has a next time
  (`TrySchedule`, `SpentCronStaysDue`);
- after a tick of the one-off worker, no continuation reports a task twice exactly when the tick marked every
  task it reported as expired (`TickIsSafeIff`, `UnmarkedIsReportedAgain`, `DoubleReport`);
- deleting a plan key as a prefix also deletes the plan keys of every id it begins
  (`PlanKeyHitsIff`, `TextBeginsIff`, `ClearingOneDeletesPlanTwelve`).

## Model

| member | source | states |
|---|---|---|
| TaskStates.StartReplays | app/schedule.go:299-340 | a start keeps count and status equal to a replay of the log, adds one to the count, and opens a new record with its start time |
| TaskStates.RunAndRequeueReplay | app/schedule.go:245-297 | a running report and a put-back keep the record equal to the replay of its log |
| TaskStates.FinishReplaysIff | app/schedule.go:196-243 | a finish report keeps the record equal to the replay exactly when its status is one the record can act on |
| TaskStates.PlanFailsOnEntryToFail | app/schedule.go:213-242 | "plan finished" is answered exactly in the step that enters fail, never before three starts; a failed record has used up its starts |
| TaskStates.ReplayedFailIsExhausted | app/workflow.go:1174-1179 | a log that replays to fail holds at least three starts, one that replays to done holds a done record |
| TaskStates.EverySequenceReplays | app/schedule.go:196-340 | after every sequence of the four transactions with meaningful reports, count and status replay the log and fail implies three starts |
| TaskStates.LogIsAppendOnly | app/schedule.go:217-224 | a transaction appends at most one record carrying its own attempt, text, time and agent, keeps the earlier log and the start time, and moves the end time only when a report settles the task |
| TaskStates.WorkflowStore.SetPlanRunning | app/schedule.go:466-500 | the plan is running with the latest try now; the start time is kept across a restart |
| TaskStates.WorkflowStore.SetTaskStarting | app/schedule.go:299-340 | the new store: one record started, created if absent; replay kept |
| TaskStates.WorkflowStore.SetTaskRunning | app/schedule.go:273-297 | fails exactly on an absent record, else marks it running whatever its status was; replay kept |
| TaskStates.WorkflowStore.SetTaskNotRunning | app/schedule.go:245-271 | puts a present record back, ignores an absent one; replay kept |
| TaskStates.WorkflowStore.SetTaskFinished | app/schedule.go:196-243 | settled and absent records are left alone; otherwise done, failed or back to not running; answers whether the plan failed |
| DependencyGraph.BlockedIffStuck | app/workflow.go:1089-1103 | a task waits, through dependencies, for a cycle or an unlisted task exactly when it lies in a set whose listed members each wait for another member |
| DependencyGraph.NothingBlockedIff | app/workflow.go:1083-1103 | no listed task is blocked exactly when the plan is acyclic and names only listed dependencies |
| Scheduling.WorkflowPlan.CanSchedule | app/workflow.go:1059-1210 | busy iff locked; failed iff some task with all dependencies done is failed or starting with three starts; otherwise succeeded iff all done; otherwise exactly the startable tasks, each once, none of them started, failed or put back within the debounce window or with a start under way; lost tasks and no others are put back |
| Scheduling.WorkflowPlan.Visit | app/workflow.go:1105-1203 | for one eligible task: give up iff exhausted, schedule iff ready, put back iff lost; a task not running with two records or more is scheduled exactly when the latest is timeout plus two seconds old |
| Scheduling.ReadyTasksAreRested | app/workflow.go:1111-1200 | in the fields of the record: a task is startable exactly when its dependencies are done, it is neither done nor running, no start of it is under way, and the record that counts is timeout plus two seconds old |
| Scheduling.FailedTaskWaits | app/workflow.go:1180-1186 | after a failed try with starts left a task is started again exactly from timeout plus two seconds on |
| Scheduling.StartedTaskWaits | app/workflow.go:1187-1200 | so is a started task nobody reports on, unless a start of it is under way; after its third start the plan fails instead |
| Scheduling.RunningTaskWaits | app/workflow.go:1111-1172 | a running task is never started; it is put back exactly from then on, and only when its lock is found gone and the kill succeeds |
| Scheduling.PutBackTaskWaits | app/workflow.go:1154-1172 | after a put-back, recorded under the latest attempt, a task is started again exactly from then on, whatever its count |
| Scheduling.DependenciesDone | app/workflow.go:1089-1099 | true iff every dependency with an id is done |
| Scheduling.VerdictIsUnique | app/workflow.go:1083-1210 | the answer does not depend on the map's iteration order: right answers agree, ready lists up to order |
| Scheduling.SomeTaskIsEligible | app/workflow.go:1083-1103 | in an acyclic plan whose dependencies are listed, while something is not done some not-done task has all its dependencies done |
| Scheduling.ReadyListIsNonEmpty | app/workflow.go:1174-1203 | such a plan with nothing starting or running and all debounce windows over has a task to start |
| Scheduling.FailedTasksAreExhausted | app/workflow.go:1174-1179 | the fall-through for a failed task with starts left is unreachable on records that replay their logs |
| Scheduling.PassKeepsReplay | app/workflow.go:1154-1172 | a pass keeps every record the replay of its log, and a running record has a latest entry to name |
| WorkflowEngine.DependencyOrder | app/workflow.go:957-973 | in every interleaving of any number of centers, from a fresh start up to the clear, a task with a record or a start on its way has a done record in the log of each dependency |
| WorkflowEngine.StepKeepsOrder | app/schedule.go:27-73 | every single step of any center other than the clear keeps that order |
| WorkflowClosing.ClearKeepsOrderIff | app/schedule.go:502-516 | after the clear, all runs without another clear keep records in dependency order exactly when no center then has a queued or marked start with a dependency, and no pass may still queue one; starts on their way are then in order too |
| WorkflowClosing.StaleEventBreaksOrder | app/schedule.go:36-62 | a start event queued before a clear goes through after a restart, with the dependency unrecorded |
| WorkflowClosing.StaleStartBreaksOrder | app/schedule.go:28-47 | so does a start that was marked as in process before the clear |
| WorkflowClosing.StalePassBreaksOrder | app/workflow.go:928-949 | so does what a pass of another center, begun before the clear, finds ready |
| WorkflowClosing.StaleWorkIsReachable | app/workflow.go:957-973 | from a fresh start a two-task plan runs to states with such an event, such a marked start, and such a pass |
| WorkflowClosing.ClearCanBreakOrder | app/schedule.go:502-516 | so a run from a fresh start, with a clear and a restart, starts a task whose dependency is unrecorded |
| WorkflowEngine.StuckTasksNeverStart | app/workflow.go:1089-1103 | no member of a stuck set is recorded, queued or started at any center in any run, clears and restarts included |
| WorkflowEngine.BlockedTaskNeverStarts | app/workflow.go:305-335 | a task on or behind a cycle never gets a record, so no pass of such a plan finds everything done |
| WorkflowCompletion.CanSucceedIff | app/workflow.go:928-975 | from a fresh start some run completes the plan exactly when it is acyclic and self-contained |
| WorkflowCompletion.DriveToSuccess | app/workflow.go:928-975 | from any state in which everything recorded is done, whatever the plan key says and the centers are at, an acyclic self-contained plan can be run to completion |
| WorkflowEngine.DoneSurvivesIff | app/schedule.go:286-297 | a done task stays done in a step exactly when the step is not a running report on it, a start or put-back past its check, or the clear |
| DoneTasks.DoneStaysDoneIff | app/schedule.go:245-340 | a done task stays done in all runs without a clear or another running report on it exactly when no center is then past its checks for a start of it, or in a pass that read it as running with its dependencies done |
| DoneTasks.LateReportTakesBack | app/schedule.go:286-297 | a run from a fresh start in which a running report comes after the finish report and takes the task back |
| DoneTasks.SecondStartTakesBack | app/schedule.go:55-73 | a run from a fresh start, without any running report, in which a second start is past its checks when the task becomes done |
| StartCounts.StartsAreBounded | app/workflow.go:1154-1203 | in every run of any number of centers a task is started at most three times, plus once per put-back, plus once per start event queued while another start was on its way or after one the pass did not see |
| StartCounts.AnyNumberOfStarts | app/workflow.go:1154-1172 | for every number a run from a fresh start reaches it, without any extra start event: a task put back is ready again whatever its count |
| WorkflowEngine.StartsStayApart | app/schedule.go:28-34 | in every run no two starts of one task id are under way at once on one center |
| WorkflowEngine.EveryRunReplays | app/workflow.go:1174-1186 | in every run of the engine all records replay their logs, and a failed task a pass looks at has no start left |
| WorkflowEngine.ReadyTasksMayLaunch | app/schedule.go:55-60 | a task the pass calls ready is not turned away by the status check of the start |
| WorkflowClosing.ClearingClears | app/workflow.go:881-885 | once a close has deleted the plan key and no center has a start past its plan check, any run without a restart keeps the workflow half cleared or clears it, and the delete of the task keys then leaves it cleared |
| WorkflowClosing.NoResurrection | app/schedule.go:36-47 | a cleared workflow with no start past its plan check stays without plan and task keys under any late reports, repairs, passes and queued starts of any center until it is set running again |
| WorkflowClosing.NoResurrectionIff | app/schedule.go:36-62 | a workflow whose keys are gone stays so in all runs without a restart exactly when no center holds a start that has seen the plan running |
| WorkflowClosing.GoneSurvivesIff | app/schedule.go:55-73 | the only steps that bring a key back are setting the plan running and the transaction of a start past both checks |
| WorkflowRunner.Runner.TryStartPlan | app/workflow.go:977-996 | starts exactly a plan that is absent, not marked running, or whose latest try lies further back than the next turn lies ahead; the leader then runs a pass over it with the effect of `ScheduleWorkflowPlan`, another center nothing more; unless that pass closes it, the plan counts as running |
| WorkflowEngine.RunningUpToHalfway | app/workflow.go:1500-1515 | a plan counts as running exactly up to halfway from its latest try to its next turn |
| WorkflowEngine.UntouchedPlanStops | app/workflow.go:1500-1515 | with turns at most a gap apart, a plan untouched for longer has stopped counting; one tried within the time left to the turn counts |
| WorkflowEngine.StoppedStaysStopped | app/workflow.go:1500-1515 | once it has stopped counting it does not count again before that turn |
| WorkflowClosing.StalePlanStartsNothing | app/schedule.go:36-47 | in every run without a restart, a plan untouched for longer than the gap between turns starts nothing: queued and marked starts of any center are turned away |
| WorkflowRunner.Runner.ScheduleTask | app/schedule.go:27-73 | starts exactly when the id is not in process, the plan is running (its latest try no further back than the next turn lies ahead) and the status allows; the in-process set is restored |
| WorkflowRunner.Runner.Finish | app/workflow.go:802-921 | without a plan key nothing happens; otherwise the log keeps every record, the keys go, and with an error exactly the tasks recorded as starting or running are named to be killed |
| WorkflowRunner.Runner.ScheduleWorkflowPlan | app/workflow.go:928-975 | the pass runs over the refreshed graph; a plan that goes on keeps its key with its lost tasks put back, and the leader sends exactly the ready list; one that failed or succeeded is closed over the records the pass left, with exactly its active tasks to be killed on failure |
| WorkflowRunner.Runner.HandleTaskResult | app/workflow.go:1410-1456 | a report that fails the plan closes it over the reported records and starts nothing; otherwise key and records are those after the report, and the leader runs a pass over them with the effect of `ScheduleWorkflowPlan`, which does not start a task that has just failed |
| WorkflowRunner.ScheduleTaskIsFourSteps | app/schedule.go:27-73 | the uninterrupted start equals the interleaved steps run back to back |
| RunnerSteps.PassIsSteps | app/workflow.go:928-975 | whatever an uninterrupted pass and its close leave in plan key, records and start events, steps of the interleaved engine leave too |
| RunnerSteps.FinishIsSteps | app/workflow.go:802-921 | an uninterrupted close equals the interleaved steps run back to back |
| RunnerSteps.DoAllIsRun | app/workflow.go:928-975 | such steps of one center are a run of the engine that leaves the other centers alone |
| PlanRows.Flatten | app/workflow.go:280-303 | a row for exactly each named dependency, as often as it is named, and one placeholder row per entry without any |
| Scheduling.WorkflowPlan.RefreshPlanTasks | app/workflow.go:998-1049 | with a newest row, the graph in memory is that of the rows iff the newest creation time changed or it was so already; without one the graph is empty |
| PlanRows.PlanRoundTrip | app/workflow.go:1021-1042 | whatever order rows come back in, the graph has exactly the submitted tasks with exactly the dependencies named, or the placeholder alone |
| PlanRows.Validate | app/workflow.go:305-335 | accepts iff no two rows of a task clash and every row with a dependency names a listed task and an existing owner; each refusal names its cause, a clash the task of the first row that clashes with an earlier one |
| PlanRows.NoClashForProperRows | app/workflow.go:313-316 | for dependencies with project and id the clash check means: no pair twice, and no placeholder beside another row |
| PlanRows.AcceptedIff | app/workflow.go:280-335 | with such dependencies a submitted plan is accepted iff no task names a dependency twice, says "none" twice or says both, every named dependency is submitted, and every task with dependencies exists |
| PlanRows.CyclesAreAccepted | app/workflow.go:305-335 | two tasks that wait for each other pass the checks |
| WorkflowCompletion.AcceptedPlanSucceedsIff | app/workflow.go:320-326 | a plan that passed the checks can be completed from a fresh start exactly when it is acyclic |
| LeaseLock.Locker.TryLockWithOwner | pkg/etcd/locker.go:84-173 | succeeds iff the key is free or the owner's own and no call it makes fails; a failed attempt changes the key exactly when a failing call took effect (and was not revoked), never to another owner; exactly when it leaves a lease behind |
| LeaseLock.Locker.Unlock | pkg/etcd/locker.go:186-195 | drops the locker's lease, and the key only if it hangs on that lease; a second unlock does nothing, and neither does one whose revoke fails |
| LeaseLock.Locker.LockExist | pkg/etcd/locker.go:175-183 | answers no exactly when an undisturbed attempt would succeed for every owner, and otherwise one would succeed for the holder alone |
| LeaseLock.StepIsExclusiveIff | pkg/etcd/locker.go:135-172 | with transaction and inheriting put as separate events, a step keeps "the owner stays while its lease lasts" exactly when it is not a put that lands on another owner's key, or fails, takes effect and is revoked |
| LeaseLock.EveryStepIsExclusiveIff | pkg/etcd/locker.go:135-172 | a run keeps it at every step exactly when it holds no such put |
| LeaseLock.OwnerIsNeverReplaced | pkg/etcd/locker.go:141-166 | in every run in which nothing removes the key while a locker with a live lease is between its transaction and its put, the owner is never replaced |
| LeaseLock.InheritedLockSurvives | pkg/etcd/locker.go:150-166 | the owner keeps the lock under any events that neither end the lease the key hangs on at the time nor overwrite it |
| LeaseLock.LockedWithKey | pkg/etcd/locker.go:135-172 | a locker comes to be locked only with the key in its owner's name and on its own lease, itself alive |
| LeaseLock.OlderLeaseIsHarmless | app/etcd_test.go:29-107 | after inheritance, revoking or expiring the older lease leaves the key |
| LeaseLock.GapCanReplaceOwner | pkg/etcd/locker.go:141-166 | a run of five events after which lockers of two owners are locked at once on live leases |
| OutputPipeline.OutputMergesPrefixes | agent/executer.go:23-75 | in every interleaving the channel is closed at most once, iff both scanners are gone, nothing is sent after, and output with channel merges prefixes of both streams in order |
| OutputPipeline.UncancelledOutputIsComplete | agent/executer.go:44-73 | without cancellation a stopped consumer holds the complete merge of stdout and stderr |
| OutputPipeline.SomeoneCanMove | agent/executer.go:34-42 | no deadlock: until all have gone some goroutine can move |
| OutputPipeline.StepUsesWork | agent/executer.go:26-49 | every enabled step uses up some of a bounded amount of work |
| OutputPipeline.RunsToCompletion | agent/executer.go:54-75 | every reachable state can be run to the end without a cancellation, and that end has the complete merge unless there was one before |
| OutputPipeline.MergeKeepsLines | agent/executer.go:44-73 | a merge holds every line of both streams exactly as often as they do, each stream in its order |
| ResponseRendezvous.EveryRunIsGood | app/registry.go:246-328 | in every interleaving the "full" panic is unreachable, nothing is sent on a closed channel, none is closed twice, a waiter gets at most one reply, which is the event that was sent and has its own id, and the table leads to waiting requests only |
| ResponseRendezvous.SentEventIsTaken | app/registry.go:311-327 | whatever else happens, an event on the channel of a waiting request is the reply it takes, unless it leaves on its context or because sending failed |
| ResponseRendezvous.RequestIsAnswered | app/registry.go:246-328 | from every good state a new request, a delivery of its event, the hand-over and the receive end with that waiter holding that event, and the id gone from the table |
| ResponseRendezvous.DeliveryIsTaken | app/registry.go:270-292 | so does a delivery for any waiting request that the table leads to and that has been handed nothing |
| ResponseRendezvous.NobodyGivesUpEarly | app/registry.go:311-327 | nobody gives up while the context is alive, unless the request could not be sent |
| ResponseRendezvous.WaiterCanLeave | app/registry.go:311-327 | a waiter whose context is done or whose channel is closed can leave, with the reply if there is one |
| ResponseRendezvous.AnswerIsFinal | app/registry.go:311-327 | a waiter that has left keeps its answer |
| ResponseRendezvous.OpenKeepsReachableIff | app/registry.go:250-264 | registering a request keeps every waiting one reachable exactly when none of them has its id |
| ResponseRendezvous.WaitingRequestsAreReachable | app/registry.go:298-310 | with ids distinct among outstanding requests every waiting request is found in the table |
| StreamRegistry.LateRemovalIsHarmless | app/registry.go:108-120 | removals of other registrations never undo a newer one, and its host still finds it |
| StreamRegistry.SavedIsFound | app/registry.go:78-106 | a host, by name and port, finds what was saved for it last; others are left alone |
| StreamRegistry.StreamManager.SaveStream | app/registry.go:78-106 | keeps both maps equal to what the history of calls makes them, with no empty inner map |
| StreamRegistry.StreamManager.RemoveStream | app/registry.go:108-120 | the same for a removal |
| StreamRegistry.StreamManager.GetStreamsByHost | app/registry.go:122-131 | the registration saved last for the host, iff it has not been removed since |
| StreamRegistry.StreamManager.GetStreams | app/registry.go:133-146 | exactly the registered streams of the project and service |
| CronPass.TaskScheduler.SaveTask | agent/scheduler.go:271-288 | an enabled task gets a plan for its next time, or keeps its old plan if the expression does not parse; any other is taken out |
| CronPass.TaskScheduler.TrySchedule | agent/scheduler.go:298-337 | with a positive weight starts exactly the enabled plans whose time has come, once each under the old time, and otherwise nothing; these plans move on to their next time, as in the step of the runs below; all plan times are then in the future iff every due expression has a next time, and the delay is then positive and the least |
| CronPass.SpentCronStaysDue | agent/scheduler.go:310-325 | once the plan of an expression without a next time is due, it stays due and every later pass of a working agent starts it, over any events that do not save or remove it |
| CronPass.StartsStrictlyIncrease | agent/scheduler.go:298-337 | over any saves, removals and passes with a non-decreasing clock, starts under one key carry strictly increasing plan times, re-saves included |
| TemporaryTasks.TemporaryTaskStore.CreateTemporaryTask | app/temporary_task.go:21-31 | refuses exactly a schedule time that has passed |
| TemporaryTasks.TemporaryTaskStore.GetNeedToSchedule | app/temporary_task.go:33-45 | lists the waiting tasks of this minute and the previous one (less its first second): none a minute early or two minutes late, and every one that came due within the last minute |
| TemporaryTasks.TemporaryTaskStore.GetExpired | app/temporary_task.go:47-58 | lists exactly the waiting tasks that are due a minute later and that the other query does not list then |
| TemporaryTasks.TemporaryTaskStore.Tick | app/app.go:545-597 | exactly which tasks are dispatched, reported expired and left waiting: of those that came due within the last minute exactly the ones found and marked are dispatched; every dispatch is less than 60 s early and 120 s late; with all calls successful nothing below the end of the minute stays waiting |
| TemporaryTasks.TickSweeps | app/temporary_task.go:33-58 | window and overdue rule leave no gap |
| TemporaryTasks.StepSettlesIff | app/app.go:580-595 | a tick leaves no reported task waiting exactly when every task it reports as expired is marked |
| TemporaryTasks.TickIsSafeIff | app/app.go:580-595 | after a tick, no continuation with new keys, later markings successful and a clock that does not run back gives a task two outcomes, exactly when the tick marked everything it reported as expired |
| TemporaryTasks.StepKeepsAtMostOnceIff | app/app.go:545-597 | a tick keeps "at most one outcome per task" exactly when it reports no task reported before |
| TemporaryTasks.UnmarkedIsReportedAgain | app/app.go:580-595 | an expired task that was reported and not marked is reported again by the next tick that is no earlier |
| TemporaryTasks.DoubleReport | app/app.go:580-595 | a run of one task and two ticks that reports it twice |
| TemporaryTasks.EachTaskEndsOnce | app/app.go:545-597 | for any spacing of ticks each task is dispatched or reported at most once, if the tasks that expire can be marked |
| WeightedChoice.ChooseNode | app/micro.go:349-371 | the node into whose share the draw falls; the final fallback is unreachable; no node for an empty list, a panic for a total that is not positive |
| WeightedChoice.ProportionalIff | app/micro.go:361-367 | of the possible draws each node gets exactly its weight, for all nodes, iff no weight is negative |
| WeightedChoice.ChoiceIsUnique | app/micro.go:361-367 | a draw selects one node, never one of weight zero |
| StartLog.TaskLogTable.CheckOrCreateScheduleLog | pkg/store/sqlStore/task_log_partition.go:157-200 | uninterrupted: refuses exactly when a row has the plan time, project and task of the start, and for "noseize" tasks its tmp id too; fails exactly with a failing statement, the insert itself never collides |
| StartLog.TaskLogTable.CreateOrUpdateTaskLog | pkg/store/sqlStore/task_log_partition.go:101-127 | inserts, or updates only the four result columns; rows stay unique and none is lost |
| StartLog.TaskLogTable.AdmitStart | app/schedule.go:649-667 | refuses exactly a start the log was consulted for and is known to have; a failing statement lets it through |
| StartLog.StepKeepsOnceIff | pkg/store/sqlStore/task_log_partition.go:170-200 | with check and insert as separate events, a step keeps "accepted at most once" exactly when it does not accept a start that clashes with one accepted since its check or left out of the log |
| StartLog.StartsAtMostOnceIff | app/schedule.go:649-667 | a run, failing and skipped checks included, accepts no start twice exactly when no step does that; rows stay unique throughout |
| StartLog.RefusedIffRepeats | pkg/store/sqlStore/task_log_partition.go:157-188 | in every run in which results are written for accepted starts only, a check refuses a start exactly when it repeats an accepted start whose key is in the log |
| StartLog.NoseizeStartsAreAllAccepted | pkg/store/sqlStore/task_log_partition.go:161-168 | any number of "noseize" starts with keys of their own are all accepted |
| StartLog.StartsAtMostOnce | app/schedule.go:649-667 | so it holds for every run in which no call fails and nothing is accepted between a check and its insert |
| StartLog.LockedRunsStartOnce | agent/scheduler.go:415-417 | and for every run in which ordinary starts report under the execution lock and keep it until the report is handled, checks and inserts interleaved as they may be |
| StartLog.RacingStarts | pkg/store/sqlStore/task_log_partition.go:170-188 | any two clashing starts unknown to the log, with equal keys or not, are both accepted if both checks come before either insert |
| StartLog.LostLockRace | cmd/service/rpc.go:109-116 | two ordinary starts are both accepted in a run that meets the lock condition but for one lock lost between check and insert |
| EtcdKeys.TaskIndexIsInjective | common/model.go:154-156 | two tasks have the same index text only if they are the same |
| EtcdKeys.TaskStatePrefixHitsIff | common/protocol.go:219-225 | the task-key prefix of a workflow begins the task keys of that workflow and no other, for all ids and names |
| EtcdKeys.TaskStateKeyIsInjective | common/protocol.go:219-225 | no two tasks of any workflows share a task key, whatever their ids contain |
| EtcdKeys.PlanKeyHitsIff | common/protocol.go:292-294 | a plan key begins another exactly when the one id's text begins the other's |
| EtcdKeys.TextBeginsIff | common/protocol.go:292-294 | that is, exactly when the one id is the other with final digits dropped |
| EtcdKeys.ClearingOneDeletesPlanTwelve | app/schedule.go:504-513 | clearing workflow 1 hits the plan key of workflow 12 |
| EtcdKeys.KeyStore.ClearWorkflowKeys | app/schedule.go:502-516 | exactly the workflow's task keys go, and exactly the plan keys whose id text it begins |
| EtcdKeys.StatusKeyRoundTripIff | common/protocol.go:254-260 | a status key reads back to its project and task exactly when the task id has no slash |

## Left out

- The graph of a plan is fixed while the engine runs; saving a plan during a run (possible once it no longer counts as running) is not modelled.
- In the engine, store errors appear as a pass, start or close that is aborted at any point, a clear between its two deletes included; the class methods of the runner take their store calls to succeed.
- LeaseLock.Locker.TryLockWithOwner: the class method runs without interruption; a lease is taken to be alive from its grant to the transaction of the same attempt. Plain `TryLock` uses the empty owner, so all its callers inherit from each other.
- OutputPipeline.UncancelledOutputIsComplete: the streams are the lines the scanners yield; a scanner that stops early on an over-long line is seen as a shorter stream. The trimming and cutting of the final text is not modelled.
- StreamRegistry.StreamManager.SaveStream: registration keys are tuples, not the formatted text, which is ambiguous for names containing the separators.
- StartLog.StartsAtMostOnceIff: the log is never purged; the comparison of agent versions that decides whether it is consulted is a parameter, and so is the holder of the execution lock, which `LeaseLock` models.
- CronPass.StartsStrictlyIncrease: covers plans started from the table; tasks triggered by hand and workflow starts do not go through it.
- TemporaryTasks.TemporaryTaskStore.Tick: "dispatched" means marked and handed over; whether an agent takes the task, and the failure report if none does, is not modelled.
- WeightedChoice.ChooseNode: sums are unbounded; the source adds 32-bit weights in 64 bits.
- Progress of `TryStartTask` and of the agents' lock loop, which do not always answer.
- The status key written beside a running report, and the doctor that repairs it.
- The workflow runner's own cron loop, which mirrors the agents' pass.
- The queue in `pkg/queue`, leader election, webhooks, permissions, user interface, transport, metrics, logging and configuration.
