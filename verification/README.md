# A verified model of the DAG scheduler

The scheduler accepts workflows of tasks with dependencies, keeps one record per
task in a BoltDB store, hands ready tasks to workers over a FIFO queue, and
rebuilds its volatile state from the store after a crash. This project models
the graph validation, the task store, the coordinator protocol with its
recovery, and the record codec in Dafny, and proves what they promise over whole
runs. `dafny verify dfyconfig.toml` checks everything.

## How the model is built

- **Graph validation** (`Dag.dfy`, over `Graph.dfy` and `Sums.dfy`): the loops of
  `dag.go` and the recursive three-colour search as methods, against
  reachability stated by walks.
- **Store** (`Store.dfy`): the three buckets as maps. Every `db.Update` is one
  transaction `Txn`, `Apply` is its effect. bbolt (go.mod:8) refuses an empty key
  and a key above 32768 bytes; a transaction that runs into one is rolled back.
  `StateStore.dfy` holds the class with the program's loops; each method is proved
  to perform its transaction, stated field by field, and keeps a ghost log of them.
- **Protocol** (`System.dfy`): a system is a store and a coordinator's volatile
  state. Each public method is an `Event`; `Txns` lists its transactions in
  order, `Step` is its whole effect. `Coordinator.dfy` holds the class with the
  program's statements; each method is proved to take exactly that step, by
  exactly these transactions in this order, which fixes the points of a crash.
- **Runs**: `IsRun` is any sequence of calls and restarts. `IsCrashRun` also lets
  the coordinator crash after any number of a call's transactions.
  `IsInterleaving` (`Interleaving.dfy`) splits calls at every lock region and
  every transaction and interleaves them freely; `Refinement.dfy` ties it to `Step`.
- **Invariants** come in layers: `StoreSafe` (`StoreSafety.dfy`) is kept by every
  permitted transaction, `Safe` (`Safety.dfy`) adds the coordinator and survives
  crashes inside calls, `Live` (`Liveness.dfy`) adds, workflow by workflow, what
  keeps it moving and holds between calls; `Foreign.dfy` shows that a call leaves
  other workflows alone at every point. `Progress`, `CrashRuns`, `Unlocking`,
  `CrashedCalls`, `History`, `Effects`, `Outcomes`, `Verdicts` and `Termination`
  draw the conclusions for calls that do not overlap.
- **Interleaved calls**: `Exactness` says which interleavings are safe, `Schedules`
  gives a schedule that suffices. `Custody` follows who holds each task and
  `Settling` who still has to act on a workflow; `InterleavedProgress` concludes.
  `Witnesses` and `Races` hold concrete runs.
- **Codec** (`Codec.dfy`): bytes, int32 and int64 as bounded types, the writer as
  concatenation, the reader with Go's short reads, end-of-input errors and panics
  on negative lengths. `Layout.dfy` fixes the stored bytes by offset and says what
  damaged records decode to; `Marshal.dfy` holds the program's writers and the
  cursor it reads with.

Whatever the program leaves open is a parameter: execution ids (`uuid.New`), the
order in which Go ranges over a map and the order of a bucket scan are part of
the event, so each theorem holds for all of them.

## Assumptions

- An accepted submission uses a workflow id and task ids that no stored workflow
  uses. Records are keyed by the bare task id and a second submission resets them
  (`History.ResubmissionResets`).
- Store calls do not fail for reasons of I/O, and stored values stay below bbolt's
  value limit. Refused keys, `ErrTaskNotFound` and `ErrStaleExecution` are modelled.
- Strings are valid UTF-8, as protobuf delivers and marshals them. A character of
  the model stands for a byte, so a key's length is its size.
- The failure policy is one of the three named values.
- Execution ids are never drawn twice. Only `History.StaleForever` needs it; the
  concrete runs of `Witnesses` respect it.
- Counters and list lengths stay below 2^31, so int32 counters are integers
  outside the codec.
- A dead worker may be reported for any worker at any time, which covers every
  heartbeat schedule.

## Where the code and its documentation disagree

The model follows the code.

- README.md:61 bounds failures by `max_retries`. `RequeueTask` does not store the
  attempt count, so a task fails for good only if its spec sets `MaxRetries` to 1
  (`Outcomes.FailureEndsOrRetries`, `Outcomes.FailuresUnbounded`,
  `Witnesses.FailuresExceedLimit`).
- README.md:65 and :88 let cancellation skip QUEUED and PENDING tasks only.
  `CancelWorkflowTasks` also skips RUNNING ones and leaves them handed out.
- README.md:92 calls all terminal states final. A task skipped while RUNNING can
  still be completed, failed or requeued; `History.Finality` says exactly which,
  `History.TerminalIsFinal` when none can, `Witnesses.VerdictCanFail` and
  `Witnesses.CompleteDespiteSkipped` that it happens.
- The comment at internal/store/task_state.go:333 says RUNNING tasks are not
  skipped. The code skips every non-terminal task; in reachable states only
  PENDING ones are there to skip (`Outcomes.SkipsExactlyDependents`).
- README.md:144 expects a store error for a duplicate workflow id. `StoreWorkflow`
  overwrites.
- A workflow without tasks is never checked for completion and stays
  WORKFLOW_RUNNING. So does one with a task id the store refuses: the submission
  fails after the workflow has been made active (`Verdicts.UnrunnableStuck`,
  `Witnesses.EmptyTaskIdStrands`).
- A cancelled workflow can still end WORKFLOW_COMPLETE, with SKIPPED tasks, when
  the result of a task cancelled while RUNNING comes in (`Verdicts.CancelledLeft`,
  `Witnesses.CompleteDespiteSkipped`).
- `CompleteTask` and `HandleDeadWorker` write outside the lock. One interleaving
  of the two turns a COMPLETE record QUEUED (`Races.LockingIsNotEnough`), another
  counts a completion twice (`Races.CountedTwice`). Keeping such calls apart is
  enough (`Schedules.OrderlySafety`, `InterleavedProgress.OrderlyProgress`).

## Model

| member | source | states |
|---|---|---|
| `Progress.DeadlockFreedom` | internal/coordinator/coordinator.go:177-515 | in every state of every run, a workflow in WORKFLOW_RUNNING has a task in the ready queue with a cached spec, or in a worker's hands, if and only if it has tasks and every task id is a key the store accepts |
| `Progress.GoingCanProgress` | internal/coordinator/coordinator.go:177-515 | the state-level form for one workflow: acyclicity, exact in-degrees, the skip closure and queue/store agreement together leave it something to run, exactly under that condition |
| `Verdicts.UnrunnableStuck` | internal/coordinator/coordinator.go:183-198 | from its submission until it is cancelled, a workflow without tasks, or with a task id that is empty or too long, is WORKFLOW_RUNNING and has nothing to run, in every run |
| `Witnesses.EmptyTaskIdStrands` | internal/store/task_state.go:38-40 | a run in which a named workflow whose one task has the empty id is left WORKFLOW_RUNNING and stuck |
| `Liveness.StepKeepsLive` | internal/coordinator/coordinator.go:177-604 | every call keeps the full invariant of the runs without mid-call crashes: no PENDING task below a FAILED or SKIPPED one, every QUEUED task of an active workflow queued and cached, every active workflow with unfinished work |
| `Liveness.RunLive` | internal/coordinator/coordinator.go:177-604 | that invariant holds in every state of every run |
| `Safety.StepKeepsSafe` | internal/coordinator/coordinator.go:177-604 | every call keeps store safety and the agreement of queue, running set, execution ids and caches with the store |
| `Safety.NothingReleasedBelow` | internal/store/task_state.go:334-377 | below a task that is not COMPLETE, no transitive dependent is QUEUED, RUNNING, COMPLETE or FAILED |
| `Safety.SkipsOnlyPending` | internal/store/task_state.go:334-377 | what the skip search marks below a task that is not COMPLETE is PENDING throughout, although the code would also take QUEUED and RUNNING tasks |
| `StoreSafety.TxnKeepsSafe` | internal/store/task_state.go:16-330 | every transaction that overwrites no COMPLETE record and releases only tasks with finished dependencies keeps dependency safety and the in-degree equation |
| `StoreSafety.CompletionKeepsSafe` | internal/store/task_state.go:148-179 | so does a completion: the loop over the downstream list restores the in-degree equation for every PENDING task and releases only tasks whose dependencies are all COMPLETE |
| `Safety.StepPermitted` | internal/coordinator/coordinator.go:177-604 | each transaction of each call meets those conditions at the moment it runs |
| `CrashRuns.CrashRunSafe` | internal/coordinator/recovery.go:14-53 | store and coordinator agree in every state of every run in which the coordinator may crash between any two transactions, those of recovery included |
| `CrashRuns.DependencySafety` | internal/store/task_state.go:114-185 | in every such state a QUEUED, RUNNING, COMPLETE or FAILED task has all its declared dependencies COMPLETE |
| `CrashRuns.InDegreeConservation` | internal/store/task_state.go:148-179 | in every such state the stored in-degree of a PENDING task is the number of entries of its dependency list, with multiplicity, that are not COMPLETE |
| `CrashRuns.ClampNeverFires` | internal/store/task_state.go:159-166 | at every position of the downstream loop of a first completion the in-degree about to be lowered is positive, so the clamp at zero changes nothing |
| `CrashRuns.ActCompletes` | internal/coordinator/coordinator.go:280-342 | a call, cut short or not, completes at most the task whose success it reports and takes COMPLETE from no task |
| `CrashRuns.CompletedBefore` | internal/store/task_state.go:114-185 | whatever is COMPLETE became so at one earlier step and stays so for the rest of the run |
| `CrashRuns.CompletionsFollowDependencies` | internal/store/task_state.go:114-185 | the completions of any run are a linear extension of the dependency order: each task completes at most once, on its own reported success, after every one of its dependencies has completed |
| `Unlocking.UnlockIsAtomic` | README.md:57 | wherever the coordinator crashes, a PENDING task that declares a dependency declares one that is not COMPLETE: no completion is left without its dependents unlocked |
| `CrashedCalls.CrashProgress` | internal/coordinator/recovery.go:14-53 | in every state of every run, wherever crashes fell, an active workflow can make progress if and only if the store has a QUEUED or RUNNING task of it |
| `CrashedCalls.OnlyOwnStranded` | internal/coordinator/recovery.go:14-53 | deadlock freedom with crashes at any transaction boundary: as long as none cut a call about this workflow short, the workflow when active can make progress if and only if it has tasks whose ids are keys; a call cut short strands only its own workflow |
| `CrashedCalls.StuckForever` | internal/coordinator/recovery.go:14-53 | an active workflow with nothing to run stays so through every later call, crash and restart until it is cancelled |
| `Foreign.ForeignPrefix` | internal/coordinator/coordinator.go:177-604 | after any number of a call's transactions, a workflow the call is not about has at most had queued or handed-out tasks queued or handed out again |
| `CrashedCalls.CrashedSubmission` | internal/coordinator/coordinator.go:183-215 | a submission that crashes once its workflow is active leaves it stuck unless a root had been queued, and then it can run: if and only if more than the first three transactions were done |
| `CrashedCalls.CrashedConclusion` | internal/coordinator/coordinator.go:485-507 | a crash just before a result or a cancellation writes its workflow's final state leaves the workflow active with every task terminal and nothing to run |
| `CrashedCalls.CrashedFailure` | internal/coordinator/coordinator.go:397-420 | a crash right after FAILED was recorded leaves every PENDING task as it was, and the workflow can run then if and only if another of its tasks was QUEUED or RUNNING |
| `Interleaving.FineGrainedSafety` | internal/coordinator/coordinator.go:280-342 | with every lock region and every transaction a step of its own, dependency safety and the in-degree equation hold in every state of every interleaving, crashes included, as long as no transaction overwrites a COMPLETE record |
| `Interleaving.OverwriteHarmless` | internal/store/task_state.go:212-232 | taking COMPLETE away from a task keeps both properties if and only if everything that depends on it is SKIPPED |
| `Interleaving.ClobberBreaks` | internal/coordinator/coordinator.go:572-587 | hence a move that overwrites a COMPLETE record keeps both properties if and only if the dependents of that task are SKIPPED |
| `Interleaving.RaceOverwritesComplete` | internal/coordinator/coordinator.go:311-315 | in any safe state with a handed-out task that a PENDING one waits for, completion and dead-worker handling can interleave so that the dependent is QUEUED and its dependency no longer COMPLETE |
| `Races.LockingIsNotEnough` | internal/coordinator/coordinator.go:570-574 | such an interleaving exists from the empty scheduler: the locking alone does not give dependency safety |
| `Races.CountedTwice` | internal/store/task_state.go:148-179 | another one goes on to complete the requeued task a second time: its downstream counters fall twice and a task is QUEUED although one of its two dependencies is not COMPLETE |
| `Schedules.OrderlySafety` | internal/coordinator/coordinator.go:280-315 | a schedule that suffices: if no result for a task starts while another result for it is in flight, and no worker is declared dead while one of its tasks has one, then no COMPLETE record is overwritten and both properties hold in every state, however everything else interleaves and crashes |
| `InterleavedProgress.OrderlyProgress` | internal/coordinator/coordinator.go:177-604 | deadlock freedom when calls interleave: under that schedule, with crashes between calls, an active workflow has a task in the ready queue with a cached spec, or in a worker's hands, whenever no call is in flight, if and only if it has tasks and every task id is a key the store accepts |
| `InterleavedProgress.NoneDropped` | internal/coordinator/coordinator.go:177-604 | under that schedule and wherever the coordinator crashes, no QUEUED or RUNNING task of an active workflow is lost: whenever no call is in flight it is in the queue with a cached spec or in a worker's hands |
| `Custody.AdvanceGuarding` | internal/coordinator/coordinator.go:177-604 | a step of any call keeps every QUEUED and RUNNING task of a workflow that nobody is ending in the queue, in the running table or in the hands of a call in flight |
| `Settling.AdvanceOrphans` | internal/coordinator/coordinator.go:458-480 | a step of any call leaves every PENDING task below a FAILED or SKIPPED one to a call in flight that goes on to skip it or to end its workflow, however the searches of several failing calls interleave |
| `Settling.AdvanceEnds` | internal/coordinator/coordinator.go:485-515 | a step of any call leaves every active workflow whose tasks have all ended to a call in flight that goes on to check or end it |
| `Exactness.TxnExact` | internal/store/task_state.go:16-330 | a transaction of any call in flight, on a safe store, keeps both properties if and only if what it releases or completes has all its dependencies COMPLETE and a COMPLETE record it overwrites has only SKIPPED dependents |
| `Exactness.SafeExactly` | internal/coordinator/coordinator.go:177-604 | an interleaving keeps both properties in all its states up to any point if and only if each of its moves before that point meets this guard |
| `Refinement.CallAlone` | internal/coordinator/coordinator.go:177-604 | a call that runs from its start to its return with no other step in between, whatever else is in flight, leaves the store and the volatile state of the one-step protocol; a crash and an undisturbed recovery leave those of a restart |
| `Refinement.RequestIsEvent` | internal/coordinator/coordinator.go:177-604 | every request of the fine-grained model is the call of some enabled event of the one-step protocol |
| `Refinement.RunsInterleave` | internal/coordinator/coordinator.go:177-604 | every run of the one-step protocol is an interleaving in which calls start and crashes fall only while no call is in flight |
| `History.TransitionTable` | README.md:80-90 | in every run every change of a task's state is one of the listed transitions, each with the call that makes it and its guard; a PENDING task becomes QUEUED only by an accepted success of the one task it still waited for |
| `History.Finality` | internal/store/task_state.go:300-330 | COMPLETE and FAILED are never left; SKIPPED is left only by a task that was RUNNING when its workflow was cancelled |
| `History.TerminalIsFinal` | README.md:92 | without cancellation and without FAIL_FAST workflows all three terminal states are final |
| `History.HeldSkippedOrigin` | internal/store/task_state.go:312-319 | a SKIPPED task that is still handed out was cancelled while RUNNING |
| `History.QueueStoreAgreement` | internal/coordinator/coordinator.go:210-260 | in every state of every run the ready queue has no duplicates and holds only QUEUED tasks, every QUEUED task of an active workflow is in it, the two tables of handed-out tasks have the same keys, disjoint from the queue, and each id equals the stored one |
| `History.CurrentIsLatest` | internal/coordinator/coordinator.go:249-259 | the current execution id of a handed-out task is the one drawn at its latest assignment |
| `History.CompletedByLatest` | internal/coordinator/coordinator.go:299-315 | a task becomes COMPLETE only by a reported success that carries the id of its latest assignment, which is also the stored id |
| `History.StaleForever` | internal/coordinator/coordinator.go:345-352 | once an id is no longer current, after a retry, a dead worker, a restart or a completion, no later result with that id changes anything, provided ids are never drawn twice |
| `History.ResubmissionResets` | internal/store/workflow_spec.go:12-21 | submitting an accepted workflow resets the records of all its tasks whatever they were: why freshness of ids is assumed |
| `Effects.HolderIsLatest` | internal/coordinator/coordinator.go:249-260 | in every run a handed-out task is recorded for the worker of its latest assignment, under the id drawn then |
| `Effects.DeadWorkerTakesOwn` | internal/coordinator/coordinator.go:559-590 | in every run a dead worker loses a handed-out task if and only if the latest assignment of that task went to it; the task is QUEUED under its new id, every other handed-out task keeps worker, id and record |
| `Effects.AssignmentRecorded` | internal/coordinator/coordinator.go:229-277 | in every run an assignment takes the head of the queue and stores worker and id for it, in record and tables |
| `Effects.SuccessRecorded` | internal/coordinator/coordinator.go:311-325 | in every run an accepted success stores its output and lets go of the task |
| `Effects.FailureRecorded` | internal/store/task_state.go:188-209 | in every run giving up stores FAILED, the reported message and the attempt count 1, and nothing else in the record |
| `Effects.RetryRecorded` | internal/store/task_state.go:212-232 | in every run any other accepted failure stores QUEUED and the new id, nothing else, and puts the task at the end of the queue |
| `Effects.FieldsWritten` | internal/store/task_state.go:16-330 | in every run, for every record and every call: output, error, attempt count and execution id change exactly by the calls meant to change them, workflow and downstream list never |
| `Effects.SubmissionRecorded` | internal/coordinator/coordinator.go:183-220 | every field of every record and cache entry of a submission that goes through, the downstream lists by multiplicity, and the queue |
| `Effects.ServedInOrder` | internal/coordinator/coordinator.go:229-245 | first come, first served: between restarts a task is handed out only after every task that stood before it in the queue has left it, newcomers and returning tasks standing behind those who wait |
| `Effects.RestartLoadsActive` | internal/coordinator/coordinator.go:132-174 | in every run a restart caches the specs, owners and policies of exactly the active workflows |
| `Effects.SuccessAnswer` | internal/coordinator/coordinator.go:280-315 | in every run a success is answered without error if and only if it is accepted or repeats the id of a COMPLETE record |
| `Outcomes.CompletionReleasesWaiting` | internal/store/task_state.go:148-179 | an accepted success queues exactly the PENDING tasks that were waiting for this one task alone, each once however often it lists the dependency, at the end of the ready queue |
| `Outcomes.SkipsExactlyDependents` | internal/coordinator/coordinator.go:458-480 | giving up under SKIP_DOWNSTREAM or CONTINUE_INDEPENDENT turns exactly the PENDING tasks that transitively depend on the failed one SKIPPED, changes no other record and takes nothing out of the ready queue |
| `Outcomes.RetryAccounting` | internal/coordinator/coordinator.go:361-400 | in every state of every run the stored attempt count is 0 for a task that has not FAILED, and a FAILED task has count 1 and a spec that allows one attempt |
| `Outcomes.FailureEndsOrRetries` | internal/coordinator/coordinator.go:369-400 | an accepted failure ends in FAILED if and only if the spec sets MaxRetries to 1; otherwise the task is queued again |
| `Outcomes.OneMoreFailure` | internal/coordinator/coordinator.go:371-395 | a run whose queue holds just a task without that limit extends by an assignment with any given id and an accepted failure with any given new id that lead back to such a state |
| `Outcomes.FailuresUnbounded` | README.md:61 | from such a run any number of further failures can follow, with any given ids, each accepted and each queueing the task again, and the task is FAILED in no state, against the documented bound |
| `Outcomes.AttemptsFresh` | internal/coordinator/coordinator.go:249-259 | if those ids are distinct and new, the longer run draws no id twice |
| `Witnesses.FailuresExceedLimit` | README.md:61 | from the empty scheduler: a task whose spec sets MaxRetries to 2 fails any number of times and is never FAILED, in a run that draws no execution id twice |
| `Outcomes.CancellationSettles` | internal/coordinator/coordinator.go:518-540 | cancelling leaves the workflow with no unfinished task and no queue entry, changes no terminal record and no other workflow, and keeps the other queue entries in order |
| `Outcomes.RecoveryRestores` | internal/coordinator/recovery.go:14-53 | from any safe store the restart leaves no RUNNING task, a duplicate-free queue of exactly the QUEUED tasks, empty running tables, all records that were not RUNNING unchanged, and a cached spec for every task of an active workflow |
| `Outcomes.RecoveryInRuns` | internal/coordinator/coordinator.go:132-174 | the same at every restart of every run |
| `CrashedCalls.RecoveryAfterCrash` | internal/coordinator/recovery.go:14-53 | and at every restart and every crash, inside a call or between calls, of every run with crashes |
| `Verdicts.WorkflowVerdict` | internal/coordinator/coordinator.go:485-515 | as long as no RUNNING task has been cancelled: a workflow that has tasks with acceptable ids is active exactly while it has an unfinished task, COMPLETE means every declared task is COMPLETE, FAILED means one is FAILED and none unfinished |
| `Verdicts.ActiveHasWork` | internal/coordinator/coordinator.go:485-515 | in every run whatsoever an active workflow has an unfinished task if and only if it has tasks with acceptable ids |
| `Verdicts.CancelledRunningReturns` | internal/store/task_state.go:312-319 | whenever a RUNNING task is cancelled, the run can go on so that the verdict no longer fits: its worker dies and the task is QUEUED in a workflow that is not active |
| `Witnesses.VerdictCanFail` | internal/store/task_state.go:312-319 | a run from the empty scheduler that ends so |
| `Verdicts.LateSuccess` | internal/coordinator/coordinator.go:315-338 | an accepted success overwrites its workflow's state, whatever it was, if and only if every other task is terminal; those tasks keep their records |
| `Verdicts.LateFailure` | internal/coordinator/coordinator.go:397-420 | giving up on a task marks its workflow FAILED, whatever its state was, if and only if the policy is FAIL_FAST or every other task is terminal or a PENDING dependent of the task |
| `Verdicts.CancelledLeft` | internal/coordinator/coordinator.go:485-507 | a stored workflow leaves WORKFLOW_CANCELLED exactly by such a result, and to which state |
| `Witnesses.CompleteDespiteSkipped` | internal/coordinator/coordinator.go:315-338 | a run from the empty scheduler in which a cancelled workflow ends WORKFLOW_COMPLETE with a SKIPPED task |
| `Verdicts.StepWorkflows` | internal/coordinator/coordinator.go:426-515 | every change of a workflow's state is a submission, its cancellation, a FAIL_FAST failure, or the verdict of a completion check that found all tasks terminal |
| `Termination.WorkDrops` | internal/coordinator/coordinator.go:229-342 | in a run without failures each assignment and each current success lowers the sum over tasks of 3 for PENDING, 2 for QUEUED, 1 for RUNNING; any other call between submissions changes nothing |
| `Termination.WorkIsBounded` | internal/coordinator/coordinator.go:229-342 | between submissions that sum bounds the number of assignments and successes |
| `Termination.QuiescentAllComplete` | internal/coordinator/coordinator.go:229-342 | in a run without failures, an empty queue with nothing handed out means every task is COMPLETE |
| `Termination.FailureFreeEnd` | internal/coordinator/coordinator.go:485-515 | a run without failures that can do no more work has completed every workflow that has tasks with acceptable ids, with all its tasks, and left every other one active |
| `Termination.AssignedOnce` | internal/coordinator/coordinator.go:229-277 | in a run without failures a task has been handed out exactly once if it is RUNNING or COMPLETE and never otherwise |
| `Dags.ValidateAndSort` | internal/coordinator/dag.go:26-68 | accepts if and only if task ids are distinct, every dependency exists and no task reaches itself, for every order of the map loops; each error is returned exactly for its cause, with a witness; an accepted graph has exact tables, transpose and in-degrees |
| `Dags.HasCycle` | internal/coordinator/dag.go:71-110 | finds a cycle if and only if there is one, and names a task on it |
| `Dags.Coloring.Visit` | internal/coordinator/dag.go:79-99 | terminates by the number of white nodes; an error names a task that reaches itself, success leaves the task black and every black node free of cycles |
| `Dags.Coloring.VisitAll` | internal/coordinator/dag.go:91-95 | after the loop over the dependencies of a gray node all of them are black, or a cycle has been found |
| `Dags.Tabulate` | internal/coordinator/dag.go:34-43 | builds the task and dependency tables exactly when ids are distinct |
| `Dags.FindMissing` | internal/coordinator/dag.go:45-52 | reports a dependency that names no task if and only if there is one |
| `Dags.Reverse` | internal/coordinator/dag.go:54-60 | the multiplicity of t in downstream[d] is that of d in dependencies[t], and inDegree[t] is the length of the list, for every order of the map loop |
| `Dags.ReverseOne` | internal/coordinator/dag.go:56-59 | adds one dependency list to the account |
| `Dags.TotalsAgree` | internal/coordinator/dag.go:54-60 | the in-degrees and the downstream lists count the same number of edges |
| `Dags.GetReadyTasks` | internal/coordinator/dag.go:128-136 | returns every task with in-degree zero, once each |
| `Stores.ReleaseAllRecords` | internal/store/task_state.go:148-179 | the loop over a downstream list acts on each record by the number of times it occurs: the in-degree falls by that number, or the task is QUEUED |
| `Stores.ReleaseAllReady` | internal/store/task_state.go:159-170 | the loop reports a task ready once, if and only if its occurrences use up its in-degree while it is PENDING |
| `Stores.InitializedEffect` | internal/store/task_state.go:22-43 | exactly the workflow's tasks get new PENDING records with the given in-degree and downstream list |
| `Stores.RequeueEffect` | internal/store/task_state.go:212-232 | requeueing a list rewrites exactly its tasks' state and execution id, and nothing else |
| `Stores.SetStateEffect` | internal/store/task_state.go:66-85 | writing a state over a list rewrites exactly its tasks' state |
| `Stores.KeyLengths` | go.mod:8 | a key is accepted if and only if it has 1 to 32768 bytes; the empty key and longer ones have their own error |
| `StateStores.StateStore.StoreWorkflow` | internal/store/workflow_spec.go:12-21 | the spec is stored under its id, over any earlier one, if and only if the id has 1 to 32768 bytes; otherwise its error and no change |
| `StateStores.StateStore.InitWorkflowState` | internal/store/workflow_state.go:12-22 | the workflow becomes WORKFLOW_RUNNING, or the key error and no change; nothing else changes |
| `StateStores.StateStore.UpdateWorkflowState` | internal/store/workflow_state.go:25-43 | the workflow's state is overwritten, or created when missing, or the key error and no change; nothing else changes |
| `StateStores.StateStore.InitializeTasksForWorkflow` | internal/store/task_state.go:16-44 | one PENDING record per task, every field given, if every task id has 1 to 32768 bytes; otherwise the error of the first that has not, and no change |
| `StateStores.StateStore.GetTask` | internal/store/task_state.go:47-63 | the stored record, or ErrTaskNotFound |
| `StateStores.StateStore.UpdateTaskState` | internal/store/task_state.go:66-85 | one record's state changes, or ErrTaskNotFound and no change |
| `StateStores.StateStore.AssignTask` | internal/store/task_state.go:88-108 | one record becomes RUNNING with the new execution id, or ErrTaskNotFound and no change |
| `StateStores.StateStore.CompleteTask` | internal/store/task_state.go:114-185 | the exact error; the record becomes COMPLETE with the output, every PENDING record loses as many in-degrees as the downstream list names it and is QUEUED when none is left, a repeat changes nothing; equal to the completion the safety proofs are about |
| `StateStores.StateStore.FailTask` | internal/store/task_state.go:188-209 | one record becomes FAILED with message and attempt count, or ErrTaskNotFound and no change |
| `StateStores.StateStore.RequeueTask` | internal/store/task_state.go:212-232 | one record becomes QUEUED with a new execution id and its old attempt count, or ErrTaskNotFound and no change |
| `StateStores.StateStore.GetTasksInState` | internal/store/task_state.go:235-251 | lists exactly the tasks in that state, once each |
| `StateStores.StateStore.GetTaskStatusesForWorkflow` | internal/store/task_state.go:273-296 | one status for each task of the workflow, with that task's id, state, attempt count, output and error |
| `StateStores.StateStore.GetAllWorkflowStates` | internal/store/workers.go:49-59 | one entry for each stored workflow state |
| `StateStores.StateStore.CancelWorkflowTasks` | internal/store/task_state.go:300-330 | turns exactly the workflow's unfinished tasks SKIPPED, RUNNING ones included, and returns each once |
| `StateStores.StateStore.SkipDownstreamTasks` | internal/store/task_state.go:334-377 | on any stored graph, cyclic or dangling, the search ends and turns exactly the non-terminal tasks reachable downstream of the failed one SKIPPED, each once, or reports ErrTaskNotFound |
| `StateStores.StateStore.SkipNext` | internal/store/task_state.go:347-374 | one round of the search: either an unvisited id is used up or the queue gets shorter, and the ids seen and waiting stay exactly those found so far |
| `StateStores.StateStore.IsWorkflowComplete` | internal/store/task_state.go:380-404 | true if and only if every task of the workflow is terminal |
| `Coordinators.Coordinator.SubmitWorkflow` | internal/coordinator/coordinator.go:177-226 | succeeds if and only if the tasks form a DAG and the workflow id and all task ids have 1 to 32768 bytes; otherwise the validation error, or the key error of the first id the store refuses; takes the submission step and performs its transactions in order, with at most one refused one behind them |
| `Coordinators.Coordinator.GetReadyTask` | internal/coordinator/coordinator.go:229-277 | takes the assignment step; returns an assignment exactly when the head of the queue is cached and stored, with the spec's command, environment and timeout; records the worker and the id for that task and for no other |
| `Coordinators.Coordinator.CompleteTask` | internal/coordinator/coordinator.go:280-342 | takes the success step and performs its transactions in order; no error means the record is COMPLETE under that id and no longer assigned; says exactly when the task is unknown and when the report is stale, and then nothing changes |
| `Coordinators.Coordinator.FailTask` | internal/coordinator/coordinator.go:345-423 | takes the failure step and performs its transactions in order: refused without change, queued again under the new id below the retry limit of the spec or 3, or FAILED with the message and the policy applied to the other records, FAIL_FAST when none is known |
| `Coordinators.Coordinator.ApplyFailurePolicy` | internal/coordinator/coordinator.go:426-482 | FAIL_FAST cancels, filters the queue and marks the workflow FAILED; the other policies skip what is downstream, filter the queue and check for completion |
| `Coordinators.Coordinator.CheckWorkflowCompletion` | internal/coordinator/coordinator.go:485-515 | writes a final state exactly when all tasks are terminal: FAILED if one is FAILED, else COMPLETE |
| `Coordinators.Coordinator.CancelWorkflow` | internal/coordinator/coordinator.go:518-540 | takes the cancellation step and performs its transactions in order: exactly the unfinished records of the workflow become SKIPPED; returns the key error of the final write, if any |
| `Coordinators.Coordinator.DropFromQueue` | internal/coordinator/coordinator.go:529-537 | the filter keeps exactly the other entries, in order |
| `Coordinators.Coordinator.HandleDeadWorker` | internal/coordinator/coordinator.go:550-604 | takes the dead-worker step and performs its transactions in order: exactly the tasks running on that worker leave the two tables, are QUEUED under new ids and appended to the queue; every other record and entry stays |
| `Coordinators.Coordinator.LoadStateFromDB` | internal/coordinator/coordinator.go:132-174 | caches the specs and policies of exactly the active stored workflows and appends exactly the QUEUED tasks |
| `Coordinators.Coordinator.PrepareRecovery` | internal/coordinator/recovery.go:14-53 | requeues exactly the RUNNING tasks and appends them to the queue |
| `Coordinators.StartUp` | cmd/coordinator/main.go:43-56 | a new coordinator, LoadStateFromDB and PrepareRecovery take the restart step, whatever the volatile state was before |
| `Codec.TaskRoundTrip` | internal/store/serialization.go:11-140 | decoding an encoded task record gives it back if and only if its last downstream id, if any, is not empty; otherwise exactly that id is lost |
| `Codec.OldRecordDecodes` | internal/store/serialization.go:114-126 | a record cut before or inside the downstream count decodes to the same record with an empty list |
| `Codec.WorkflowRoundTrip` | internal/store/serialization.go:142-182 | decoding an encoded workflow record gives it back |
| `Codec.WorkerRoundTrip` | internal/store/serialization.go:184-246 | decoding an encoded worker record gives it back, empty ids included |
| `Codec.StringRoundTrip` | internal/store/serialization.go:65-75 | a length-prefixed string reads back and leaves what follows, except that an empty string at the very end reads as end of input |
| `Codec.LenientStringRoundTrip` | internal/store/serialization.go:161-167 | with read errors ignored every string reads back |
| `Codec.Int32RoundTrip` | internal/store/serialization.go:28-30 | four little-endian bytes in two's complement read back, for every int32 |
| `Layouts.Int32Bytes` | internal/store/serialization.go:28-30 | the bytes: four of them, whose value with the least significant first is the two's complement of the number |
| `Layouts.Int64Bytes` | internal/store/serialization.go:37-39 | the same with eight bytes |
| `Layouts.TaskLayout` | internal/store/serialization.go:22-57 | bytes are the encoding of a task record if and only if each field stands at its offset in the stored order and nothing follows |
| `Layouts.WorkflowLayout` | internal/store/serialization.go:150-155 | the same for workflow records |
| `Layouts.WorkerLayout` | internal/store/serialization.go:192-204 | the same for worker records with their two lists |
| `Layouts.StringReads` | internal/store/serialization.go:65-75 | what reading a string from any bytes gives: an error for fewer than four bytes or nothing behind the length, a panic for a length of 2^31 or more, otherwise the bytes, filled up with zeros where the input is short |
| `Layouts.LenientReads` | internal/store/serialization.go:161-167 | the same where read errors are ignored: a missing length counts as zero |
| `Layouts.TruncatedRefused` | internal/store/serialization.go:62-112 | a task record cut anywhere before its downstream list is refused, whatever the cut made of the last string |
| `Layouts.FewerIdsThanAnnounced` | internal/store/serialization.go:114-126 | a downstream count that is larger than the number of ids that follow decodes to those ids |
| `Layouts.NegativeLengthPanics` | internal/store/serialization.go:69-71 | a negative length of any string of a task record, or a negative downstream count, is a panic |
| `Layouts.TruncatedWorkflow` | internal/store/serialization.go:158-182 | in a workflow record cut short every field that is not complete reads as zero |
| `Layouts.TruncatedWorker` | internal/store/serialization.go:207-246 | in a worker record cut short every field that is not complete reads as zero or empty |
| `Layouts.NegativeLengthAlsoPanics` | internal/store/serialization.go:161-167 | a negative length or count in a workflow or worker record is a panic |
| `Codec.Int64RoundTrip` | internal/store/serialization.go:37-39 | eight little-endian bytes in two's complement read back, for every int64 |
| `Marshalling.MarshalTaskRecord` | internal/store/serialization.go:11-60 | the buffer holds, from its first byte to its last, the fields in the order of the code, each at its offset: lengths, counts and integers as little-endian words in two's complement, strings as their bytes |
| `Marshalling.UnmarshalTaskRecord` | internal/store/serialization.go:62-140 | bytes with that layout give the record back, without a last downstream id that is empty; any bytes give what DecodeTask says, the read error or the panic included |
| `Marshalling.MarshalWorkflowState` | internal/store/serialization.go:142-156 | the buffer holds id, state and the two timestamps at their offsets and nothing else |
| `Marshalling.UnmarshalWorkflowState` | internal/store/serialization.go:158-182 | bytes with that layout give the record back; read errors are ignored and a negative length panics, on any bytes |
| `Marshalling.MarshalWorkerRecord` | internal/store/serialization.go:184-205 | the buffer holds id, heartbeat, the two counted id lists and the timestamp one behind the other and nothing else |
| `Marshalling.UnmarshalWorkerRecord` | internal/store/serialization.go:207-246 | bytes with that layout give the record back; read errors are ignored and negative lengths panic, on any bytes |

## Left out

- gRPC streams, worker processes, CLI, dashboard, metrics and logging: input, output and counters without a property of their own.
- Generated protobuf code and `proto.Marshal`: a stored spec is a value under its workflow id.
- BoltDB itself: a transaction is one atomic step on a map, and a bucket scan sees the map as it was when the scan began, in any order.
- Heartbeat monitor, watchdog and worker records as used by them: only the worker codec and the dead-worker call are modelled.
- Wall-clock fields (`LastUpdated`, `SubmittedAtMs`, `CompletedAtMs`): opaque int64 values in the codec, absent elsewhere.
- The task id inside a task record: it equals the record's key, so only the codec has it.
- `GetTasksForWorkflow`, `GetWorkflowState`, `GetWorker` and other getters that no modelled call uses: they would only add easy members.
- Allocation of huge buffers: a length prefix up to 2^31 - 1 is assumed to be allocatable.
- Coordinators.Coordinator.DropFromQueue: filters a value sequence and does not model the slice's backing array that the program reuses.
- Progress.DeadlockFreedom: asks for crashes between calls, because the claim is false for crashes inside them; CrashedCalls.OnlyOwnStranded states it with crashes inside calls about other workflows, and CrashedCalls.CrashProgress what holds after any crash.
- CrashedCalls.CrashedFailure: speaks of the crash right after FAILED is recorded and of the state right after the restart; CrashedCalls.CrashProgress and CrashedCalls.StuckForever cover every later state.
- Verdicts.WorkflowVerdict: holds until a RUNNING task is cancelled, because after that it can fail (Verdicts.CancelledRunningReturns, Witnesses.VerdictCanFail).
- Interleaving.FineGrainedSafety: holds while no transaction overwrites a COMPLETE record, because such a write breaks it unless all dependents are SKIPPED (Interleaving.ClobberBreaks); Exactness.SafeExactly gives the exact condition on the moves and Schedules.OrderlySafety a condition on the schedule.
- InterleavedProgress.OrderlyProgress: asks for crashes between calls, because the claim is false for crashes inside them (CrashedCalls.CrashedSubmission); InterleavedProgress.NoneDropped is what holds after any crash. While a call is in flight nothing is claimed, since that call may be the one to act.
- Codec.TaskRoundTrip: stated for byte strings and lists shorter than 2^31, the largest length the int32 prefix can hold.
