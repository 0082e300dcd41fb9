/** The coordinator as the program implements it (internal/coordinator/coordinator.go,
    recovery.go): every public method is proved to take exactly the step of the
    state machine that the theorems are about. Execution ids, which the program
    draws at random, are parameters; a ghost result names the event taken. */
module Coordinators {
  import opened Types
  import opened Seqs
  import opened Graphs
  import opened Dags
  import opened Stores
  import opened Systems
  import opened StepForms
  import opened Safety
  import opened StateStores

  datatype Assignment = Assignment(taskId: string, executionId: string, command: string, env: map<string, string>,
                                   timeoutSeconds: int)

  /** LoadStateFromDB's loop, on any caches. */
  function LoadFrom(st: Store, co: Coord, ws: seq<string>): Coord {
    if ws == [] then co else LoadOne(st, LoadFrom(st, co, ws[..|ws| - 1]), ws[|ws| - 1])
  }

  lemma {:induction false} LoadFromEmpty(st: Store, ws: seq<string>)
    ensures LoadFrom(st, EMPTY_COORD, ws) == LoadAll(st, ws)
  {
    if ws != [] {
      LoadFromEmpty(st, ws[..|ws| - 1]);
    }
  }

  lemma {:induction false} LoadFromQueue(st: Store, co: Coord, ws: seq<string>)
    ensures LoadFrom(st, co, ws).queue == co.queue
  {
    if ws != [] {
      LoadFromQueue(st, co, ws[..|ws| - 1]);
    }
  }

  lemma PresentSnoc(T: Tasks, order: seq<string>, t: string)
    ensures Present(T, order + [t]) == Present(T, order) + if t in T then [t] else []
  {
    var A, B := Elems(order + [t]) - T.Keys, Elems(order) - T.Keys;
    WithoutConcat(order, [t], A);
    forall x | x in order ensures x in A <==> x in B {
    }
    WithoutSame(order, A, B);
    assert [t][..0] == [];
  }

  lemma RequeueSnoc(order: seq<string>, t: string, ids: map<string, string>)
    ensures RequeueTxns(order + [t], ids) == RequeueTxns(order, ids) + [RequeueTask(t, Lookup(ids, t, ""))]
  {
  }

  lemma RequeueNothing(st: Store, ids: map<string, string>)
    ensures RequeueTxns([], ids) == [] && Fold(st, []) == st && Present(st.tasks, []) == []
  {
  }

  lemma StatusVerdict(T: Tasks, w: string, statuses: seq<TaskStatus>, order: seq<string>)
    requires Enumerates(order, set t | t in T && T[t].workflowId == w) && |statuses| == |order|
    requires forall i | 0 <= i < |order| :: order[i] in T && statuses[i] == StatusOf(T, order[i])
    ensures (exists k :: 0 <= k < |statuses| && statuses[k].state.Failed?) <==> Verdict(T, w).WorkflowFailed?
  {
    if t :| t in T && T[t].workflowId == w && T[t].state.Failed? {
      assert t in order;
      var k :| 0 <= k < |order| && order[k] == t;
      assert statuses[k].state.Failed?;
    }
    if k :| 0 <= k < |statuses| && statuses[k].state.Failed? {
      assert order[k] in order;
    }
  }

  lemma OwnersOf(specs: map<string, TaskSpec>, ts: seq<TaskSpec>, w: string)
    requires specs.Keys == Ids(ts)
    ensures (map t | t in specs :: w) == OwnerMap(ts, w)
  {
  }

  lemma CopyOne<V>(m: map<string, V>, n: map<string, V>, todo: set<string>, t: string)
    requires t in todo && todo <= n.Keys
    ensures (m + (n - todo))[t := n[t]] == m + (n - (todo - {t}))
  {
  }

  lemma RootsInitialized(T: Tasks, spec: WorkflowSpec, down: Graph, ready: seq<string>)
    requires down.Keys == Ids(spec.tasks) && Enumerates(ready, Roots(spec.tasks))
    ensures forall t | t in ready :: t in Initialized(T, spec.workflowId, spec.tasks, InDegrees(spec.tasks), down)
  {
    InitializedEffect(T, spec.workflowId, spec.tasks, InDegrees(spec.tasks), down);
  }

  lemma SpecMapTabulates(dag: Dag, ts: seq<TaskSpec>)
    requires Describes(dag, ts)
    ensures dag.tasks == SpecMap(ts)
  {
    SpecMapFacts(ts);
    forall t | t in dag.tasks ensures dag.tasks[t] == SpecMap(ts)[t] {
      var i :| 0 <= i < |ts| && ts[i] == SpecMap(ts)[t];
      assert dag.tasks[ts[i].taskId] == ts[i];
    }
  }

  lemma CacheSnoc(specs: map<string, TaskSpec>, owners: map<string, string>, ts: seq<TaskSpec>, t: TaskSpec, w: string)
    ensures specs + SpecMap(ts + [t]) == (specs + SpecMap(ts))[t.taskId := t]
    ensures owners + OwnerMap(ts + [t], w) == (owners + OwnerMap(ts, w))[t.taskId := w]
  {
    IdsSnoc(ts, t);
    assert (ts + [t])[..|ts|] == ts;
  }

  /** The workflow id and every task id have 1 to 32768 bytes. */
  predicate KeysFit(workflow: WorkflowSpec) {
    && 1 <= |workflow.workflowId| <= 32768
    && forall i | 0 <= i < |workflow.tasks| :: 1 <= |workflow.tasks[i].taskId| <= 32768
  }

  /** The first key the store is given and does not take, the workflow's id or a task's, is of kind `kind`. */
  ghost predicate RefusedKey(workflow: WorkflowSpec, kind: string -> bool) {
    if 1 <= |workflow.workflowId| <= 32768
    then exists i :: FirstRefused(workflow.tasks, i) && kind(workflow.tasks[i].taskId)
    else kind(workflow.workflowId)
  }

  /** What giving up on `t` does to the other records: nothing without a known workflow; all
      unfinished tasks of the workflow are SKIPPED if its policy is FAIL_FAST or not known,
      otherwise those downstream of `t`. */
  ghost predicate PolicyApplied(T: Tasks, T': Tasks, t: string, workflowOf: map<string, string>,
                                policy: map<string, FailurePolicy>)
  {
    var w := if t in workflowOf then workflowOf[t] else "";
    if w == "" then T'.Keys == T.Keys && forall u | u in T && u != t :: T'[u] == T[u]
    else PolicySkips(T, T', t, w, w !in policy || policy[w].FailFast?)
  }

  ghost predicate PolicySkips(T: Tasks, T': Tasks, t: string, w: string, failFast: bool) {
    && T'.Keys == T.Keys
    && forall u | u in T && u != t ::
         T'[u] == if !T[u].state.Terminal() && (if failFast then T[u].workflowId == w else Reaches(DownGraph(T), t, u))
                  then T[u].(state := Skipped) else T[u]
  }

  lemma SkipsAsTold(T: Tasks, t: string, w: string, skipped: seq<string>)
    requires t in T && Enumerates(skipped, SkipSet(T, t))
    ensures PolicySkips(T, SkipAll(T, Elems(skipped)), t, w, false)
  {
    hide Reaches;
  }

  /** The failing transaction itself touches no other record and no edge. */
  lemma SkipsFromFailure(T: Tasks, T': Tasks, t: string, w: string, failFast: bool, msg: string, n: int)
    requires t in T && PolicySkips(FailedWith(T, t, msg, n), T', t, w, failFast)
    ensures PolicySkips(T, T', t, w, failFast)
  {
    assert DownGraph(FailedWith(T, t, msg, n)) == DownGraph(T);
    hide DownGraph, Reaches;
  }

  /** The transactions tried by the three store calls of a submission. */
  function Recording(workflow: WorkflowSpec, inDegree: map<string, int>, down: Graph): seq<Txn> {
    var w := workflow.workflowId;
    [StoreSpec(workflow)] +
    if ValidKey(w) then [SetWorkflow(w, WorkflowRunning), InitTasks(w, workflow.tasks, inDegree, down)] else []
  }

  /** `log` holds the transactions `txs` and at most one more, which left the store `st` as it was. */
  ghost predicate Performs(st: Store, txs: seq<Txn>, log: seq<Txn>) {
    log == txs || exists refused :: log == txs + [refused] && Apply(st, refused) == st
  }

  lemma LogAssoc(a: seq<Txn>, b: seq<Txn>, c: seq<Txn>)
    ensures (a + b) + c == a + (b + c)
  {
  }

  lemma AcceptedPerforms(spec: WorkflowSpec, down: Graph, roots: seq<string>, log: seq<Txn>)
    requires ValidKey(spec.workflowId) && ValidIds(spec.tasks)
    ensures log + Recording(spec, InDegrees(spec.tasks), down) + SetStateTxns(roots, Queued) ==
            log + SubmitTxns(spec, down, roots)
  {
    hide InDegrees, SetStateTxns, ValidKey, ValidIds;
    var tx := InitTasks(spec.workflowId, spec.tasks, InDegrees(spec.tasks), down);
    assert Recording(spec, InDegrees(spec.tasks), down) ==
           [StoreSpec(spec), SetWorkflow(spec.workflowId, WorkflowRunning)] + [tx];
  }

  lemma RefusedPerforms(s: Sys, spec: WorkflowSpec, down: Graph, roots: seq<string>, log: seq<Txn>)
    requires IsDag(spec.tasks) && !(ValidKey(spec.workflowId) && ValidIds(spec.tasks))
    ensures var ev := Submit(spec, down, roots);
            Performs(Step(s, ev).st, log + Txns(s, ev), log + Recording(spec, InDegrees(spec.tasks), down))
  {
    hide IsDag, InDegrees, SetStateTxns, Initialized;
    var ev, rec := Submit(spec, down, roots), Recording(spec, InDegrees(spec.tasks), down);
    if ValidKey(spec.workflowId) {
      HaltedForm(s, spec, down, roots);
      var tx := InitTasks(spec.workflowId, spec.tasks, InDegrees(spec.tasks), down);
      assert log + rec == (log + Txns(s, ev)) + [tx];
      assert Apply(Step(s, ev).st, tx) == Step(s, ev).st;
    } else {
      assert log + rec == (log + Txns(s, ev)) + [StoreSpec(spec)];
      assert Apply(Step(s, ev).st, StoreSpec(spec)) == Step(s, ev).st;
    }
  }

  /** Why a submission fails. */
  datatype SubmitError = InvalidDag(cause: DagError) | StoreRefused(error: StoreError)

  class Coordinator {
    const state: StateStore
    var readyQueue: seq<string>
    var runningTasks: map<string, string>
    var assignedTasks: map<string, string>
    var taskSpecCache: map<string, TaskSpec>
    var taskWorkflowMap: map<string, string>
    var workflowFailurePolicy: map<string, FailurePolicy>

    constructor (state: StateStore)
      ensures this.state == state && Memory() == EMPTY_COORD
    {
      this.state := state;
      readyQueue, runningTasks, assignedTasks := [], map[], map[];
      taskSpecCache, taskWorkflowMap, workflowFailurePolicy := map[], map[], map[];
    }

    ghost function Memory(): Coord
      reads this
    {
      Coord(readyQueue, runningTasks, assignedTasks, taskSpecCache, taskWorkflowMap, workflowFailurePolicy)
    }

    ghost function View(): Sys
      reads this, state
    {
      Sys(state.View(), Memory())
    }

    /** The filter applied to the ready queue after tasks were cancelled or skipped. */
    method DropFromQueue(ids: seq<string>)
      modifies this
      ensures Memory() == old(Memory()).(queue := Without(old(readyQueue), Elems(ids)))
    {
      var dropped: set<string> := {};
      for i := 0 to |ids|
        invariant dropped == Elems(ids[..i]) && Memory() == old(Memory())
      {
        assert ids[..i + 1] == ids[..i] + [ids[i]];
        dropped := dropped + {ids[i]};
      }
      assert ids[..|ids|] == ids;
      var filtered := [];
      for i := 0 to |readyQueue|
        invariant filtered == Without(readyQueue[..i], dropped) && Memory() == old(Memory())
      {
        assert readyQueue[..i + 1][..i] == readyQueue[..i];
        if readyQueue[i] !in dropped {
          filtered := filtered + [readyQueue[i]];
        }
      }
      assert readyQueue[..|readyQueue|] == readyQueue;
      readyQueue := filtered;
    }

    method CheckWorkflowCompletion(w: string)
      modifies state
      ensures state.View() == Fold(old(state.View()), CheckTxns(old(state.taskState), w))
      ensures state.log == old(state.log) + CheckTxns(old(state.taskState), w)
    {
      var done := state.IsWorkflowComplete(w);
      if !done {
        return;
      }
      var statuses, order := state.GetTaskStatusesForWorkflow(w);
      var finalState := WorkflowComplete;
      for i := 0 to |statuses|
        invariant finalState ==
                  if exists k :: 0 <= k < i && statuses[k].state.Failed? then WorkflowFailed else WorkflowComplete
      {
        if statuses[i].state.Failed? {
          finalState := WorkflowFailed;
        }
      }
      assert finalState == Verdict(state.taskState, w) by {
        StatusVerdict(state.taskState, w, statuses, order);
      }
      FoldOne(state.View(), SetWorkflow(w, finalState));
      var _ := state.UpdateWorkflowState(w, finalState);
    }

    method SubmitWorkflow(workflow: WorkflowSpec) returns (err: Option<SubmitError>, ghost ev: Event)
      modifies this, state
      ensures err.None? <==> Accepted(workflow)
      ensures err.None? <==> IsDag(workflow.tasks) && KeysFit(workflow)
      ensures err.Some? && err.value.InvalidDag? <==> !IsDag(workflow.tasks)
      ensures err == Some(StoreRefused(ErrKeyRequired)) <==>
                IsDag(workflow.tasks) && RefusedKey(workflow, k => |k| == 0)
      ensures err == Some(StoreRefused(ErrKeyTooLarge)) <==>
                IsDag(workflow.tasks) && RefusedKey(workflow, k => |k| > 32768)
      ensures ev.Submit? && ev.spec == workflow && Resolved(old(View()), ev)
      ensures View() == Step(old(View()), ev)
      ensures Performs(View().st, old(state.log) + Txns(old(View()), ev), state.log)
    {
      var r := ValidateAndSort(workflow);
      if r.Err? {
        ev := Submit(workflow, map[], []);
        return Some(InvalidDag(r.error)), ev;
      }
      ghost var s := View();
      var ready := ReadyOf(workflow, r.value);
      ev := Submit(workflow, r.value.downstream, ready);
      ghost var log0 := state.log;
      assert r.value.inDegree == InDegrees(workflow.tasks);
      var refused := RecordWorkflow(workflow, r.value);
      if Admitted(workflow) { SubmitForm(s, workflow, r.value.downstream, ready); }
      hide Describes, Recording, SubmitTxns, Initialized, SetStateTxns, SubmittedTasks, SubmitCoord, RefusedKey, Fold;
      hide InDegrees, Enumerates, Roots, IsDag, Transposes;
      if !refused.NoError? {
        RefusedPerforms(s, workflow, r.value.downstream, ready, log0);
        hide Performs;
        return Some(StoreRefused(refused)), ev;
      }
      AcceptedPerforms(workflow, r.value.downstream, ready, log0);
      Accept(workflow, r.value, ready, s);
      err := None;
    }

    /** The ready tasks of a validated workflow are its roots. */
    method ReadyOf(workflow: WorkflowSpec, dag: Dag) returns (ready: seq<string>)
      requires Describes(dag, workflow.tasks)
      ensures Enumerates(ready, Roots(workflow.tasks))
    {
      ready := GetReadyTasks(dag);
      ReadyAreRoots(dag, workflow.tasks);
    }

    /** Fills the caches for a recorded workflow and queues its roots. */
    method Accept(workflow: WorkflowSpec, dag: Dag, ready: seq<string>, ghost s: Sys)
      requires Describes(dag, workflow.tasks) && Enumerates(ready, Roots(workflow.tasks))
      requires s.co == Memory()
      requires state.View() == Store(s.st.specs[workflow.workflowId := workflow],
                                     s.st.workflows[workflow.workflowId := WorkflowRunning],
                                     Initialized(s.st.tasks, workflow.workflowId, workflow.tasks, dag.inDegree,
                                                 dag.downstream))
      modifies this, state
      ensures state.View() == old(state.View()).(tasks := SubmittedTasks(s.st.tasks, workflow, dag.downstream, ready))
      ensures Memory() == SubmitCoord(s.co, workflow, ready)
      ensures state.log == old(state.log) + SetStateTxns(ready, Queued)
    {
      SpecMapTabulates(dag, workflow.tasks);
      assert dag.inDegree == InDegrees(workflow.tasks);
      assert dag.downstream.Keys == dag.tasks.Keys == Ids(workflow.tasks);
      hide Describes, Initialized, Fold, SetStateTxns, QueueAll, Roots, Enumerates, SpecMap, InDegrees, OwnerMap, Elems;
      CacheSpecs(dag.tasks, workflow.workflowId);
      workflowFailurePolicy := workflowFailurePolicy[workflow.workflowId := workflow.failurePolicy];
      OwnersOf(dag.tasks, workflow.tasks, workflow.workflowId);
      RootsInitialized(s.st.tasks, workflow, dag.downstream, ready);
      QueueForm(state.View(), ready);
      QueueRoots(ready);
    }

    /** The three store calls of a submission, up to the first that fails. */
    method RecordWorkflow(workflow: WorkflowSpec, dag: Dag) returns (err: StoreError)
      modifies state
      ensures err.NoError? <==> ValidKey(workflow.workflowId) && ValidIds(workflow.tasks)
      ensures err.NoError? <==> KeysFit(workflow)
      ensures err == ErrKeyRequired <==> RefusedKey(workflow, k => |k| == 0)
      ensures err == ErrKeyTooLarge <==> RefusedKey(workflow, k => |k| > 32768)
      ensures err.NoError? || err.ErrKeyRequired? || err.ErrKeyTooLarge?
      ensures state.log == old(state.log) + Recording(workflow, dag.inDegree, dag.downstream)
      ensures var st := old(state.View());
              state.View() ==
                if !ValidKey(workflow.workflowId) then st
                else Store(st.specs[workflow.workflowId := workflow],
                           st.workflows[workflow.workflowId := WorkflowRunning],
                           if !ValidIds(workflow.tasks) then st.tasks
                           else Initialized(st.tasks, workflow.workflowId, workflow.tasks, dag.inDegree,
                                            dag.downstream))
    {
      hide Initialized;
      err := state.StoreWorkflow(workflow);
      if !err.NoError? {
        return;
      }
      err := state.InitWorkflowState(workflow.workflowId);
      err := state.InitializeTasksForWorkflow(workflow.workflowId, workflow.tasks, dag.inDegree, dag.downstream);
    }

    /** Caches the spec and the workflow of every task. */
    method CacheSpecs(specs: map<string, TaskSpec>, workflowID: string)
      modifies this
      ensures Memory() == old(Memory()).(
                specCache := old(taskSpecCache) + specs,
                workflowOf := old(taskWorkflowMap) + map t | t in specs :: workflowID)
    {
      ghost var owners := map t | t in specs :: workflowID;
      var todo := specs.Keys;
      while todo != {}
        invariant todo <= specs.Keys
        invariant Memory() == old(Memory()).(specCache := old(taskSpecCache) + (specs - todo),
                                             workflowOf := old(taskWorkflowMap) + (owners - todo))
      {
        var t :| t in todo;
        CopyOne(old(taskSpecCache), specs, todo, t);
        CopyOne(old(taskWorkflowMap), owners, todo, t);
        todo := todo - {t};
        taskSpecCache := taskSpecCache[t := specs[t]];
        taskWorkflowMap := taskWorkflowMap[t := workflowID];
      }
      assert specs - todo == specs && owners - todo == owners;
    }

    /** Marks the ready tasks QUEUED one by one and appends them to the queue. */
    method QueueRoots(ready: seq<string>)
      requires forall t | t in ready :: t in state.taskState
      modifies this, state
      ensures state.View() == Fold(old(state.View()), SetStateTxns(ready, Queued))
      ensures Memory() == old(Memory()).(queue := old(readyQueue) + ready)
      ensures state.log == old(state.log) + SetStateTxns(ready, Queued)
    {
      ghost var st := state.View();
      for i := 0 to |ready|
        invariant state.log == old(state.log) + SetStateTxns(ready[..i], Queued)
        invariant state.View() == Fold(st, SetStateTxns(ready[..i], Queued))
        invariant state.taskState.Keys == old(state.taskState).Keys
        invariant Memory() == old(Memory()).(queue := old(readyQueue) + ready[..i])
      {
        assert ready[..i + 1] == ready[..i] + [ready[i]];
        FoldSetState(st, ready[..i], ready[i], Queued);
        assert SetStateTxns(ready[..i + 1], Queued) == SetStateTxns(ready[..i], Queued) + [SetState(ready[i], Queued)];
        var _ := state.UpdateTaskState(ready[i], Queued);
        readyQueue := readyQueue + [ready[i]];
      }
      assert ready[..|ready|] == ready;
    }

    method GetReadyTask(workerID: string, executionID: string) returns (a: Option<Assignment>)
      modifies this, state
      ensures View() == Step(old(View()), Assign(workerID, executionID))
      ensures state.log == old(state.log) + Txns(old(View()), Assign(workerID, executionID))
      ensures a.Some? <==>
              && old(readyQueue) != [] && old(readyQueue[0]) in old(taskSpecCache)
              && old(readyQueue[0]) in old(state.taskState)
      ensures a.Some? ==>
                var t, spec := old(readyQueue[0]), old(taskSpecCache[readyQueue[0]]);
                && a.value == Assignment(t, executionID, spec.command, spec.env, spec.timeoutSeconds)
                && runningTasks == old(runningTasks)[t := workerID]
                && assignedTasks == old(assignedTasks)[t := executionID]
                && state.taskState ==
                   old(state.taskState)[t := old(state.taskState)[t].(state := Running, executionId := executionID)]
      ensures a.None? ==>
                && runningTasks == old(runningTasks) && assignedTasks == old(assignedTasks)
                && state.View() == old(state.View())
      ensures readyQueue == if old(readyQueue) == [] then [] else old(readyQueue)[1..]
    {
      if |readyQueue| == 0 {
        return None;
      }
      var taskID := readyQueue[0];
      readyQueue := readyQueue[1..];
      if taskID !in taskSpecCache {
        return None;
      }
      var taskSpec := taskSpecCache[taskID];
      FoldOne(state.View(), Txn.AssignTask(taskID, executionID));
      var err := state.AssignTask(taskID, executionID);
      if err != NoError {
        return None;
      }
      runningTasks := runningTasks[taskID := workerID];
      assignedTasks := assignedTasks[taskID := executionID];
      a := Some(Assignment(taskID, executionID, taskSpec.command, taskSpec.env, taskSpec.timeoutSeconds));
    }

    method CompleteTask(taskID: string, executionID: string, output: string) returns (err: StoreError)
      modifies this, state
      ensures View() == Step(old(View()), Succeed(taskID, executionID, output))
      ensures state.log == old(state.log) + Txns(old(View()), Succeed(taskID, executionID, output))
      ensures err == SucceedError(old(View()), taskID, executionID, output)
      ensures err == ErrTaskNotFound <==>
              && taskID !in old(state.taskState)
              && (taskID in old(assignedTasks) ==> old(assignedTasks)[taskID] == executionID)
      ensures err == ErrStaleExecution <==>
                if taskID in old(assignedTasks) && old(assignedTasks)[taskID] != executionID then true
                else taskID in old(state.taskState) &&
                     (|| old(state.taskState)[taskID].executionId != executionID
                      || (taskID !in old(assignedTasks) && !old(state.taskState)[taskID].state.Complete?))
      ensures err.NoError? || err.ErrTaskNotFound? || err.ErrStaleExecution?
      ensures err.NoError? ==>
              && taskID in state.taskState && state.taskState[taskID].state.Complete?
              && state.taskState[taskID].executionId == executionID && taskID !in assignedTasks
      ensures err.NoError? && !old(state.taskState)[taskID].state.Complete? ==>
                state.taskState[taskID] == old(state.taskState)[taskID].(state := Complete, output := output)
      ensures !err.NoError? ==> View() == old(View())
    {
      if taskID !in assignedTasks {
        var task := state.GetTask(taskID);
        if task.Err? {
          return task.error;
        }
        if task.value.state.Complete? {
          if task.value.executionId != executionID {
            return ErrStaleExecution;
          }
          return NoError;
        }
        return ErrStaleExecution;
      }
      if assignedTasks[taskID] != executionID {
        return ErrStaleExecution;
      }
      err := RecordSuccess(taskID, executionID, output);
    }

    /** Persists the completion, lets go of the task and queues what it releases. */
    method RecordSuccess(taskID: string, executionID: string, output: string) returns (err: StoreError)
      requires taskID in assignedTasks && assignedTasks[taskID] == executionID
      modifies this, state
      ensures View() == Step(old(View()), Succeed(taskID, executionID, output))
      ensures state.log == old(state.log) + Txns(old(View()), Succeed(taskID, executionID, output))
      ensures err == Completed(old(state.taskState), taskID, executionID, output).err
      ensures err == if taskID !in old(state.taskState) then ErrTaskNotFound
                     else if old(state.taskState)[taskID].executionId != executionID then ErrStaleExecution else NoError
      ensures err.NoError? ==> taskID in state.taskState && taskID !in assignedTasks
      ensures err.NoError? ==>
                state.taskState[taskID] ==
                  if old(state.taskState)[taskID].state.Complete? then old(state.taskState)[taskID]
                  else old(state.taskState)[taskID].(state := Complete, output := output)
      ensures !err.NoError? ==> View() == old(View())
    {
      ghost var s := View();
      SucceedForm(s, taskID, executionID, output);
      var ready;
      ready, err := state.CompleteTask(taskID, executionID, output);
      if err != NoError {
        return;
      }
      runningTasks := runningTasks - {taskID};
      assignedTasks := assignedTasks - {taskID};
      readyQueue := readyQueue + ready;
      var workflowID := Lookup(taskWorkflowMap, taskID, "");
      if workflowID != "" {
        FoldCheck(state.View(), state.taskState, workflowID);
        hide CheckTxns, Fold, Completed;
        CheckWorkflowCompletion(workflowID);
      }
    }

    method ApplyFailurePolicy(w: string, failed: string, policy: FailurePolicy) returns (ghost skipped: seq<string>)
      modifies this, state
      ensures failed in old(state.taskState) && old(state.taskState)[failed].state.Terminal() ==>
                failed in state.taskState && state.taskState[failed] == old(state.taskState)[failed]
      ensures failed in old(state.taskState) ==>
                PolicySkips(old(state.taskState), state.taskState, failed, w, policy.FailFast?)
      ensures policy.FailFast? ==>
                && state.View() == Fold(old(state.View()), [CancelTasks(w), SetWorkflow(w, WorkflowFailed)])
                && Memory() == old(Memory()).(queue := Without(old(readyQueue), OpenTasks(old(state.taskState), w)))
                && state.log == old(state.log) + [CancelTasks(w), SetWorkflow(w, WorkflowFailed)]
      ensures !policy.FailFast? ==>
                && (failed in old(state.taskState) ==> Enumerates(skipped, SkipSet(old(state.taskState), failed)))
                && state.View() == Fold(old(state.View()), SetStateTxns(skipped, Skipped) +
                                                           CheckTxns(SkipAll(old(state.taskState), Elems(skipped)), w))
                && Memory() == old(Memory()).(queue := Without(old(readyQueue), Elems(skipped)))
                && state.log == old(state.log) + (SetStateTxns(skipped, Skipped) +
                                                  CheckTxns(SkipAll(old(state.taskState), Elems(skipped)), w))
    {
      skipped := [];
      if policy.FailFast? {
        FoldTwo(state.View(), CancelTasks(w), SetWorkflow(w, WorkflowFailed));
        var cancelled := state.CancelWorkflowTasks(w);
        assert Elems(cancelled) == OpenTasks(old(state.taskState), w);
        DropFromQueue(cancelled);
        var _ := state.UpdateWorkflowState(w, WorkflowFailed);
      } else {
        ghost var st := state.View();
        var list, _ := state.SkipDownstreamTasks(failed);
        skipped := list;
        SkipForm(st, skipped);
        if failed in st.tasks { SkipsAsTold(st.tasks, failed, w, skipped); }
        hide PolicySkips, Elems;
        if |list| > 0 {
          DropFromQueue(list);
        } else {
          WithoutDisjoint(readyQueue, Elems(skipped));
        }
        FoldConcat(st, SetStateTxns(skipped, Skipped), CheckTxns(SkipAll(st.tasks, Elems(skipped)), w));
        LogAssoc(old(state.log), SetStateTxns(skipped, Skipped), CheckTxns(SkipAll(st.tasks, Elems(skipped)), w));
        hide CheckTxns, SetStateTxns, Fold;
        CheckWorkflowCompletion(w);
      }
    }

    method FailTask(taskID: string, executionID: string, errMsg: string, newId: string)
      returns (err: StoreError, ghost ev: Event)
      modifies this, state
      ensures ev.Fail? && ev == Fail(taskID, executionID, errMsg, newId, ev.skipped) && Resolved(old(View()), ev)
      ensures View() == Step(old(View()), ev)
      ensures state.log == old(state.log) + Txns(old(View()), ev)
      ensures err ==
              if taskID !in old(assignedTasks) || old(assignedTasks)[taskID] != executionID then ErrStaleExecution
              else if taskID !in old(state.taskState) then ErrTaskNotFound else NoError
      ensures !err.NoError? ==> View() == old(View())
      ensures err.NoError? ==>
                && runningTasks == old(runningTasks) - {taskID} && assignedTasks == old(assignedTasks) - {taskID}
                && taskID in state.taskState
                && var r := old(state.taskState)[taskID];
                   var limit := if taskID in old(taskSpecCache) && old(taskSpecCache)[taskID].maxRetries > 0
                                then old(taskSpecCache)[taskID].maxRetries else 3;
                   if r.attemptCount + 1 < limit then
                     && state.taskState == old(state.taskState)[taskID := r.(state := Queued, executionId := newId)]
                     && readyQueue == old(readyQueue) + [taskID]
                   else
                     && state.taskState[taskID] ==
                        r.(state := Failed, error := errMsg, attemptCount := r.attemptCount + 1)
                     && PolicyApplied(old(state.taskState), state.taskState, taskID, old(taskWorkflowMap),
                                      old(workflowFailurePolicy))
    {
      hide PolicyTxns, PolicyQueue, SkipSet, Enumerates, Policy, PolicyApplied, Fold;
      ev := Fail(taskID, executionID, errMsg, newId, []);
      RequeueNothing(state.View(), map[]);
      if taskID !in assignedTasks || assignedTasks[taskID] != executionID {
        return ErrStaleExecution, ev;
      }
      var task := state.GetTask(taskID);
      if task.Err? {
        return task.error, ev;
      }
      ghost var s := View();
      var maxRetries := 3;
      if taskID in taskSpecCache && taskSpecCache[taskID].maxRetries > 0 {
        maxRetries := taskSpecCache[taskID].maxRetries;
      }
      var attempts := task.value.attemptCount + 1;
      if attempts < maxRetries {
        RetryForm(s, taskID, executionID, errMsg, newId, []);
        Retry(taskID, newId);
        return NoError, ev;
      }
      ghost var skipped := GiveUp(taskID, errMsg, attempts);
      ev := Fail(taskID, executionID, errMsg, newId, skipped);
      err := NoError;
    }

    /** Requeues the task under a new execution id and appends it to the queue. */
    method Retry(taskID: string, newId: string)
      requires taskID in state.taskState
      modifies this, state
      ensures state.View() == old(state.View()).(tasks := Requeued(old(state.taskState), taskID, newId))
      ensures Memory() == Released(old(Memory()), {taskID}).(queue := old(readyQueue) + [taskID])
      ensures state.log == old(state.log) + [Txn.RequeueTask(taskID, newId)]
    {
      var _ := state.RequeueTask(taskID, newId);
      runningTasks := runningTasks - {taskID};
      assignedTasks := assignedTasks - {taskID};
      readyQueue := readyQueue + [taskID];
    }

    /** Persists FAILED, lets go of the task and applies the workflow's policy. */
    method GiveUp(taskID: string, errMsg: string, attempts: int) returns (ghost skipped: seq<string>)
      requires taskID in state.taskState
      modifies this, state
      ensures var T := FailedWith(old(state.taskState), taskID, errMsg, attempts);
              var co := old(Memory());
              && state.View() == Fold(old(state.View()),
                                      [Txn.FailTask(taskID, errMsg, attempts)] + PolicyTxns(T, co, taskID, skipped))
              && state.log == old(state.log) +
                              ([Txn.FailTask(taskID, errMsg, attempts)] + PolicyTxns(T, co, taskID, skipped))
              && Memory() == Released(co, {taskID}).(queue := PolicyQueue(T, co, taskID, skipped))
              && (Owner(co, taskID) != "" && !Policy(co, Owner(co, taskID)).FailFast? ==>
                  Enumerates(skipped, SkipSet(T, taskID)))
      ensures taskID in state.taskState
      ensures state.taskState[taskID] ==
              old(state.taskState)[taskID].(state := Failed, error := errMsg, attemptCount := attempts)
      ensures PolicyApplied(old(state.taskState), state.taskState, taskID, old(taskWorkflowMap),
                            old(workflowFailurePolicy))
    {
      ghost var st, co, tx := state.View(), Memory(), Txn.FailTask(taskID, errMsg, attempts);
      FoldOne(st, tx);
      var _ := state.FailTask(taskID, errMsg, attempts);
      runningTasks := runningTasks - {taskID};
      assignedTasks := assignedTasks - {taskID};
      var workflowID := Lookup(taskWorkflowMap, taskID, "");
      var policy := Lookup(workflowFailurePolicy, workflowID, FailFast);
      skipped := [];
      if workflowID != "" {
        skipped := ApplyFailurePolicy(workflowID, taskID, policy);
        SkipsFromFailure(st.tasks, state.taskState, taskID, workflowID, policy.FailFast?, errMsg, attempts);
        hide PolicySkips;
      }
      LogAssoc(old(state.log), [tx], PolicyTxns(FailedWith(st.tasks, taskID, errMsg, attempts), co, taskID, skipped));
      hide CheckTxns, SetStateTxns, Without, OpenTasks, SkipSet, SkipAll;
      FoldConcat(st, [tx], PolicyTxns(FailedWith(st.tasks, taskID, errMsg, attempts), co, taskID, skipped));
    }

    method CancelWorkflow(w: string) returns (err: StoreError)
      modifies this, state
      ensures View() == Step(old(View()), Cancel(w))
      ensures state.log == old(state.log) + Txns(old(View()), Cancel(w))
      ensures err == if |w| == 0 then ErrKeyRequired else if |w| > 32768 then ErrKeyTooLarge else NoError
      ensures err.NoError? ==> w in state.workflowState && state.workflowState[w] == WorkflowCancelled
      ensures state.taskState.Keys == old(state.taskState).Keys
      ensures forall t | t in state.taskState ::
                var r := old(state.taskState)[t];
                state.taskState[t] == if r.workflowId == w && !r.state.Terminal() then r.(state := Skipped) else r
    {
      FoldTwo(state.View(), CancelTasks(w), SetWorkflow(w, WorkflowCancelled));
      var cancelled := state.CancelWorkflowTasks(w);
      assert Elems(cancelled) == OpenTasks(old(state.taskState), w);
      DropFromQueue(cancelled);
      err := state.UpdateWorkflowState(w, WorkflowCancelled);
    }

    /** Requeues the listed tasks one transaction at a time and appends those that have a record. */
    method RequeueAndAppend(tasks: seq<string>, ids: map<string, string>)
      modifies this, state
      ensures state.View() == Fold(old(state.View()), RequeueTxns(tasks, ids))
      ensures Memory() == old(Memory()).(queue := old(readyQueue) + Present(old(state.taskState), tasks))
      ensures state.log == old(state.log) + RequeueTxns(tasks, ids)
    {
      ghost var st, queue := state.View(), readyQueue;
      hide Fold, RequeueTxns, Present, Lookup;
      RequeueNothing(st, ids);
      for i := 0 to |tasks|
        invariant state.View() == Fold(st, RequeueTxns(tasks[..i], ids))
        invariant state.taskState.Keys == st.tasks.Keys
        invariant Memory() == old(Memory()).(queue := queue + Present(st.tasks, tasks[..i]))
        invariant state.log == old(state.log) + RequeueTxns(tasks[..i], ids)
      {
        assert tasks[..i + 1] == tasks[..i] + [tasks[i]];
        FoldRequeue(st, tasks[..i], tasks[i], ids);
        PresentSnoc(st.tasks, tasks[..i], tasks[i]);
        RequeueSnoc(tasks[..i], tasks[i], ids);
        RequeueOne(tasks[i], Lookup(ids, tasks[i], ""));
      }
      assert tasks[..|tasks|] == tasks;
    }

    method RequeueOne(taskID: string, newId: string)
      modifies this, state
      ensures state.View() == Apply(old(state.View()), Txn.RequeueTask(taskID, newId)) &&
              state.taskState.Keys == old(state.taskState).Keys
      ensures state.log == old(state.log) + [Txn.RequeueTask(taskID, newId)]
      ensures Memory() ==
              old(Memory()).(queue := old(readyQueue) + if taskID in old(state.taskState) then [taskID] else [])
    {
      var err := state.RequeueTask(taskID, newId);
      if err == NoError {
        readyQueue := readyQueue + [taskID];
      }
    }

    method HandleDeadWorker(workerID: string, ids: map<string, string>) returns (ghost ev: Event)
      modifies this, state
      ensures ev.WorkerDied? && ev == WorkerDied(workerID, ev.tasks, ids) && Resolved(old(View()), ev)
      ensures View() == Step(old(View()), ev)
      ensures state.log == old(state.log) + Txns(old(View()), ev)
      ensures runningTasks ==
              map t | t in old(runningTasks) && old(runningTasks)[t] != workerID :: old(runningTasks)[t]
      ensures assignedTasks ==
              map t | t in old(assignedTasks) && !(t in old(runningTasks) && old(runningTasks)[t] == workerID) ::
                old(assignedTasks)[t]
      ensures state.taskState.Keys == old(state.taskState).Keys
      ensures forall t | t in state.taskState ::
                var r := old(state.taskState)[t];
                state.taskState[t] ==
                  if t in old(runningTasks) && old(runningTasks)[t] == workerID
                  then r.(state := Queued, executionId := if t in ids then ids[t] else "") else r
      ensures old(readyQueue) <= readyQueue
      ensures forall t :: t in readyQueue[|old(readyQueue)|..] <==>
                t in old(runningTasks) && old(runningTasks)[t] == workerID && t in old(state.taskState)
    {
      var tasks := TasksOf(workerID);
      ev := WorkerDied(workerID, tasks, ids);
      LetGo(tasks);
      RequeueForm(state.View(), tasks, ids);
      WithoutMembers(tasks, Elems(tasks) - state.taskState.Keys);
      RequeueAndAppend(tasks, ids);
    }

    /** The tasks in a worker's hands, in any order. */
    method TasksOf(workerID: string) returns (tasks: seq<string>)
      ensures Enumerates(tasks, HeldBy(Memory(), workerID))
      ensures forall t :: t in tasks <==> t in runningTasks && runningTasks[t] == workerID
    {
      tasks := [];
      var rest := runningTasks.Keys;
      while rest != {}
        invariant rest <= runningTasks.Keys && NoDup(tasks)
        invariant forall x :: x in tasks <==> x in runningTasks && x !in rest && runningTasks[x] == workerID
        decreases rest
      {
        var t :| t in rest;
        rest := rest - {t};
        if runningTasks[t] == workerID {
          tasks := tasks + [t];
        }
      }
    }

    /** Removes the tasks from the running and assigned tables. */
    method LetGo(tasks: seq<string>)
      modifies this
      ensures Memory() == Released(old(Memory()), Elems(tasks))
    {
      for i := 0 to |tasks|
        invariant Memory() == Released(old(Memory()), Elems(tasks[..i]))
      {
        assert tasks[..i + 1] == tasks[..i] + [tasks[i]];
        assert Elems(tasks[..i + 1]) == Elems(tasks[..i]) + {tasks[i]};
        runningTasks := runningTasks - {tasks[i]};
        assignedTasks := assignedTasks - {tasks[i]};
      }
      assert tasks[..|tasks|] == tasks;
    }

    method LoadStateFromDB() returns (ghost ws: seq<string>, ghost queued: seq<string>)
      modifies this
      ensures Enumerates(ws, state.workflowState.Keys) && Enumerates(queued, InState(state.taskState, Queued))
      ensures Memory() == LoadFrom(state.View(), old(Memory()), ws).(queue := old(readyQueue) + queued)
    {
      var states;
      states, ws := state.GetAllWorkflowStates();
      ghost var st := state.View();
      for i := 0 to |states|
        invariant Memory() == LoadFrom(st, old(Memory()), ws[..i])
      {
        assert ws[..i + 1][..i] == ws[..i];
        var w := states[i].0;
        if states[i].1.WorkflowRunning? && w in state.workflows {
          CacheWorkflow(state.workflows[w]);
        }
      }
      assert ws[..|ws|] == ws;
      LoadFromQueue(st, old(Memory()), ws);
      var list := state.GetTasksInState(Queued);
      queued := list;
      readyQueue := readyQueue + list;
    }

    method CacheWorkflow(spec: WorkflowSpec)
      modifies this
      ensures Memory() == old(Memory()).(
                specCache := old(taskSpecCache) + SpecMap(spec.tasks),
                workflowOf := old(taskWorkflowMap) + OwnerMap(spec.tasks, spec.workflowId),
                policy := old(workflowFailurePolicy)[spec.workflowId := spec.failurePolicy])
    {
      workflowFailurePolicy := workflowFailurePolicy[spec.workflowId := spec.failurePolicy];
      var ts := spec.tasks;
      for i := 0 to |ts|
        invariant Memory() == old(Memory()).(
                    specCache := old(taskSpecCache) + SpecMap(ts[..i]),
                    workflowOf := old(taskWorkflowMap) + OwnerMap(ts[..i], spec.workflowId),
                    policy := old(workflowFailurePolicy)[spec.workflowId := spec.failurePolicy])
      {
        CacheSnoc(old(taskSpecCache), old(taskWorkflowMap), ts[..i], ts[i], spec.workflowId);
        assert ts[..i + 1] == ts[..i] + [ts[i]];
        taskSpecCache := taskSpecCache[ts[i].taskId := ts[i]];
        taskWorkflowMap := taskWorkflowMap[ts[i].taskId := spec.workflowId];
      }
      assert ts[..|ts|] == ts;
    }

    method PrepareRecovery(ids: map<string, string>) returns (ghost running: seq<string>)
      modifies this, state
      ensures Enumerates(running, InState(old(state.taskState), Running))
      ensures state.View() == Fold(old(state.View()), RequeueTxns(running, ids))
      ensures Memory() == old(Memory()).(queue := old(readyQueue) + Present(old(state.taskState), running))
      ensures state.log == old(state.log) + RequeueTxns(running, ids)
    {
      var list := state.GetTasksInState(Running);
      running := list;
      RequeueAndAppend(list, ids);
    }
  }

  /** What the server does on startup, before it accepts calls: a new coordinator
      on the existing store, LoadStateFromDB, PrepareRecovery. It takes the
      restart step, whatever the volatile state was before. */
  method StartUp(state: StateStore, ids: map<string, string>) returns (c: Coordinator, ghost ev: Event)
    modifies state
    ensures fresh(c) && c.state == state
    ensures ev.Restart? && ev.ids == ids && Resolved(Sys(old(state.View()), EMPTY_COORD), ev)
    ensures forall co :: c.View() == Step(Sys(old(state.View()), co), ev)
    ensures state.log == old(state.log) + Txns(Sys(old(state.View()), EMPTY_COORD), ev)
  {
    hide Fold, RequeueTxns, Present, LoadAll, LoadFrom, Enumerates, InState, Step;
    c := new Coordinator(state);
    var ws, queued := c.LoadStateFromDB();
    var running := c.PrepareRecovery(ids);
    ghost var st := old(state.View());
    LoadFromEmpty(st, ws);
    ev := Restart(ws, queued, running, ids);
    assert c.Memory() == RestartCoord(st, ws, queued, running);
    forall co ensures c.View() == Step(Sys(st, co), ev) {
      RestartForm(st, co, ws, queued, running, ids);
    }
  }
}
