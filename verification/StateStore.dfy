/** The store as the program implements it (internal/store/task_state.go,
    workflow_spec.go, workflow_state.go, workers.go): an object whose methods
    overwrite records in place, with the loops of each transaction. A bucket's
    ForEach visits its keys in an arbitrary order here. */
module StateStores {
  import opened Types
  import opened Seqs
  import opened Graphs
  import opened Stores

  datatype TaskStatus = TaskStatus(taskId: string, state: TaskState, attemptCount: int, output: string, error: string)

  function StatusOf(T: Tasks, t: string): TaskStatus
    requires t in T
  {
    TaskStatus(t, T[t].state, T[t].attemptCount, T[t].output, T[t].error)
  }

  lemma InitializedNone(T: Tasks, w: string, inDegrees: map<string, int>, downstream: Graph)
    ensures Initialized(T, w, [], inDegrees, downstream) == T
  {
  }

  lemma InitializedNext(T: Tasks, w: string, ts: seq<TaskSpec>, t: TaskSpec, inDegrees: map<string, int>,
                        downstream: Graph)
    ensures Initialized(T, w, ts + [t], inDegrees, downstream) ==
            Initialized(T, w, ts, inDegrees, downstream)[
              t.taskId := TaskRecord(w, Pending, "", 0, "", "", Lookup(inDegrees, t.taskId, 0),
                                     Lookup(downstream, t.taskId, []))]
  {
    assert (ts + [t])[..|ts|] == ts;
  }

  lemma InitializedFields(T: Tasks, w: string, ts: seq<TaskSpec>, inDegrees: map<string, int>, downstream: Graph)
    ensures var T' := Initialized(T, w, ts, inDegrees, downstream);
            && T'.Keys == T.Keys + Ids(ts)
            && (forall t | t in T && t !in Ids(ts) :: T'[t] == T[t])
            && (forall t | t in Ids(ts) ::
                  T'[t] == TaskRecord(w, Pending, "", 0, "", "", if t in inDegrees then inDegrees[t] else 0,
                                      if t in downstream then downstream[t] else []))
  {
    InitializedEffect(T, w, ts, inDegrees, downstream);
    hide Initialized;
  }

  /** The store refuses the id of the task at `i` and of none before it. */
  predicate FirstRefused(tasks: seq<TaskSpec>, i: int) {
    && 0 <= i < |tasks| && !(1 <= |tasks[i].taskId| <= 32768)
    && forall j | 0 <= j < i :: 1 <= |tasks[j].taskId| <= 32768
  }

  // ---- The breadth-first search of SkipDownstreamTasks ---------------------------------------

  /** Every id that the stored graph mentions. */
  function Mentioned(T: Tasks): set<string> {
    T.Keys + set t, d | t in T && d in T[t].downstream :: d
  }

  /** `seen` and `todo` lie below `f`, and hold every successor of `f` and of `seen`. */
  ghost predicate Frontier(h: Graph, f: string, seen: set<string>, todo: seq<string>)
    requires f in h
  {
    && (forall x | x in seen || x in todo :: Reaches(h, f, x))
    && (forall y | y in h[f] :: y in seen || y in todo)
    && (forall x, y | x in seen && x in h && y in h[x] :: y in seen || y in todo)
  }

  /** The tasks marked so far are the unfinished ones among those seen. */
  ghost predicate Marked(T: Tasks, seen: set<string>, skipped: seq<string>) {
    NoDup(skipped) && forall x :: x in skipped <==> x in seen && x in T && !T[x].state.Terminal()
  }

  lemma StartFrontier(h: Graph, f: string)
    requires f in h
    ensures Frontier(h, f, {}, h[f])
  {
    forall x | x in h[f] ensures Reaches(h, f, x) {
      EdgeReaches(h, f, x);
    }
  }

  /** Taking the head off the list, when it was seen before or has no record. */
  lemma DropHead(h: Graph, f: string, seen: set<string>, todo: seq<string>)
    requires f in h && Frontier(h, f, seen, todo) && todo != [] && (todo[0] in seen || todo[0] !in h)
    ensures Frontier(h, f, seen + {todo[0]}, todo[1..])
  {
    assert forall y | y in todo :: y == todo[0] || y in todo[1..];
  }

  /** Visiting the head. */
  lemma VisitHead(h: Graph, f: string, seen: set<string>, todo: seq<string>)
    requires f in h && Frontier(h, f, seen, todo) && todo != [] && todo[0] in h
    ensures Frontier(h, f, seen + {todo[0]}, todo[1..] + h[todo[0]])
  {
    var t, rest := todo[0], todo[1..] + h[todo[0]];
    assert forall y | y in todo :: y == t || y in rest;
    forall x | x in rest ensures Reaches(h, f, x) {
      if x in h[t] {
        EdgeReaches(h, t, x);
        assert t in todo;
        ReachesTransitive(h, f, t, x);
      } else {
        assert x in todo;
      }
    }
  }

  /** With nothing left to visit, the seen tasks are exactly those below `f`. */
  lemma FrontierDone(h: Graph, f: string, seen: set<string>, x: string)
    requires f in h && Frontier(h, f, seen, [])
    ensures x in seen <==> Reaches(h, f, x)
  {
    if Reaches(h, f, x) {
      ReachesInside(h, seen, f, x);
    }
  }

  /** The state of the search below `f`, over the records `T` it started from. */
  ghost predicate Searching(T: Tasks, f: string, seen: set<string>, todo: seq<string>, skipped: seq<string>) {
    && f in T && Frontier(DownGraph(T), f, seen, todo) && Marked(T, seen, skipped)
    && seen <= Mentioned(T) && forall x | x in todo :: x in Mentioned(T)
  }

  lemma SearchStart(T: Tasks, f: string)
    requires f in T
    ensures Searching(T, f, {}, T[f].downstream, [])
  {
    StartFrontier(DownGraph(T), f);
  }

  lemma SearchDrop(T: Tasks, f: string, seen: set<string>, todo: seq<string>, skipped: seq<string>)
    requires Searching(T, f, seen, todo, skipped) && todo != [] && (todo[0] in seen || todo[0] !in T)
    ensures Searching(T, f, seen + {todo[0]}, todo[1..], skipped)
    ensures if todo[0] in seen then seen + {todo[0]} == seen
            else |Mentioned(T) - (seen + {todo[0]})| < |Mentioned(T) - seen|
  {
    DropHead(DownGraph(T), f, seen, todo);
    assert Mentioned(T) - (seen + {todo[0]}) == Mentioned(T) - seen - {todo[0]};
  }

  lemma SearchVisit(T: Tasks, f: string, seen: set<string>, todo: seq<string>, skipped: seq<string>)
    requires Searching(T, f, seen, todo, skipped) && todo != [] && todo[0] !in seen && todo[0] in T
    ensures Searching(T, f, seen + {todo[0]}, todo[1..] + T[todo[0]].downstream,
                      if T[todo[0]].state.Terminal() then skipped else skipped + [todo[0]])
    ensures |Mentioned(T) - (seen + {todo[0]})| < |Mentioned(T) - seen|
  {
    VisitHead(DownGraph(T), f, seen, todo);
    assert Mentioned(T) - (seen + {todo[0]}) == Mentioned(T) - seen - {todo[0]};
  }

  /** When nothing is left to visit, exactly the skip set has been marked. */
  lemma SearchDone(T: Tasks, f: string, seen: set<string>, skipped: seq<string>)
    requires Searching(T, f, seen, [], skipped)
    ensures Enumerates(skipped, SkipSet(T, f))
  {
    forall x ensures x in seen <==> Reaches(DownGraph(T), f, x) {
      FrontierDone(DownGraph(T), f, seen, x);
    }
  }

  /** The records while the tasks in `skipped` have been marked. */
  ghost predicate MarkedRecords(T: Tasks, T': Tasks, skipped: seq<string>) {
    T'.Keys == T.Keys && forall t | t in T :: T'[t] == if t in skipped then T[t].(state := Skipped) else T[t]
  }

  /** A task not seen yet is not marked yet. */
  lemma UnseenUnmarked(T: Tasks, f: string, seen: set<string>, todo: seq<string>, skipped: seq<string>, t: string)
    requires Searching(T, f, seen, todo, skipped) && t !in seen
    ensures t !in skipped
  {
  }

  lemma MarkOne(T: Tasks, T': Tasks, skipped: seq<string>, t: string)
    requires MarkedRecords(T, T', skipped) && t in T && t !in skipped
    ensures T'[t] == T[t] && MarkedRecords(T, WithState(T', t, Skipped), skipped + [t])
  {
  }

  class StateStore {
    var workflows: map<string, WorkflowSpec>
    var workflowState: map<string, WorkflowState>
    var taskState: Tasks

    /** The write transactions so far, refused ones included. */
    ghost var log: seq<Txn>

    constructor ()
      ensures View() == Store(map[], map[], map[]) && log == []
    {
      workflows, workflowState, taskState, log := map[], map[], map[], [];
    }

    ghost function View(): Store
      reads this
    {
      Store(workflows, workflowState, taskState)
    }

    method StoreWorkflow(workflow: WorkflowSpec) returns (err: StoreError)
      modifies this
      ensures View() == Apply(old(View()), StoreSpec(workflow))
      ensures log == old(log) + [StoreSpec(workflow)]
      ensures err == KeyError(workflow.workflowId)
      ensures err.NoError? <==> 1 <= |workflow.workflowId| <= 32768
      ensures workflows == if err.NoError? then old(workflows)[workflow.workflowId := workflow] else old(workflows)
    {
      log := log + [StoreSpec(workflow)];
      err := KeyError(workflow.workflowId);
      if err.NoError? {
        workflows := workflows[workflow.workflowId := workflow];
      }
    }

    method InitWorkflowState(w: string) returns (err: StoreError)
      modifies this
      ensures View() == Apply(old(View()), SetWorkflow(w, WorkflowRunning))
      ensures log == old(log) + [SetWorkflow(w, WorkflowRunning)]
      ensures err == KeyError(w)
      ensures workflowState ==
              if 1 <= |w| <= 32768 then old(workflowState)[w := WorkflowRunning] else old(workflowState)
    {
      err := UpdateWorkflowState(w, WorkflowRunning);
    }

    method UpdateWorkflowState(w: string, state: WorkflowState) returns (err: StoreError)
      modifies this
      ensures View() == Apply(old(View()), SetWorkflow(w, state))
      ensures log == old(log) + [SetWorkflow(w, state)]
      ensures err == KeyError(w)
      ensures workflowState == if 1 <= |w| <= 32768 then old(workflowState)[w := state] else old(workflowState)
    {
      log := log + [SetWorkflow(w, state)];
      err := KeyError(w);
      if err.NoError? {
        workflowState := workflowState[w := state];
      }
    }

    /** Writes the records one by one; the first task id that is no key rolls the transaction back. */
    method InitializeTasksForWorkflow(w: string, tasks: seq<TaskSpec>, inDegrees: map<string, int>, downstream: Graph)
      returns (err: StoreError)
      modifies this
      ensures View() == Apply(old(View()), InitTasks(w, tasks, inDegrees, downstream))
      ensures log == old(log) + [InitTasks(w, tasks, inDegrees, downstream)]
      ensures err.NoError? <==> ValidIds(tasks)
      ensures !err.NoError? ==> exists i :: FirstRefused(tasks, i) && err == KeyError(tasks[i].taskId)
      ensures err.NoError? ==>
                && taskState.Keys == old(taskState).Keys + Ids(tasks)
                && (forall t | t in old(taskState) && t !in Ids(tasks) :: taskState[t] == old(taskState)[t])
                && (forall t | t in Ids(tasks) ::
                      taskState[t] == TaskRecord(w, Pending, "", 0, "", "",
                                                 if t in inDegrees then inDegrees[t] else 0,
                                                 if t in downstream then downstream[t] else []))
    {
      log := log + [InitTasks(w, tasks, inDegrees, downstream)];
      hide Initialized, FirstRefused, ValidIds, KeyError;
      var bucket;
      bucket, err := PutRecords(w, tasks, inDegrees, downstream);
      if err.NoError? {
        InitializedFields(taskState, w, tasks, inDegrees, downstream);
        taskState := bucket;
      }
    }

    /** The records written one by one, up to the first id the bucket refuses. */
    method PutRecords(w: string, tasks: seq<TaskSpec>, inDegrees: map<string, int>, downstream: Graph)
      returns (bucket: Tasks, err: StoreError)
      ensures err.NoError? <==> ValidIds(tasks)
      ensures err.NoError? ==> bucket == Initialized(taskState, w, tasks, inDegrees, downstream)
      ensures !err.NoError? ==> exists i :: FirstRefused(tasks, i) && err == KeyError(tasks[i].taskId)
    {
      InitializedNone(taskState, w, inDegrees, downstream);
      hide Initialized, Lookup;
      bucket := taskState;
      for i := 0 to |tasks|
        invariant forall j | 0 <= j < i :: ValidKey(tasks[j].taskId)
        invariant bucket == Initialized(taskState, w, tasks[..i], inDegrees, downstream)
      {
        var t := tasks[i].taskId;
        err := KeyError(t);
        if !err.NoError? {
          assert FirstRefused(tasks, i);
          return;
        }
        bucket := bucket[t := TaskRecord(w, Pending, "", 0, "", "", Lookup(inDegrees, t, 0),
                                         Lookup(downstream, t, []))];
        InitializedNext(taskState, w, tasks[..i], tasks[i], inDegrees, downstream);
        assert tasks[..i + 1] == tasks[..i] + [tasks[i]];
      }
      assert tasks[..|tasks|] == tasks;
      err := NoError;
    }

    method GetTask(t: string) returns (r: Result<TaskRecord, StoreError>)
      ensures r == if t in taskState then Ok(taskState[t]) else Err(ErrTaskNotFound)
    {
      if t !in taskState {
        return Err(ErrTaskNotFound);
      }
      r := Ok(taskState[t]);
    }

    method UpdateTaskState(t: string, state: TaskState) returns (err: StoreError)
      modifies this
      ensures View() == Apply(old(View()), SetState(t, state))
      ensures log == old(log) + [SetState(t, state)]
      ensures t in old(taskState) ==> taskState == old(taskState)[t := old(taskState)[t].(state := state)]
      ensures err == if t in old(taskState) then NoError else ErrTaskNotFound
    {
      log := log + [SetState(t, state)];
      if t !in taskState {
        return ErrTaskNotFound;
      }
      var record := taskState[t];
      record := record.(state := state);
      taskState := taskState[t := record];
      err := NoError;
    }

    method AssignTask(t: string, executionID: string) returns (err: StoreError)
      modifies this
      ensures View() == Apply(old(View()), Txn.AssignTask(t, executionID))
      ensures log == old(log) + [Txn.AssignTask(t, executionID)]
      ensures t in old(taskState) ==>
                taskState == old(taskState)[t := old(taskState)[t].(state := Running, executionId := executionID)]
      ensures err == if t in old(taskState) then NoError else ErrTaskNotFound
    {
      log := log + [Txn.AssignTask(t, executionID)];
      if t !in taskState {
        return ErrTaskNotFound;
      }
      var record := taskState[t];
      record := record.(state := Running);
      record := record.(executionId := executionID);
      taskState := taskState[t := record];
      err := NoError;
    }

    method CompleteTask(t: string, executionID: string, output: string) returns (ready: seq<string>, err: StoreError)
      modifies this
      ensures View() == Apply(old(View()), Txn.CompleteTask(t, executionID, output))
      ensures log == old(log) + [Txn.CompleteTask(t, executionID, output)]
      ensures var c := Completed(old(taskState), t, executionID, output); ready == c.ready && err == c.err
      ensures err == if t !in old(taskState) then ErrTaskNotFound
                     else if old(taskState)[t].executionId != executionID then ErrStaleExecution else NoError
      ensures err.NoError? && old(taskState)[t].state.Complete? ==> taskState == old(taskState) && ready == []
      ensures err.NoError? && !old(taskState)[t].state.Complete? ==>
                && t in taskState && taskState[t] == old(taskState)[t].(state := Complete, output := output)
                && forall d | d in old(taskState) && d != t ::
                     var r, m := old(taskState)[d], multiset(old(taskState)[t].downstream)[d];
                     d in taskState && taskState[d] ==
                       if !r.state.Pending? || m == 0 then r
                       else if r.inDegree > m then r.(inDegree := r.inDegree - m)
                       else r.(inDegree := 0, state := Queued)
    {
      log := log + [Txn.CompleteTask(t, executionID, output)];
      ready := [];
      if t !in taskState {
        return ready, ErrTaskNotFound;
      }
      var task := taskState[t];
      if task.executionId != executionID {
        return ready, ErrStaleExecution;
      }
      if task.state.Complete? {
        return ready, NoError;
      }
      taskState := taskState[t := task.(state := Complete, output := output)];
      ghost var marked := taskState;
      var ds := task.downstream;
      for i := 0 to |ds|
        invariant (taskState, ready) == ReleaseAll(marked, ds[..i])
        invariant log == old(log) + [Txn.CompleteTask(t, executionID, output)]
        invariant workflows == old(workflows) && workflowState == old(workflowState)
      {
        assert ds[..i + 1][..i] == ds[..i];
        ghost var expected := ReleaseOne(taskState, ds[i]);
        ghost var before := ready;
        if ds[i] in taskState {
          var child := taskState[ds[i]];
          if child.state.Pending? {
            child := child.(inDegree := child.inDegree - 1);
            if child.inDegree < 0 {
              child := child.(inDegree := 0);
            }
            if child.inDegree == 0 {
              child := child.(state := Queued);
              ready := ready + [ds[i]];
            }
            taskState := taskState[ds[i] := child];
          }
        }
        assert taskState == expected.0 && ready == before + expected.1;
      }
      assert ds[..|ds|] == ds;
      ReleaseAllRecords(marked, ds);
      err := NoError;
    }

    method FailTask(t: string, errMsg: string, attemptCount: int) returns (err: StoreError)
      modifies this
      ensures View() == Apply(old(View()), Txn.FailTask(t, errMsg, attemptCount))
      ensures log == old(log) + [Txn.FailTask(t, errMsg, attemptCount)]
      ensures t in old(taskState) ==>
                taskState == old(taskState)[t := old(taskState)[t].(state := Failed, error := errMsg,
                                                                    attemptCount := attemptCount)]
      ensures err == if t in old(taskState) then NoError else ErrTaskNotFound
    {
      log := log + [Txn.FailTask(t, errMsg, attemptCount)];
      if t !in taskState {
        return ErrTaskNotFound;
      }
      var record := taskState[t];
      record := record.(state := Failed);
      record := record.(error := errMsg);
      record := record.(attemptCount := attemptCount);
      taskState := taskState[t := record];
      err := NoError;
    }

    method RequeueTask(t: string, newExecutionID: string) returns (err: StoreError)
      modifies this
      ensures View() == Apply(old(View()), Txn.RequeueTask(t, newExecutionID))
      ensures log == old(log) + [Txn.RequeueTask(t, newExecutionID)]
      ensures t in old(taskState) ==>
                taskState == old(taskState)[t := old(taskState)[t].(state := Queued, executionId := newExecutionID)]
      ensures err == if t in old(taskState) then NoError else ErrTaskNotFound
    {
      log := log + [Txn.RequeueTask(t, newExecutionID)];
      if t !in taskState {
        return ErrTaskNotFound;
      }
      var record := taskState[t];
      record := record.(state := Queued);
      record := record.(executionId := newExecutionID);
      taskState := taskState[t := record];
      err := NoError;
    }

    method GetTasksInState(state: TaskState) returns (tasks: seq<string>)
      ensures Enumerates(tasks, InState(taskState, state))
      ensures forall t :: t in tasks <==> t in taskState && taskState[t].state == state
    {
      tasks := [];
      var rest := taskState.Keys;
      while rest != {}
        invariant rest <= taskState.Keys && NoDup(tasks)
        invariant forall x :: x in tasks <==> x in taskState && x !in rest && taskState[x].state == state
        decreases rest
      {
        var t :| t in rest;
        rest := rest - {t};
        if taskState[t].state == state {
          tasks := tasks + [t];
        }
      }
    }

    method GetTaskStatusesForWorkflow(w: string) returns (statuses: seq<TaskStatus>, ghost order: seq<string>)
      ensures Enumerates(order, set t | t in taskState && taskState[t].workflowId == w)
      ensures |statuses| == |order|
      ensures forall i | 0 <= i < |order| :: order[i] in taskState && statuses[i] == StatusOf(taskState, order[i])
      ensures forall i | 0 <= i < |order| ::
                var r := taskState[order[i]];
                && statuses[i].taskId == order[i] && statuses[i].state == r.state
                && statuses[i].attemptCount == r.attemptCount && statuses[i].output == r.output
                && statuses[i].error == r.error
      ensures forall t | t in taskState && taskState[t].workflowId == w :: StatusOf(taskState, t) in statuses
      ensures forall s | s in statuses :: s.taskId in taskState && taskState[s.taskId].workflowId == w
    {
      statuses, order := [], [];
      var rest := taskState.Keys;
      while rest != {}
        invariant rest <= taskState.Keys && NoDup(order) && |statuses| == |order|
        invariant forall x :: x in order <==> x in taskState && x !in rest && taskState[x].workflowId == w
        invariant forall i | 0 <= i < |order| :: order[i] in taskState && statuses[i] == StatusOf(taskState, order[i])
        decreases rest
      {
        var t :| t in rest;
        rest := rest - {t};
        if taskState[t].workflowId == w {
          statuses := statuses + [TaskStatus(t, taskState[t].state, taskState[t].attemptCount, taskState[t].output,
                                             taskState[t].error)];
          order := order + [t];
        }
      }
      forall t | t in order ensures StatusOf(taskState, t) in statuses {
        var i :| 0 <= i < |order| && order[i] == t;
        assert statuses[i] in statuses;
      }
      forall s | s in statuses ensures s.taskId in order {
        var i :| 0 <= i < |statuses| && statuses[i] == s;
        assert order[i] in order;
      }
    }

    method GetAllWorkflowStates() returns (states: seq<(string, WorkflowState)>, ghost order: seq<string>)
      ensures Enumerates(order, workflowState.Keys) && |states| == |order|
      ensures forall i | 0 <= i < |order| :: states[i] == (order[i], workflowState[order[i]])
      ensures forall w | w in workflowState :: (w, workflowState[w]) in states
      ensures forall p | p in states :: p.0 in workflowState && p.1 == workflowState[p.0]
    {
      states, order := [], [];
      var rest := workflowState.Keys;
      while rest != {}
        invariant rest <= workflowState.Keys && NoDup(order) && |states| == |order|
        invariant forall x :: x in order <==> x in workflowState && x !in rest
        invariant forall i | 0 <= i < |order| :: states[i] == (order[i], workflowState[order[i]])
        decreases rest
      {
        var w :| w in rest;
        rest := rest - {w};
        states := states + [(w, workflowState[w])];
        order := order + [w];
      }
      forall w | w in order ensures (w, workflowState[w]) in states {
        var i :| 0 <= i < |order| && order[i] == w;
        assert states[i] in states;
      }
      forall p | p in states ensures p.0 in order && p.1 == workflowState[p.0] {
        var i :| 0 <= i < |states| && states[i] == p;
        assert order[i] in order;
      }
    }

    method CancelWorkflowTasks(w: string) returns (cancelled: seq<string>)
      modifies this
      ensures View() == Apply(old(View()), CancelTasks(w))
      ensures log == old(log) + [CancelTasks(w)]
      ensures Enumerates(cancelled, OpenTasks(old(taskState), w))
      ensures taskState.Keys == old(taskState).Keys
      ensures forall t | t in taskState ::
                var r := old(taskState)[t];
                taskState[t] == if r.workflowId == w && !r.state.Terminal() then r.(state := Skipped) else r
    {
      log := log + [CancelTasks(w)];
      cancelled := [];
      var rest := taskState.Keys;
      while rest != {}
        invariant rest <= old(taskState).Keys && NoDup(cancelled) && log == old(log) + [CancelTasks(w)]
        invariant workflows == old(workflows) && workflowState == old(workflowState)
        invariant forall x :: x in cancelled <==> x in OpenTasks(old(taskState), w) && x !in rest
        invariant taskState == SkipAll(old(taskState), OpenTasks(old(taskState), w) - rest)
        decreases rest
      {
        var t :| t in rest;
        ghost var before := rest;
        rest := rest - {t};
        var record := taskState[t];
        if record.workflowId == w && !record.state.Terminal() {
          taskState := taskState[t := record.(state := Skipped)];
          cancelled := cancelled + [t];
          assert OpenTasks(old(taskState), w) - rest == OpenTasks(old(taskState), w) - before + {t};
        } else {
          assert OpenTasks(old(taskState), w) - rest == OpenTasks(old(taskState), w) - before;
        }
      }
      assert OpenTasks(old(taskState), w) - {} == OpenTasks(old(taskState), w);
    }

    /** The search with its marks, relative to the store `st` it started from. */
    ghost predicate Progressing(st: Store, before: seq<Txn>, f: string, visited: set<string>, queue: seq<string>,
                                skipped: seq<string>)
      reads this
    {
      && Searching(st.tasks, f, visited, queue, skipped)
      && MarkedRecords(st.tasks, taskState, skipped)
      && View() == Fold(st, SetStateTxns(skipped, Skipped)) && log == before + SetStateTxns(skipped, Skipped)
    }

    /** Writes SKIPPED over the task at the head of the search, unless it is finished. */
    method SkipUnfinished(taskID: string, ghost st: Store, ghost before: seq<Txn>, skipped: seq<string>)
      returns (skipped': seq<string>)
      requires taskID in taskState && taskID !in skipped && MarkedRecords(st.tasks, taskState, skipped)
      requires View() == Fold(st, SetStateTxns(skipped, Skipped)) && log == before + SetStateTxns(skipped, Skipped)
      modifies this
      ensures skipped' == if old(taskState[taskID]).state.Terminal() then skipped else skipped + [taskID]
      ensures MarkedRecords(st.tasks, taskState, skipped') && View() == Fold(st, SetStateTxns(skipped', Skipped))
      ensures log == before + SetStateTxns(skipped', Skipped)
    {
      skipped' := skipped;
      if !taskState[taskID].state.Terminal() {
        MarkOne(st.tasks, taskState, skipped, taskID);
        FoldSetState(st, skipped, taskID, Skipped);
        assert SetStateTxns(skipped + [taskID], Skipped) ==
               SetStateTxns(skipped, Skipped) + [SetState(taskID, Skipped)];
        hide MarkedRecords, Fold, SetStateTxns;
        var _ := UpdateTaskState(taskID, Skipped);
        skipped' := skipped' + [taskID];
      }
    }

    /** Takes the head off the search list. */
    method SkipNext(ghost st: Store, ghost before: seq<Txn>, ghost f: string, visited: set<string>,
                    queue: seq<string>, skipped: seq<string>)
      returns (visited': set<string>, queue': seq<string>, skipped': seq<string>)
      requires Progressing(st, before, f, visited, queue, skipped) && queue != []
      modifies this
      ensures Progressing(st, before, f, visited', queue', skipped')
      ensures if queue[0] in visited then visited' == visited && |queue'| < |queue|
              else |Mentioned(st.tasks) - visited'| < |Mentioned(st.tasks) - visited|
    {
      hide Searching, Fold, Mentioned;
      var taskID := queue[0];
      visited', queue', skipped' := visited + {taskID}, queue[1..], skipped;
      if taskID in visited || taskID !in taskState {
        SearchDrop(st.tasks, f, visited, queue, skipped);
      } else {
        SearchVisit(st.tasks, f, visited, queue, skipped);
        UnseenUnmarked(st.tasks, f, visited, queue, skipped, taskID);
        queue' := queue' + taskState[taskID].downstream;
        skipped' := SkipUnfinished(taskID, st, before, skipped);
      }
    }

    /** Marks everything unfinished below a failed task SKIPPED, one transaction per task. */
    method SkipDownstreamTasks(failed: string) returns (skipped: seq<string>, err: StoreError)
      modifies this
      ensures failed !in old(taskState) ==> err == ErrTaskNotFound && skipped == [] && View() == old(View())
      ensures failed in old(taskState) ==>
                && err == NoError
                && Enumerates(skipped, SkipSet(old(taskState), failed))
                && View() == Fold(old(View()), SetStateTxns(skipped, Skipped))
      ensures log == old(log) + SetStateTxns(skipped, Skipped)
    {
      skipped := [];
      if failed !in taskState {
        return skipped, ErrTaskNotFound;
      }
      ghost var st := View();
      var visited: set<string> := {};
      var queue := taskState[failed].downstream;
      SearchStart(st.tasks, failed);
      hide Searching, Mentioned, SkipSet, Enumerates;
      while queue != []
        invariant Progressing(st, old(log), failed, visited, queue, skipped)
        decreases |Mentioned(st.tasks) - visited|, |queue|
      {
        visited, queue, skipped := SkipNext(st, old(log), failed, visited, queue, skipped);
      }
      SearchDone(st.tasks, failed, visited, skipped);
      err := NoError;
    }

    method IsWorkflowComplete(w: string) returns (complete: bool)
      ensures complete <==> AllTerminal(taskState, w)
    {
      complete := true;
      var rest := taskState.Keys;
      while rest != {}
        invariant rest <= taskState.Keys
        invariant complete <==> forall t | t in taskState && t !in rest && taskState[t].workflowId == w ::
                  taskState[t].state.Terminal()
        decreases rest
      {
        var t :| t in rest;
        rest := rest - {t};
        if taskState[t].workflowId == w && !taskState[t].state.Terminal() {
          complete := false;
        }
      }
    }
  }
}
