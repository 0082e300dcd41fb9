/** The scheduler's records: workflow and task specifications as clients submit
    them, and the task records the store keeps under each task id. */
module Types {

  datatype Option<+T> = None | Some(value: T)

  datatype Result<+T, +E> = Ok(value: T) | Err(error: E)

  datatype TaskState = Pending | Queued | Running | Complete | Failed | Skipped {
    predicate Terminal() {
      Complete? || Failed? || Skipped?
    }

    /** States a task can only be in once its dependencies have been satisfied. */
    predicate Released() {
      Queued? || Running? || Complete? || Failed?
    }
  }

  datatype WorkflowState = WorkflowRunning | WorkflowComplete | WorkflowFailed | WorkflowCancelled

  datatype FailurePolicy = FailFast | SkipDownstream | ContinueIndependent

  datatype TaskSpec = TaskSpec(
    taskId: string,
    dependencies: seq<string>,
    command: string,
    env: map<string, string>,
    timeoutSeconds: int,
    maxRetries: int)

  datatype WorkflowSpec = WorkflowSpec(workflowId: string, tasks: seq<TaskSpec>, failurePolicy: FailurePolicy)

  /** A task record, stored under its own task id. */
  datatype TaskRecord = TaskRecord(
    workflowId: string,
    state: TaskState,
    executionId: string,
    attemptCount: int,
    output: string,
    error: string,
    inDegree: int,
    downstream: seq<string>)

  datatype StoreError = NoError | ErrTaskNotFound | ErrStaleExecution | ErrKeyRequired | ErrKeyTooLarge

  function Ids(ts: seq<TaskSpec>): set<string> {
    set i | 0 <= i < |ts| :: ts[i].taskId
  }

  lemma IdsSnoc(ts: seq<TaskSpec>, t: TaskSpec)
    ensures Ids(ts + [t]) == Ids(ts) + {t.taskId}
  {
    var ts' := ts + [t];
    assert forall i | 0 <= i < |ts| :: ts'[i] == ts[i];
    assert ts'[|ts|] == t;
    forall x | x in Ids(ts') ensures x in Ids(ts) + {t.taskId} {
      var i :| 0 <= i < |ts'| && ts'[i].taskId == x;
      if i < |ts| { assert ts[i].taskId == x; }
    }
  }

  /** The dependency list declared for `t`, or the empty list when `ts` has no such task. */
  function DepsOf(ts: seq<TaskSpec>, t: string): seq<string> {
    if ts == [] then []
    else if ts[0].taskId == t then ts[0].dependencies
    else DepsOf(ts[1..], t)
  }

  ghost predicate DistinctIds(ts: seq<TaskSpec>) {
    forall i, j | 0 <= i < j < |ts| :: ts[i].taskId != ts[j].taskId
  }

  ghost predicate DepsExist(ts: seq<TaskSpec>) {
    forall i, d | 0 <= i < |ts| && d in ts[i].dependencies :: d in Ids(ts)
  }

  lemma {:induction false} DepsOfIndex(ts: seq<TaskSpec>, i: nat)
    requires DistinctIds(ts) && i < |ts|
    ensures DepsOf(ts, ts[i].taskId) == ts[i].dependencies
  {
    if i > 0 {
      assert ts[0].taskId != ts[i].taskId;
      DepsOfIndex(ts[1..], i - 1);
    }
  }
}
