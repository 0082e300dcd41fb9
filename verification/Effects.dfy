/** What each call of a run writes, field by field and without reference to the
    functions that define the calls: who holds a task, what a record says after a
    call, in which order tasks are served, and what a report is answered. */
module Effects {
  import opened Types
  import opened Seqs
  import opened Graphs
  import opened Dags
  import opened Stores
  import opened Systems
  import opened StoreSafety
  import opened StepForms
  import opened Safety
  import opened Liveness
  import opened History
  import opened Outcomes

  // ---- Who holds a task ------------------------------------------------------------------------

  /** The running table names the worker it named before, or the one that is being served. */
  lemma StepRunning(s: Sys, e: Event, t: string)
    requires t in Step(s, e).co.running
    ensures if HandsOut(s, e, t) then Step(s, e).co.running[t] == e.worker
            else t in s.co.running && Step(s, e).co.running[t] == s.co.running[t]
  {
    if e.Restart? {
      LoadAllHeld(s.st, e.workflows);
    }
  }

  lemma RunningIsHeld(s: Sys)
    requires Safe(s)
    ensures s.co.running.Keys == s.co.executions.Keys
  {
    hide StoreSafe;
  }

  /** A handed-out task is with the worker of its latest assignment, under the id drawn then. */
  lemma {:induction false} HolderIsLatest(ss: seq<Sys>, es: seq<Event>, j: nat, t: string)
    requires IsRun(ss, es) && j < |ss| && t in ss[j].co.executions
    ensures t in ss[j].co.running
    ensures exists i :: LatestDraw(ss, es, i, j, t, ss[j].co.executions[t]) && es[i].worker == ss[j].co.running[t]
  {
    hide Enabled, Step, Safe;
    RunSafe(ss, es, j);
    RunningIsHeld(ss[j]);
    if j > 0 {
      var s, e := ss[j - 1], es[j - 1];
      assert ss[j] == Step(s, e);
      StepExecutions(s, e, t);
      StepRunning(s, e, t);
      if HandsOut(s, e, t) {
        assert LatestDraw(ss, es, j - 1, j, t, ss[j].co.executions[t]);
      } else {
        HolderIsLatest(ss, es, j - 1, t);
        var i :| LatestDraw(ss, es, i, j - 1, t, ss[j].co.executions[t]) && es[i].worker == s.co.running[t];
        assert LatestDraw(ss, es, i, j, t, ss[j].co.executions[t]);
      }
    }
  }

  lemma LatestIsUnique(ss: seq<Sys>, es: seq<Event>, i: int, k: int, j: int, t: string, x: string, y: string)
    requires LatestDraw(ss, es, i, j, t, x) && LatestDraw(ss, es, k, j, t, y)
    ensures i == k
  {
  }

  /** The id drawn for a requeued task. */
  function IdFor(ids: map<string, string>, t: string): string {
    if t in ids then ids[t] else ""
  }

  /** A dead worker loses exactly the tasks whose latest assignment went to it: they are
      QUEUED under a new id and stand in the queue. Every other handed-out task stays
      with its worker, under its id, with its record unchanged. */
  lemma DeadWorkerTakesOwn(ss: seq<Sys>, es: seq<Event>, i: nat, j: nat, t: string)
    requires IsRun(ss, es) && j < |es| && es[j].WorkerDied? && t in ss[j].co.executions
    requires LatestDraw(ss, es, i, j, t, ss[j].co.executions[t])
    ensures t in ss[j].st.tasks && t in ss[j + 1].st.tasks
    ensures if es[i].worker == es[j].worker then
              && t !in ss[j + 1].co.executions && t !in ss[j + 1].co.running && t in ss[j + 1].co.queue
              && ss[j + 1].st.tasks[t] == ss[j].st.tasks[t].(state := Queued, executionId := IdFor(es[j].ids, t))
            else
              && t in ss[j + 1].co.executions && ss[j + 1].co.executions[t] == ss[j].co.executions[t]
              && t in ss[j + 1].co.running && ss[j + 1].co.running[t] == es[i].worker
              && t !in ss[j + 1].co.queue && ss[j + 1].st.tasks[t] == ss[j].st.tasks[t]
  {
    hide Enabled, Safe;
    var s, e := ss[j], es[j];
    assert Enabled(s, e) && ss[j + 1] == Step(s, e);
    HolderIsLatest(ss, es, j, t);
    var k :| LatestDraw(ss, es, k, j, t, s.co.executions[t]) && es[k].worker == s.co.running[t];
    LatestIsUnique(ss, es, i, k, j, t, s.co.executions[t], s.co.executions[t]);
    RunSafe(ss, es, j);
    HeldFacts(s, t);
    HeldNotQueued(s, t);
    DeadTasks(s, e, t);
  }

  lemma HeldNotQueued(s: Sys, t: string)
    requires Safe(s) && t in s.co.executions
    ensures t !in s.co.queue
  {
    hide StoreSafe;
  }

  /** What becomes of one task when a worker is declared dead. */
  lemma DeadTasks(s: Sys, e: Event, t: string)
    requires Safe(s) && Enabled(s, e) && e.WorkerDied? && t in s.st.tasks
    ensures var s', own := Step(s, e), t in s.co.running && s.co.running[t] == e.worker;
            && t in s'.st.tasks
            && s'.st.tasks[t] == (if own then s.st.tasks[t].(state := Queued, executionId := IdFor(e.ids, t))
                                  else s.st.tasks[t])
            && (t in s'.co.executions <==> t in s.co.executions && !own)
            && (t in s'.co.running <==> t in s.co.running && !own)
            && (t in s'.co.queue <==> t in s.co.queue || own)
            && (t in s'.co.executions ==> s'.co.executions[t] == s.co.executions[t])
            && (t in s'.co.running ==> s'.co.running[t] == s.co.running[t])
  {
    hide Safe;
    assert t in e.tasks <==> t in s.co.running && s.co.running[t] == e.worker;
    WorkerDiedForm(s, e.worker, e.tasks, e.ids);
    WithoutMembers(e.tasks, Elems(e.tasks) - s.st.tasks.Keys);
  }

  // ---- What a record says -----------------------------------------------------------------------

  /** The call reports on `t` under its current id. */
  predicate Reports(s: Sys, e: Event, t: string) {
    (e.Succeed? || e.Fail?) && e.task == t && t in s.co.executions && s.co.executions[t] == e.execution
  }

  /** The reported output is stored. */
  lemma SuccessRecorded(ss: seq<Sys>, es: seq<Event>, i: nat, t: string)
    requires IsRun(ss, es) && i < |es| && es[i].Succeed? && Reports(ss[i], es[i], t)
    ensures t in ss[i].st.tasks && t in ss[i + 1].st.tasks
    ensures ss[i + 1].st.tasks[t] == ss[i].st.tasks[t].(state := Complete, output := es[i].output)
    ensures t !in ss[i + 1].co.executions && t !in ss[i + 1].co.running
  {
    hide StoreSafe, CoordSafe, Enabled, Linked, DepGraph, DepsComplete;
    var s, e := ss[i], es[i];
    assert ss[i + 1] == Step(s, e);
    RunSafe(ss, es, i);
    HeldFacts(s, t);
    SafeLinks(s.st);
    SucceedForm(s, t, e.execution, e.output);
    CompletedRecords(DepGraph(s.st), s.st.tasks, t, e.execution, e.output);
    CompletionFrame(DepGraph(s.st), s.st.tasks, t, e.execution, e.output);
  }

  /** Giving up stores the reported message. */
  lemma FailureRecorded(ss: seq<Sys>, es: seq<Event>, i: nat, t: string)
    requires IsRun(ss, es) && i < |es| && GivesUp(ss[i], es[i]) && t == es[i].task
    ensures t in ss[i].st.tasks && t in ss[i + 1].st.tasks
    ensures ss[i + 1].st.tasks[t] ==
            ss[i].st.tasks[t].(state := Failed, error := es[i].message, attemptCount := 1)
    ensures t !in ss[i + 1].co.executions && t !in ss[i + 1].co.running
  {
    hide Safe, Enabled, AttemptsOk;
    assert Enabled(ss[i], es[i]) && ss[i + 1] == Step(ss[i], es[i]);
    RunSafe(ss, es, i);
    RetryAccounting(ss, es, i);
    NotYetFailed(ss[i], t);
    GivenUpRecord(ss[i], es[i]);
  }

  lemma NotYetFailed(s: Sys, t: string)
    requires Safe(s) && AttemptsOk(s.st) && t in s.co.executions
    ensures t in s.st.tasks && s.st.tasks[t].attemptCount == 0
  {
    hide Safe, DeclaresRetries;
    HeldFacts(s, t);
  }

  lemma GivenUpRecord(s: Sys, e: Event)
    requires Safe(s) && Enabled(s, e) && GivesUp(s, e)
    ensures var t, s' := e.task, Step(s, e);
            && t in s'.st.tasks
            && s'.st.tasks[t] == s.st.tasks[t].(state := Failed, error := e.message,
                                                attemptCount := s.st.tasks[t].attemptCount + 1)
            && t !in s'.co.executions && t !in s'.co.running
  {
    hide Safe, SkipSet;
    FailForm(s, e.task, e.execution, e.message, e.newId, e.skipped);
    FailSkipsPendingHere(s, e);
  }

  /** A retry queues the task under the new id and leaves the rest of its record. */
  lemma RetryRecorded(ss: seq<Sys>, es: seq<Event>, i: nat, t: string)
    requires IsRun(ss, es) && i < |es| && es[i].Fail? && Reports(ss[i], es[i], t) && !GivesUp(ss[i], es[i])
    ensures t in ss[i].st.tasks && t in ss[i + 1].st.tasks
    ensures ss[i + 1].st.tasks[t] == ss[i].st.tasks[t].(state := Queued, executionId := es[i].newId)
    ensures t !in ss[i + 1].co.executions && t !in ss[i + 1].co.running
    ensures ss[i + 1].co.queue == ss[i].co.queue + [t]
  {
    hide Safe, Enabled;
    var s, e := ss[i], es[i];
    assert ss[i + 1] == Step(s, e);
    RunSafe(ss, es, i);
    HeldFacts(s, t);
    RetryForm(s, t, e.execution, e.message, e.newId, e.skipped);
  }

  /** An assignment stores its id and names its worker. */
  lemma AssignmentRecorded(ss: seq<Sys>, es: seq<Event>, i: nat, t: string)
    requires IsRun(ss, es) && i < |es| && HandsOut(ss[i], es[i], t)
    ensures t in ss[i + 1].st.tasks
    ensures ss[i + 1].st.tasks[t] == ss[i].st.tasks[t].(state := Running, executionId := es[i].execution)
    ensures ss[i + 1].co.executions == ss[i].co.executions[t := es[i].execution]
    ensures ss[i + 1].co.running == ss[i].co.running[t := es[i].worker]
    ensures ss[i].co.queue == [t] + ss[i + 1].co.queue
  {
    hide Safe, Enabled;
    assert ss[i + 1] == Step(ss[i], es[i]);
    AssignForm(ss[i], es[i].worker, es[i].execution);
  }

  /** The one field that several calls write: the execution id. */
  function ExpectedId(s: Sys, e: Event, t: string, r: TaskRecord): string {
    match e
    case Assign(_, x) => if HandsOut(s, e, t) then x else r.executionId
    case Fail(_, _, _, newId, _) => if Reports(s, e, t) && !GivesUp(s, e) then newId else r.executionId
    case WorkerDied(worker, _, ids) =>
      if t in s.co.running && s.co.running[t] == worker then IdFor(ids, t) else r.executionId
    case Restart(_, _, _, ids) => if r.state.Running? then IdFor(ids, t) else r.executionId
    case _ => r.executionId
  }

  /** The fields of a record other than its state and its in-degree after a call. */
  ghost predicate FieldsAfter(s: Sys, e: Event, t: string, r: TaskRecord, r': TaskRecord) {
    && r'.workflowId == r.workflowId && r'.downstream == r.downstream
    && r'.output == (if e.Succeed? && Reports(s, e, t) then e.output else r.output)
    && r'.error == (if GivesUp(s, e) && e.task == t then e.message else r.error)
    && r'.attemptCount == (if GivesUp(s, e) && e.task == t then r.attemptCount + 1 else r.attemptCount)
    && r'.executionId == ExpectedId(s, e, t, r)
  }

  lemma ReleasesKeepFields(r: TaskRecord, m: nat)
    ensures var r' := AfterReleases(r, m); r' == r.(state := r'.state, inDegree := r'.inDegree)
  {
  }

  lemma SuccessFields(s: Sys, e: Event, t: string)
    requires Safe(s) && e.Succeed? && t in s.st.tasks
    ensures t in Step(s, e).st.tasks && FieldsAfter(s, e, t, s.st.tasks[t], Step(s, e).st.tasks[t])
  {
    hide StoreSafe, CoordSafe, Linked, DepGraph, DepsComplete, Step;
    if Accepts(s.co, e.task, e.execution) {
      HeldFacts(s, e.task);
      SafeLinks(s.st);
      SucceedForm(s, e.task, e.execution, e.output);
      CompletedRecords(DepGraph(s.st), s.st.tasks, e.task, e.execution, e.output);
      hide Completed, AfterReleases, Checked, GivesUp;
      if t != e.task { ReleasesKeepFields(s.st.tasks[t], Times(DepGraph(s.st)[t], e.task)); }
    } else {
      IdleForm(s, e);
    }
  }

  lemma FailureFields(s: Sys, e: Event, t: string)
    requires Safe(s) && Enabled(s, e) && e.Fail? && t in s.st.tasks
    ensures t in Step(s, e).st.tasks && FieldsAfter(s, e, t, s.st.tasks[t], Step(s, e).st.tasks[t])
  {
    hide Safe, SkipSet, Step;
    if !Accepts(s.co, e.task, e.execution) {
      IdleForm(s, e);
    } else {
      HeldFacts(s, e.task);
      if Retries(s, e.task) {
        RetryForm(s, e.task, e.execution, e.message, e.newId, e.skipped);
      } else {
        FailForm(s, e.task, e.execution, e.message, e.newId, e.skipped);
      }
    }
  }

  lemma RequeueFields(s: Sys, e: Event, t: string)
    requires Safe(s) && Enabled(s, e) && (e.WorkerDied? || e.Restart?) && t in s.st.tasks
    ensures t in Step(s, e).st.tasks && FieldsAfter(s, e, t, s.st.tasks[t], Step(s, e).st.tasks[t])
  {
    hide Safe, Fold;
    if e.WorkerDied? {
      WorkerDiedForm(s, e.worker, e.tasks, e.ids);
    } else {
      assert t in e.running <==> t in InState(s.st.tasks, Running);
      RequeueForm(s.st, e.running, e.ids);
    }
  }

  lemma SubmitFields(s: Sys, e: Event, t: string)
    requires Safe(s) && Enabled(s, e) && e.Submit? && t in s.st.tasks
    ensures t in Step(s, e).st.tasks && Step(s, e).st.tasks[t] == s.st.tasks[t]
  {
    hide Safe, Step, SubmittedTasks;
    if Admitted(e.spec) {
      SubmitForm(s, e.spec, e.down, e.roots);
      SubmitFrame(s.st.tasks, e.spec, e.down, e.roots);
    } else {
      IdleForm(s, e);
    }
  }

  /** In every run each call changes exactly the fields it is meant to change. */
  lemma FieldsWritten(ss: seq<Sys>, es: seq<Event>, i: nat, t: string)
    requires IsRun(ss, es) && i < |es| && t in ss[i].st.tasks
    ensures t in ss[i + 1].st.tasks && FieldsAfter(ss[i], es[i], t, ss[i].st.tasks[t], ss[i + 1].st.tasks[t])
  {
    hide Safe, Enabled, Step;
    var s, e := ss[i], es[i];
    assert Enabled(s, e) && ss[i + 1] == Step(s, e);
    RunSafe(ss, es, i);
    match e
    case Submit(_, _, _) => SubmitFields(s, e, t);
    case Assign(worker, x) =>
      if s.co.queue != [] && s.co.queue[0] in s.co.specCache { AssignForm(s, worker, x); } else { IdleForm(s, e); }
    case Succeed(_, _, _) => SuccessFields(s, e, t);
    case Fail(_, _, _, _, _) => FailureFields(s, e, t);
    case Cancel(w) => CancelForm(s, w);
    case WorkerDied(_, _, _) => RequeueFields(s, e, t);
    case Restart(_, _, _, _) => RequeueFields(s, e, t);
  }

  // ---- What a submission writes -------------------------------------------------------------------

  /** A submission that goes through: one record and one cache entry for each task,
      the tasks without dependencies QUEUED at the end of the queue. */
  lemma SubmissionRecorded(s: Sys, spec: WorkflowSpec, down: Graph, roots: seq<string>, k: nat)
    requires IsDag(spec.tasks) && 1 <= |spec.workflowId| <= 32768
    requires forall i | 0 <= i < |spec.tasks| :: 1 <= |spec.tasks[i].taskId| <= 32768
    requires Resolved(s, Submit(spec, down, roots)) && k < |spec.tasks|
    ensures var s', sp := Step(s, Submit(spec, down, roots)), spec.tasks[k];
            && sp.taskId in down && sp.taskId in s'.st.tasks
            && s'.st.tasks[sp.taskId] ==
               TaskRecord(spec.workflowId, if sp.dependencies == [] then Queued else Pending, "", 0, "", "",
                          |sp.dependencies|, down[sp.taskId])
            && (forall j | 0 <= j < |spec.tasks| ::
                  multiset(down[sp.taskId])[spec.tasks[j].taskId] == multiset(spec.tasks[j].dependencies)[sp.taskId])
            && sp.taskId in s'.co.specCache && s'.co.specCache[sp.taskId] == sp
            && sp.taskId in s'.co.workflowOf && s'.co.workflowOf[sp.taskId] == spec.workflowId
            && spec.workflowId in s'.co.policy && s'.co.policy[spec.workflowId] == spec.failurePolicy
            && s'.co.queue == s.co.queue + roots && (sp.taskId in roots <==> sp.dependencies == [])
  {
    var ts, t := spec.tasks, spec.tasks[k].taskId;
    assert Accepted(spec);
    assert t in Ids(ts);
    SubmitForm(s, spec, down, roots);
    SpecIsCached(ts, k);
    hide Acyclic, Fold, Initialized, SpecMap, Txns, Roots, Enumerates, InDegrees;
    DepsOfIndex(ts, k);
    SubmittedRecord(s.st.tasks, spec, down, roots, k);
    hide SubmittedTasks;
    forall j | 0 <= j < |ts| ensures multiset(down[t])[ts[j].taskId] == multiset(ts[j].dependencies)[t] {
      DepsOfIndex(ts, j);
      assert ts[j].taskId in Ids(ts);
      assert Times(down[t], ts[j].taskId) == Times(SpecGraph(ts)[ts[j].taskId], t);
    }
  }

  lemma SpecIsCached(ts: seq<TaskSpec>, k: nat)
    requires DistinctIds(ts) && k < |ts|
    ensures ts[k].taskId in SpecMap(ts) && SpecMap(ts)[ts[k].taskId] == ts[k]
  {
    SpecMapFacts(ts);
    var i :| 0 <= i < |ts| && ts[i] == SpecMap(ts)[ts[k].taskId];
    assert i == k;
  }

  lemma SubmittedRecord(T: Tasks, spec: WorkflowSpec, down: Graph, roots: seq<string>, k: nat)
    requires DistinctIds(spec.tasks) && k < |spec.tasks| && down.Keys == Ids(spec.tasks)
    requires Enumerates(roots, Roots(spec.tasks))
    ensures var T', sp := SubmittedTasks(T, spec, down, roots), spec.tasks[k];
            && sp.taskId in down && sp.taskId in T'
            && T'[sp.taskId] ==
               TaskRecord(spec.workflowId, if sp.dependencies == [] then Queued else Pending, "", 0, "", "",
                          |sp.dependencies|, down[sp.taskId])
  {
    InitializedEffect(T, spec.workflowId, spec.tasks, InDegrees(spec.tasks), down);
    DepsOfIndex(spec.tasks, k);
    hide Initialized;
    assert spec.tasks[k].taskId in Ids(spec.tasks);
  }

  // ---- First come, first served ---------------------------------------------------------------------

  /** `a` stands before `b`. */
  ghost predicate Ahead(q: seq<string>, a: string, b: string) {
    exists i, j :: 0 <= i < j < |q| && q[i] == a && q[j] == b
  }

  /** Whoever stays keeps the order, and whoever comes stands behind them. */
  ghost predicate KeepsOrder(q: seq<string>, q': seq<string>) {
    && (forall a, b | Ahead(q, a, b) && a in q' && b in q' :: Ahead(q', a, b))
    && (forall a, b | a in q && a in q' && b in q' && b !in q :: Ahead(q', a, b))
  }

  lemma {:induction false} FilterKeepsOrder(q: seq<string>, S: set<string>, a: string, b: string)
    requires Ahead(q, a, b) && a !in S && b !in S
    ensures Ahead(Without(q, S), a, b)
  {
    var i, j :| 0 <= i < j < |q| && q[i] == a && q[j] == b;
    var init, last := q[..|q| - 1], q[|q| - 1];
    var rest := Without(init, S);
    if j < |init| {
      assert init[i] == a && init[j] == b;
      FilterKeepsOrder(init, S, a, b);
      var k, l :| 0 <= k < l < |rest| && rest[k] == a && rest[l] == b;
      assert Without(q, S)[k] == a && Without(q, S)[l] == b;
    } else {
      WithoutMembers(init, S);
      assert a == init[i];
      var k :| 0 <= k < |rest| && rest[k] == a;
      assert Without(q, S)[k] == a && Without(q, S)[|rest|] == b;
    }
  }

  lemma AppendKeepsOrder(q: seq<string>, S: set<string>, added: seq<string>)
    requires forall x | x in added :: x !in q
    ensures KeepsOrder(q, Without(q, S) + added)
  {
    var kept, q' := Without(q, S), Without(q, S) + added;
    WithoutMembers(q, S);
    forall a, b | Ahead(q, a, b) && a in q' && b in q' ensures Ahead(q', a, b) {
      FilterKeepsOrder(q, S, a, b);
      var i, j :| 0 <= i < j < |kept| && kept[i] == a && kept[j] == b;
      assert q'[i] == a && q'[j] == b;
    }
    forall a, b | a in q && a in q' && b in q' && b !in q ensures Ahead(q', a, b) {
      var i :| 0 <= i < |kept| && kept[i] == a;
      var j :| 0 <= j < |added| && added[j] == b;
      assert q'[i] == a && q'[|kept| + j] == b;
    }
  }

  lemma TailKeepsOrder(q: seq<string>)
    requires q != [] && NoDup(q)
    ensures KeepsOrder(q, q[1..])
  {
    forall a, b | Ahead(q, a, b) && a in q[1..] && b in q[1..] ensures Ahead(q[1..], a, b) {
      var i, j :| 0 <= i < j < |q| && q[i] == a && q[j] == b;
      assert i > 0;
      assert q[1..][i - 1] == a && q[1..][j - 1] == b;
    }
  }

  /** The queue after a call other than a restart: some entries gone, some new ones at the end. */
  ghost predicate Queues(q: seq<string>, q': seq<string>) {
    || q' == q
    || (q != [] && q' == q[1..])
    || exists S, added :: q' == Without(q, S) + added && forall x | x in added :: x !in q
  }

  lemma StepQueues(s: Sys, e: Event)
    requires Safe(s) && Enabled(s, e) && !e.Restart?
    ensures Queues(s.co.queue, Step(s, e).co.queue)
  {
    hide Safe;
    var q := s.co.queue;
    WithoutDisjoint(q, {});
    match e
    case Submit(spec, down, roots) => SubmitQueues(s, e);
    case Assign(_, _) =>
    case Succeed(t, x, output) =>
      if Accepts(s.co, t, x) { ReadyNotQueued(s, t, x, output); }
    case Fail(t, x, msg, newId, skipped) => FailQueues(s, e);
    case Cancel(w) => assert Step(s, e).co.queue == Without(q, OpenTasks(s.st.tasks, w)) + [];
    case WorkerDied(worker, tasks, ids) =>
      RunningIsHeld(s);
      WithoutMembers(tasks, Elems(tasks) - s.st.tasks.Keys);
      forall x | x in tasks ensures x !in q { HeldNotQueued(s, x); }
      assert Step(s, e).co.queue == Without(q, {}) + Present(s.st.tasks, tasks);
  }

  lemma SubmitQueues(s: Sys, e: Event)
    requires Safe(s) && Enabled(s, e) && e.Submit?
    ensures Queues(s.co.queue, Step(s, e).co.queue)
  {
    hide Safe, Txns, Fold, Acyclic;
    var q := s.co.queue;
    if Accepted(e.spec) {
      forall x | x in e.roots ensures x !in q { if x in q { QueuedFacts(s, x); } }
      WithoutDisjoint(q, {});
      assert Step(s, e).co.queue == Without(q, {}) + e.roots;
    }
  }

  lemma ReadyNotQueued(s: Sys, t: string, x: string, output: string)
    requires Safe(s) && Accepts(s.co, t, x)
    ensures Queues(s.co.queue, Step(s, Succeed(t, x, output)).co.queue)
  {
    hide StoreSafe, CoordSafe, Linked, DepGraph, DepsComplete;
    var q, ready := s.co.queue, Completed(s.st.tasks, t, x, output).ready;
    HeldFacts(s, t);
    SafeLinks(s.st);
    CompletionFrame(DepGraph(s.st), s.st.tasks, t, x, output);
    forall d | d in ready ensures d !in q { if d in q { QueuedFacts(s, d); } }
    WithoutDisjoint(q, {});
    assert Step(s, Succeed(t, x, output)).co.queue == Without(q, {}) + ready;
  }

  lemma FailQueues(s: Sys, e: Event)
    requires Safe(s) && e.Fail?
    ensures Queues(s.co.queue, Step(s, e).co.queue)
  {
    hide Safe;
    var q, t, w := s.co.queue, e.task, Owner(s.co, e.task);
    WithoutDisjoint(q, {});
    if Accepts(s.co, t, e.execution) && t in s.st.tasks {
      if Retries(s, t) {
        HeldNotQueued(s, t);
        assert Step(s, e).co.queue == Without(q, {}) + [t];
      } else if w != "" {
        var S := if Policy(s.co, w).FailFast? then OpenTasks(FailureRecords(s, t, e.message), w) else Elems(e.skipped);
        assert Step(s, e).co.queue == Without(q, S) + [];
      }
    }
  }

  lemma QueuesKeepOrder(q: seq<string>, q': seq<string>)
    requires NoDup(q) && Queues(q, q')
    ensures KeepsOrder(q, q')
  {
    if q != [] && q' == q[1..] {
      TailKeepsOrder(q);
    } else if q' != q {
      var S, added :| q' == Without(q, S) + added && forall x | x in added :: x !in q;
      AppendKeepsOrder(q, S, added);
    }
  }

  lemma StepKeepsOrder(s: Sys, e: Event)
    requires Safe(s) && Enabled(s, e) && !e.Restart?
    ensures KeepsOrder(s.co.queue, Step(s, e).co.queue)
  {
    hide StoreSafe, Enabled, Step, Queues, KeepsOrder;
    StepQueues(s, e);
    QueuesKeepOrder(s.co.queue, Step(s, e).co.queue);
  }

  /** While `a` waits, whoever was behind it, or has left and come back, is behind it. */
  lemma {:induction false} StillAhead(ss: seq<Sys>, es: seq<Event>, i: nat, j: nat, a: string, b: string)
    requires IsRun(ss, es) && i <= j < |ss| && Ahead(ss[i].co.queue, a, b)
    requires forall k | i <= k < j :: !es[k].Restart?
    requires forall k | i <= k <= j :: a in ss[k].co.queue
    ensures b in ss[j].co.queue ==> Ahead(ss[j].co.queue, a, b)
    decreases j
  {
    hide Safe, Enabled, Step, Ahead;
    if i < j {
      StillAhead(ss, es, i, j - 1, a, b);
      RunSafe(ss, es, j - 1);
      assert Enabled(ss[j - 1], es[j - 1]) && ss[j] == Step(ss[j - 1], es[j - 1]);
      StepKeepsOrder(ss[j - 1], es[j - 1]);
    }
  }

  /** First come, first served: between restarts a task is handed out only after every
      task that stood before it has left the queue. */
  lemma ServedInOrder(ss: seq<Sys>, es: seq<Event>, i: nat, j: nat, a: string, b: string)
    requires IsRun(ss, es) && i <= j < |es| && Ahead(ss[i].co.queue, a, b) && HandsOut(ss[j], es[j], b)
    requires forall k | i <= k < j :: !es[k].Restart?
    ensures exists k :: i <= k <= j && a !in ss[k].co.queue
  {
    hide Safe, Enabled, Step;
    if forall k | i <= k <= j :: a in ss[k].co.queue {
      StillAhead(ss, es, i, j, a, b);
      RunSafe(ss, es, j);
      QueueDistinct(ss[j]);
      assert false;
    }
  }

  lemma QueueDistinct(s: Sys)
    requires Safe(s)
    ensures NoDup(s.co.queue)
  {
    hide StoreSafe;
  }

  // ---- What a restart loads -------------------------------------------------------------------------

  /** `t` belongs to a listed workflow that is active. */
  ghost predicate ActiveTask(st: Store, ws: seq<string>, t: string) {
    exists w :: w in ws && IsActive(st, w) && w in st.specs && t in Ids(st.specs[w].tasks)
  }

  lemma {:induction false} LoadedExactly(st: Store, ws: seq<string>)
    requires SpecsOk(st.specs)
    ensures forall t :: t in LoadAll(st, ws).specCache <==> ActiveTask(st, ws, t)
    ensures forall w :: w in LoadAll(st, ws).policy <==> w in ws && IsActive(st, w) && w in st.specs
  {
    if ws != [] {
      hide SpecsOk, LoadOne;
      var init, last := ws[..|ws| - 1], ws[|ws| - 1];
      assert ws == init + [last];
      LoadedExactly(st, init);
      LoadsOne(st, LoadAll(st, init), last);
      hide LoadAll;
      forall t
        ensures ActiveTask(st, ws, t) <==>
                ActiveTask(st, init, t) || (IsActive(st, last) && last in st.specs && t in Ids(st.specs[last].tasks))
      {
        OneMore(st, init, last, t);
      }
    }
  }

  lemma LoadsOne(st: Store, co: Coord, w: string)
    requires SpecsOk(st.specs)
    ensures var co', active := LoadOne(st, co, w), IsActive(st, w) && w in st.specs;
            && (forall t :: t in co'.specCache <==> t in co.specCache || (active && t in Ids(st.specs[w].tasks)))
            && (forall v :: v in co'.policy <==> v in co.policy || (active && v == w))
  {
    if w in st.specs { SpecMapFacts(st.specs[w].tasks); }
    hide SpecMap, IsDag;
  }

  lemma OneMore(st: Store, ws: seq<string>, w: string, t: string)
    ensures ActiveTask(st, ws + [w], t) <==>
            ActiveTask(st, ws, t) || (IsActive(st, w) && w in st.specs && t in Ids(st.specs[w].tasks))
  {
    if ActiveTask(st, ws, t) {
      var v :| v in ws && IsActive(st, v) && v in st.specs && t in Ids(st.specs[v].tasks);
      assert v in ws + [w];
    }
    if IsActive(st, w) && w in st.specs && t in Ids(st.specs[w].tasks) { assert w in ws + [w]; }
  }

  /** A restart caches the specs and policies of exactly the active workflows. */
  lemma RestartLoadsActive(ss: seq<Sys>, es: seq<Event>, i: nat, t: string, w: string)
    requires IsRun(ss, es) && i < |es| && es[i].Restart?
    ensures t in ss[i + 1].co.specCache <==>
              exists v :: IsActive(ss[i].st, v) && v in ss[i].st.specs && t in Ids(ss[i].st.specs[v].tasks)
    ensures t in ss[i + 1].co.specCache ==>
              && t in ss[i + 1].co.workflowOf && ss[i + 1].co.workflowOf[t] in ss[i].st.specs
              && ss[i + 1].co.specCache[t] in ss[i].st.specs[ss[i + 1].co.workflowOf[t]].tasks
              && ss[i + 1].co.specCache[t].taskId == t
    ensures w in ss[i + 1].co.policy <==> IsActive(ss[i].st, w) && w in ss[i].st.specs
    ensures w in ss[i + 1].co.policy ==> ss[i + 1].co.policy[w] == ss[i].st.specs[w].failurePolicy
  {
    hide Safe, Fold, IsDag, LoadAll, SpecsOk;
    var s, e := ss[i], es[i];
    assert Enabled(s, e) && ss[i + 1] == Step(s, e);
    RunSafe(ss, es, i);
    SafeStore(s);
    SafeSpecs(s.st);
    LoadedExactly(s.st, e.workflows);
    LoadAllCacheOk(s.st, e.workflows);
  }

  // ---- What a report is answered --------------------------------------------------------------------

  /** A success is answered without error if and only if it is accepted, or repeats the
      id of a COMPLETE record. */
  lemma SuccessAnswer(ss: seq<Sys>, es: seq<Event>, i: nat, t: string, x: string, output: string)
    requires IsRun(ss, es) && i < |ss|
    ensures var s := ss[i];
            SucceedError(s, t, x, output).NoError? <==>
              || (t in s.co.executions && s.co.executions[t] == x)
              || (t in s.st.tasks && s.st.tasks[t].state.Complete? && s.st.tasks[t].executionId == x)
  {
    hide Safe;
    RunSafe(ss, es, i);
    if t in ss[i].co.executions { HeldFacts(ss[i], t); }
  }
}
