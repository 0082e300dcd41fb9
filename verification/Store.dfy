/** The persistent state and its transactions (internal/store): every
    `db.Update` is one atomic transaction on the three buckets. */
module Stores {
  import opened Types
  import opened Seqs
  import opened Graphs

  type Tasks = map<string, TaskRecord>

  datatype Store = Store(
    specs: map<string, WorkflowSpec>,
    workflows: map<string, WorkflowState>,
    tasks: Tasks)

  function FreshRecord(w: string, inDegree: int, downstream: seq<string>): TaskRecord {
    TaskRecord(w, Pending, "", 0, "", "", inDegree, downstream)
  }

  /** PENDING records for every task of a workflow. */
  function Initialized(T: Tasks, w: string, ts: seq<TaskSpec>, inDegree: map<string, int>, down: Graph): Tasks {
    if ts == [] then T
    else
      var t := ts[|ts| - 1].taskId;
      Initialized(T, w, ts[..|ts| - 1], inDegree, down)[t :=
                                                        FreshRecord(w, Lookup(inDegree, t, 0), Lookup(down, t, []))]
  }

  function WithState(T: Tasks, t: string, state: TaskState): Tasks {
    if t in T then T[t := T[t].(state := state)] else T
  }

  function Assigned(T: Tasks, t: string, x: string): Tasks {
    if t in T then T[t := T[t].(state := Running, executionId := x)] else T
  }

  function FailedWith(T: Tasks, t: string, msg: string, attempts: int): Tasks {
    if t in T then T[t := T[t].(state := Failed, error := msg, attemptCount := attempts)] else T
  }

  function Requeued(T: Tasks, t: string, x: string): Tasks {
    if t in T then T[t := T[t].(state := Queued, executionId := x)] else T
  }

  /** One entry of a completed task's downstream list: a PENDING record loses one
      in-degree, clamped at zero, and is queued when none is left. */
  function ReleaseOne(T: Tasks, d: string): (Tasks, seq<string>) {
    if d !in T || !T[d].state.Pending? then (T, [])
    else
      var left := if T[d].inDegree - 1 < 0 then 0 else T[d].inDegree - 1;
      if left == 0 then (T[d := T[d].(inDegree := left, state := Queued)], [d])
      else (T[d := T[d].(inDegree := left)], [])
  }

  function ReleaseAll(T: Tasks, ds: seq<string>): (Tasks, seq<string>) {
    if ds == [] then (T, [])
    else
      var before := ReleaseAll(T, ds[..|ds| - 1]);
      var after := ReleaseOne(before.0, ds[|ds| - 1]);
      (after.0, before.1 + after.1)
  }

  datatype Completion = Completion(tasks: Tasks, ready: seq<string>, err: StoreError)

  function Completed(T: Tasks, t: string, x: string, output: string): Completion {
    if t !in T then Completion(T, [], ErrTaskNotFound)
    else if T[t].executionId != x then Completion(T, [], ErrStaleExecution)
    else if T[t].state.Complete? then Completion(T, [], NoError)
    else
      var done := T[t := T[t].(state := Complete, output := output)];
      var r := ReleaseAll(done, T[t].downstream);
      Completion(r.0, r.1, NoError)
  }

  /** The non-terminal tasks of a workflow. */
  function OpenTasks(T: Tasks, w: string): set<string> {
    set t | t in T && T[t].workflowId == w && !T[t].state.Terminal()
  }

  function SkipAll(T: Tasks, S: set<string>): Tasks {
    map t | t in T :: if t in S then T[t].(state := Skipped) else T[t]
  }

  function Cancelled(T: Tasks, w: string): Tasks {
    SkipAll(T, OpenTasks(T, w))
  }

  /** The graph of stored downstream lists. */
  function DownGraph(T: Tasks): Graph {
    map t | t in T :: T[t].downstream
  }

  /** The non-terminal tasks reachable from `f` along stored downstream lists. */
  ghost function SkipSet(T: Tasks, f: string): set<string> {
    set t | t in T && !T[t].state.Terminal() && Reaches(DownGraph(T), f, t)
  }

  predicate AllTerminal(T: Tasks, w: string) {
    forall t | t in T && T[t].workflowId == w :: T[t].state.Terminal()
  }

  function Verdict(T: Tasks, w: string): WorkflowState {
    if exists t :: t in T && T[t].workflowId == w && T[t].state.Failed? then WorkflowFailed else WorkflowComplete
  }

  function InState(T: Tasks, state: TaskState): set<string> {
    set t | t in T && T[t].state == state
  }

  // ---- Keys -------------------------------------------------------------------

  /** The longest key bbolt accepts. */
  const MAX_KEY_SIZE := 32768

  /** What bbolt's `Put` answers for a key. */
  function KeyError(k: string): StoreError {
    if k == "" then ErrKeyRequired else if |k| > MAX_KEY_SIZE then ErrKeyTooLarge else NoError
  }

  predicate ValidKey(k: string) {
    KeyError(k).NoError?
  }

  /** bbolt accepts exactly the keys of 1 to 32768 bytes, and says what is wrong with the others. */
  lemma KeyLengths(k: string)
    ensures ValidKey(k) <==> 1 <= |k| <= 32768
    ensures KeyError(k) == ErrKeyRequired <==> |k| == 0
    ensures KeyError(k) == ErrKeyTooLarge <==> |k| > 32768
    ensures KeyError(k).NoError? || KeyError(k).ErrKeyRequired? || KeyError(k).ErrKeyTooLarge?
  {
  }

  /** Every task id can be stored. */
  predicate ValidIds(ts: seq<TaskSpec>) {
    forall i | 0 <= i < |ts| :: ValidKey(ts[i].taskId)
  }

  function WithWorkflow(ws: map<string, WorkflowState>, w: string, v: WorkflowState): map<string, WorkflowState> {
    if ValidKey(w) then ws[w := v] else ws
  }

  /** A write transaction. One that fails on a key is rolled back. */
  datatype Txn =
    | StoreSpec(spec: WorkflowSpec)
    | SetWorkflow(workflow: string, verdict: WorkflowState)
    | InitTasks(owner: string, specs: seq<TaskSpec>, inDegree: map<string, int>, down: Graph)
    | SetState(task: string, state: TaskState)
    | AssignTask(task: string, execution: string)
    | CompleteTask(task: string, execution: string, output: string)
    | FailTask(task: string, message: string, attempts: int)
    | RequeueTask(task: string, execution: string)
    | CancelTasks(workflow: string)

  function ApplyTasks(T: Tasks, tx: Txn): Tasks {
    match tx
    case StoreSpec(_) => T
    case SetWorkflow(_, _) => T
    case InitTasks(w, ts, inDegree, down) => if ValidIds(ts) then Initialized(T, w, ts, inDegree, down) else T
    case SetState(t, state) => WithState(T, t, state)
    case AssignTask(t, x) => Assigned(T, t, x)
    case CompleteTask(t, x, output) => Completed(T, t, x, output).tasks
    case FailTask(t, msg, n) => FailedWith(T, t, msg, n)
    case RequeueTask(t, x) => Requeued(T, t, x)
    case CancelTasks(w) => Cancelled(T, w)
  }

  function Apply(st: Store, tx: Txn): Store {
    match tx
    case StoreSpec(spec) => if ValidKey(spec.workflowId) then st.(specs := st.specs[spec.workflowId := spec]) else st
    case SetWorkflow(w, v) => st.(workflows := WithWorkflow(st.workflows, w, v))
    case _ => st.(tasks := ApplyTasks(st.tasks, tx))
  }

  function Fold(st: Store, txs: seq<Txn>): Store {
    if txs == [] then st else Apply(Fold(st, txs[..|txs| - 1]), txs[|txs| - 1])
  }

  lemma {:induction false} FoldConcat(st: Store, a: seq<Txn>, b: seq<Txn>)
    ensures Fold(st, a + b) == Fold(Fold(st, a), b)
  {
    if b == [] {
      assert a + b == a;
    } else {
      var init := b[..|b| - 1];
      FoldConcat(st, a, init);
      assert (a + b)[..|a + b| - 1] == a + init;
    }
  }

  lemma FoldOne(st: Store, tx: Txn)
    ensures Fold(st, [tx]) == Apply(st, tx)
  {
    assert [tx][..0] == [];
    assert Fold(st, []) == st;
  }

  lemma FoldTwo(st: Store, a: Txn, b: Txn)
    ensures Fold(st, [a, b]) == Apply(Apply(st, a), b)
  {
    FoldOne(st, a);
    assert [a, b][..1] == [a];
  }

  /** What `m` releases do to one record, whatever happens to the others. */
  function AfterReleases(rec: TaskRecord, m: nat): TaskRecord {
    if !rec.state.Pending? || m == 0 then rec
    else if rec.inDegree > m then rec.(inDegree := rec.inDegree - m)
    else rec.(inDegree := 0, state := Queued)
  }

  /** `m` releases use up the whole in-degree of a PENDING record. */
  predicate UsedUp(rec: TaskRecord, m: nat) {
    rec.state.Pending? && 0 < m && rec.inDegree <= m
  }

  lemma TimesLast(ds: seq<string>, d: string)
    requires ds != []
    ensures Times(ds, d) == Times(ds[..|ds| - 1], d) + if d == ds[|ds| - 1] then 1 else 0
  {
    assert ds == ds[..|ds| - 1] + [ds[|ds| - 1]];
    TimesSnoc(ds[..|ds| - 1], ds[|ds| - 1], d);
  }

  /** The loop over a downstream list acts on each record independently. */
  lemma {:induction false} ReleaseAllRecords(T: Tasks, ds: seq<string>)
    ensures ReleaseAll(T, ds).0.Keys == T.Keys
    ensures forall d | d in T :: ReleaseAll(T, ds).0[d] == AfterReleases(T[d], Times(ds, d))
  {
    if ds != [] {
      var init, last := ds[..|ds| - 1], ds[|ds| - 1];
      ReleaseAllRecords(T, init);
      forall d | d in T ensures ReleaseAll(T, ds).0[d] == AfterReleases(T[d], Times(ds, d)) {
        TimesLast(ds, d);
      }
    }
  }

  /** It reports a task once, exactly when the task's in-degree is used up. */
  lemma {:induction false} ReleaseAllReady(T: Tasks, ds: seq<string>)
    ensures NoDup(ReleaseAll(T, ds).1)
    ensures forall d :: d in ReleaseAll(T, ds).1 <==> d in T && UsedUp(T[d], Times(ds, d))
  {
    if ds != [] {
      var init, last := ds[..|ds| - 1], ds[|ds| - 1];
      ReleaseAllReady(T, init);
      ReleaseAllRecords(T, init);
      forall d ensures d in ReleaseAll(T, ds).1 <==> d in T && UsedUp(T[d], Times(ds, d)) {
        TimesLast(ds, d);
      }
    }
  }

  /** InitializeTasksForWorkflow in closed form. */
  lemma {:induction false} InitializedEffect(T: Tasks, w: string, ts: seq<TaskSpec>, inDegree: map<string, int>,
                                             down: Graph)
    ensures var T' := Initialized(T, w, ts, inDegree, down);
            && T'.Keys == T.Keys + Ids(ts)
            && (forall t | t in T && t !in Ids(ts) :: T'[t] == T[t])
            && (forall t | t in Ids(ts) :: T'[t] == FreshRecord(w, Lookup(inDegree, t, 0), Lookup(down, t, [])))
  {
    if ts != [] {
      var init, last := ts[..|ts| - 1], ts[|ts| - 1];
      assert ts == init + [last];
      InitializedEffect(T, w, init, inDegree, down);
      IdsSnoc(init, last);
      hide Ids, Lookup;
    }
  }

  function RequeueTxns(order: seq<string>, ids: map<string, string>): seq<Txn> {
    seq(|order|, i requires 0 <= i < |order| => RequeueTask(order[i], Lookup(ids, order[i], "")))
  }

  function SetStateTxns(order: seq<string>, state: TaskState): seq<Txn> {
    seq(|order|, i requires 0 <= i < |order| => SetState(order[i], state))
  }

  lemma FoldRequeue(st: Store, order: seq<string>, t: string, ids: map<string, string>)
    ensures Fold(st, RequeueTxns(order + [t], ids)) ==
            Apply(Fold(st, RequeueTxns(order, ids)), RequeueTask(t, Lookup(ids, t, "")))
  {
    assert RequeueTxns(order + [t], ids)[..|order|] == RequeueTxns(order, ids);
  }

  lemma FoldSetState(st: Store, order: seq<string>, t: string, state: TaskState)
    ensures Fold(st, SetStateTxns(order + [t], state)) ==
            Apply(Fold(st, SetStateTxns(order, state)), SetState(t, state))
  {
    assert SetStateTxns(order + [t], state)[..|order|] == SetStateTxns(order, state);
  }

  /** Requeueing a list of tasks one transaction at a time. */
  lemma {:induction false} RequeueEffect(st: Store, order: seq<string>, ids: map<string, string>)
    ensures var st' := Fold(st, RequeueTxns(order, ids));
            && st'.specs == st.specs && st'.workflows == st.workflows && st'.tasks.Keys == st.tasks.Keys
            && (forall t | t in st.tasks :: st'.tasks[t] ==
                  if t in order then st.tasks[t].(state := Queued, executionId := Lookup(ids, t, "")) else st.tasks[t])
  {
    if order != [] {
      var init, last := order[..|order| - 1], order[|order| - 1];
      assert order == init + [last];
      RequeueEffect(st, init, ids);
      FoldRequeue(st, init, last, ids);
      hide Fold, RequeueTxns, Lookup;
    }
  }

  /** Writing one state over a list of tasks one transaction at a time. */
  lemma {:induction false} SetStateEffect(st: Store, order: seq<string>, state: TaskState)
    ensures var st' := Fold(st, SetStateTxns(order, state));
            && st'.specs == st.specs && st'.workflows == st.workflows && st'.tasks.Keys == st.tasks.Keys
            && (forall t | t in st.tasks :: st'.tasks[t] ==
                  if t in order then st.tasks[t].(state := state) else st.tasks[t])
  {
    if order != [] {
      var init, last := order[..|order| - 1], order[|order| - 1];
      assert order == init + [last];
      SetStateEffect(st, init, state);
      FoldSetState(st, init, last, state);
      hide Fold, SetStateTxns;
    }
  }
}
