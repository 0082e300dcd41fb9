/** Concurrent calls, step by step: each lock region and each transaction of a
    call is a step of its own and calls in flight interleave freely. Where the
    program keeps its lock across several of these steps the model does not, so
    it has every interleaving of the program and more. */
module Interleaving {
  import opened Types
  import opened Seqs
  import opened Graphs
  import opened Dags
  import opened Stores
  import opened Systems
  import opened StoreSafety
  import opened Safety
  import opened CrashRuns

  /** What a call in flight does next. */
  datatype Op =
    // SubmitWorkflow
    | SubmitStore(spec: WorkflowSpec, down: Graph, roots: seq<string>)
    | SubmitState(spec: WorkflowSpec, down: Graph, roots: seq<string>)
    | SubmitTasks(spec: WorkflowSpec, down: Graph, roots: seq<string>)
    | SubmitCaches(spec: WorkflowSpec, roots: seq<string>)
    | SubmitRoots(roots: seq<string>)
    | SubmitAppend(task: string, roots: seq<string>)
    // GetReadyTask
    | GetAssign(task: string, execution: string, worker: string)
    | GetHold(task: string, execution: string, worker: string)
    // CompleteTask and checkWorkflowCompletion
    | CompleteWrite(task: string, execution: string, output: string)
    | CompleteMem(task: string, ready: seq<string>)
    | CompleteOwner(task: string)
    | CheckDone(workflow: string)
    | CheckVerdict(workflow: string)
    | WriteWorkflow(workflow: string, verdict: WorkflowState)
    // FailTask
    | FailRead(task: string, message: string, newId: string)
    | FailDecide(task: string, message: string, newId: string, attempts: int)
    | RetryWrite(task: string, newId: string)
    | RetryMem(task: string)
    | FailWrite(task: string, message: string, attempts: int)
    | FailMem(task: string)
    // applyFailurePolicy, CancelWorkflow
    | CancelWrite(workflow: string, verdict: WorkflowState)
    | CancelMem(dropped: set<string>, workflow: string, verdict: WorkflowState)
    | SkipRead(task: string, workflow: string)
    | SkipLoop(todo: seq<string>, visited: set<string>, skipped: seq<string>, workflow: string)
    | SkipWrite(task: string, todo: seq<string>, visited: set<string>, skipped: seq<string>, workflow: string)
    | SkipMem(skipped: seq<string>, workflow: string)
    // HandleDeadWorker, PrepareRecovery
    | RequeueList(tasks: seq<string>, ids: map<string, string>)
    | RequeueMem(task: string, tasks: seq<string>, ids: map<string, string>)

  datatype Fine = Fine(st: Store, co: Coord, ops: map<nat, Op>)

  const FINE_INITIAL := Fine(INITIAL.st, INITIAL.co, map[])

  datatype Request =
    | SubmitReq(spec: WorkflowSpec, down: Graph, roots: seq<string>)
    | GetReq(worker: string, execution: string)
    | CompleteReq(task: string, execution: string, output: string)
    | FailReq(task: string, execution: string, message: string, newId: string)
    | CancelReq(workflow: string)
    | DeadReq(worker: string, tasks: seq<string>, ids: map<string, string>)

  datatype Move =
    | Start(id: nat, request: Request)
    | Advance(id: nat)
    | Crash(workflows: seq<string>, queued: seq<string>, running: seq<string>, ids: map<string, string>)

  /** The transaction an operation performs next, if its next step is one. */
  function TxnOf(op: Op): Option<Txn> {
    match op
    case SubmitStore(spec, _, _) => Some(StoreSpec(spec))
    case SubmitState(spec, _, _) => Some(SetWorkflow(spec.workflowId, WorkflowRunning))
    case SubmitTasks(spec, down, _) => Some(InitTasks(spec.workflowId, spec.tasks, InDegrees(spec.tasks), down))
    case SubmitRoots(roots) => if roots == [] then None else Some(SetState(roots[0], Queued))
    case GetAssign(t, x, _) => Some(AssignTask(t, x))
    case CompleteWrite(t, x, output) => Some(CompleteTask(t, x, output))
    case WriteWorkflow(w, v) => Some(SetWorkflow(w, v))
    case RetryWrite(t, newId) => Some(RequeueTask(t, newId))
    case FailWrite(t, msg, n) => Some(FailTask(t, msg, n))
    case CancelWrite(w, _) => Some(CancelTasks(w))
    case SkipWrite(t, _, _, _, _) => Some(SetState(t, Skipped))
    case RequeueList(tasks, ids) =>
      if tasks == [] then None else Some(RequeueTask(tasks[0], Lookup(ids, tasks[0], "")))
    case _ => None
  }

  /** The store after the next step of `op`. */
  function After(st: Store, op: Op): Store {
    if TxnOf(op).Some? then Apply(st, TxnOf(op).value) else st
  }

  /** The breadth-first search takes one task off its list. */
  function SkipNext(T: Tasks, todo: seq<string>, visited: set<string>, skipped: seq<string>, w: string): Op
    requires todo != []
  {
    var t, rest := todo[0], todo[1..];
    if t in visited then SkipLoop(rest, visited, skipped, w)
    else if t !in T then SkipLoop(rest, visited + {t}, skipped, w)
    else if T[t].state.Terminal() then SkipLoop(rest + T[t].downstream, visited + {t}, skipped, w)
    else SkipWrite(t, rest + T[t].downstream, visited + {t}, skipped, w)
  }

  /** Where an operation goes after its next step, taken on store `st`; None when the call returns. */
  function Continue(st: Store, co: Coord, op: Op): Option<Op> {
    match op
    case SubmitStore(spec, down, roots) =>
      if ValidKey(spec.workflowId) then Some(SubmitState(spec, down, roots)) else None
    case SubmitState(spec, down, roots) => Some(SubmitTasks(spec, down, roots))
    case SubmitTasks(spec, down, roots) => if ValidIds(spec.tasks) then Some(SubmitCaches(spec, roots)) else None
    case SubmitCaches(spec, roots) => Some(SubmitRoots(roots))
    case SubmitRoots(roots) => if roots == [] then None else Some(SubmitAppend(roots[0], roots[1..]))
    case SubmitAppend(_, roots) => Some(SubmitRoots(roots))
    case GetAssign(t, x, worker) => if t in st.tasks then Some(GetHold(t, x, worker)) else None
    case GetHold(_, _, _) => None
    case CompleteWrite(t, x, output) =>
      var c := Completed(st.tasks, t, x, output);
      if c.err.NoError? then Some(CompleteMem(t, c.ready)) else None
    case CompleteMem(t, _) => Some(CompleteOwner(t))
    case CompleteOwner(t) => if Owner(co, t) != "" then Some(CheckDone(Owner(co, t))) else None
    case CheckDone(w) => if AllTerminal(st.tasks, w) then Some(CheckVerdict(w)) else None
    case CheckVerdict(w) => Some(WriteWorkflow(w, Verdict(st.tasks, w)))
    case WriteWorkflow(_, _) => None
    case FailRead(t, msg, newId) =>
      if t in st.tasks then Some(FailDecide(t, msg, newId, st.tasks[t].attemptCount + 1)) else None
    case FailDecide(t, msg, newId, n) =>
      if n < MaxRetries(co, t) then Some(RetryWrite(t, newId)) else Some(FailWrite(t, msg, n))
    case RetryWrite(t, _) => if t in st.tasks then Some(RetryMem(t)) else None
    case RetryMem(_) => None
    case FailWrite(t, _, _) => if t in st.tasks then Some(FailMem(t)) else None
    case FailMem(t) =>
      var w := Owner(co, t);
      if w == "" then None
      else if Policy(co, w).FailFast? then Some(CancelWrite(w, WorkflowFailed))
      else Some(SkipRead(t, w))
    case CancelWrite(w, v) => Some(CancelMem(OpenTasks(st.tasks, w), w, v))
    case CancelMem(_, w, v) => Some(WriteWorkflow(w, v))
    case SkipRead(t, w) =>
      if t in st.tasks then Some(SkipLoop(st.tasks[t].downstream, {}, [], w)) else Some(CheckDone(w))
    case SkipLoop(todo, visited, skipped, w) =>
      if todo == [] then Some(SkipMem(skipped, w)) else Some(SkipNext(st.tasks, todo, visited, skipped, w))
    case SkipWrite(t, todo, visited, skipped, w) =>
      Some(SkipLoop(todo, visited, if t in st.tasks then skipped + [t] else skipped, w))
    case SkipMem(_, w) => Some(CheckDone(w))
    case RequeueList(tasks, ids) =>
      if tasks == [] then None
      else if tasks[0] in st.tasks then Some(RequeueMem(tasks[0], tasks[1..], ids))
      else Some(RequeueList(tasks[1..], ids))
    case RequeueMem(_, tasks, ids) => Some(RequeueList(tasks, ids))
  }

  /** The volatile state after an operation's next step. */
  function Memory(co: Coord, op: Op): Coord {
    match op
    case SubmitCaches(spec, _) => SubmitCoord(co, spec, [])
    case SubmitAppend(t, _) => co.(queue := co.queue + [t])
    case GetHold(t, x, worker) => co.(running := co.running[t := worker], executions := co.executions[t := x])
    case CompleteMem(t, ready) => Released(co, {t}).(queue := co.queue + ready)
    case RetryMem(t) => Released(co, {t}).(queue := co.queue + [t])
    case FailMem(t) => Released(co, {t})
    case CancelMem(dropped, _, _) => co.(queue := Without(co.queue, dropped))
    case SkipMem(skipped, _) => co.(queue := Without(co.queue, Elems(skipped)))
    case RequeueMem(t, _, _) => co.(queue := co.queue + [t])
    case _ => co
  }

  function WithOp(ops: map<nat, Op>, id: nat, next: Option<Op>): map<nat, Op> {
    if next.Some? then ops[id := next.value] else ops - {id}
  }

  ghost function Begin(s: Fine, id: nat, r: Request): Fine {
    match r
    case SubmitReq(spec, down, roots) =>
      if IsDag(spec.tasks) then s.(ops := s.ops[id := SubmitStore(spec, down, roots)]) else s
    case GetReq(worker, x) =>
      if s.co.queue == [] then s
      else
        var popped := s.(co := s.co.(queue := s.co.queue[1..]));
        if s.co.queue[0] !in s.co.specCache then popped
        else popped.(ops := s.ops[id := GetAssign(s.co.queue[0], x, worker)])
    case CompleteReq(t, x, output) =>
      if Accepts(s.co, t, x) then s.(ops := s.ops[id := CompleteWrite(t, x, output)]) else s
    case FailReq(t, x, msg, newId) =>
      if Accepts(s.co, t, x) then s.(ops := s.ops[id := FailRead(t, msg, newId)]) else s
    case CancelReq(w) => s.(ops := s.ops[id := CancelWrite(w, WorkflowCancelled)])
    case DeadReq(worker, tasks, ids) =>
      s.(co := Released(s.co, Elems(tasks)), ops := s.ops[id := RequeueList(tasks, ids)])
  }

  /** The transaction performed by a move, if any. */
  function MoveTxn(s: Fine, m: Move): Option<Txn> {
    if m.Advance? && m.id in s.ops then TxnOf(s.ops[m.id]) else None
  }

  ghost function Next(s: Fine, m: Move): Fine {
    match m
    case Start(id, r) => Begin(s, id, r)
    case Advance(id) =>
      if id !in s.ops then s
      else
        var op := s.ops[id];
        var st' := After(s.st, op);
        Fine(st', Memory(s.co, op), WithOp(s.ops, id, Continue(s.st, s.co, op)))
    case Crash(ws, queued, running, ids) =>
      Fine(s.st, LoadAll(s.st, ws).(queue := queued), map[0 := RequeueList(running, ids)])
  }

  /** What a submission stores, it stores under ids that no stored workflow uses. */
  ghost predicate FreshStart(st: Store, op: Op) {
    op.SubmitStore? && ValidKey(op.spec.workflowId) ==> Fresh(st, op.spec)
  }

  ghost predicate Possible(s: Fine, m: Move) {
    match m
    case Start(id, r) =>
      && id !in s.ops
      && (r.SubmitReq? && IsDag(r.spec.tasks) ==>
            Transposes(SpecGraph(r.spec.tasks), r.down) && Enumerates(r.roots, Roots(r.spec.tasks)))
      && (r.DeadReq? ==> Enumerates(r.tasks, HeldBy(s.co, r.worker)))
    case Advance(id) =>
      id in s.ops && FreshStart(s.st, s.ops[id])
    case Crash(ws, queued, running, _) => RestartOrders(s.st, ws, queued, running)
  }

  ghost predicate IsInterleaving(ss: seq<Fine>, ms: seq<Move>) {
    && |ss| == |ms| + 1
    && ss[0] == FINE_INITIAL
    && forall i {:trigger ms[i]} | 0 <= i < |ms| :: Possible(ss[i], ms[i]) && ss[i + 1] == Next(ss[i], ms[i])
  }

  /** The move overwrites a COMPLETE record with another state. */
  predicate Clobbers(s: Fine, m: Move) {
    MoveTxn(s, m).Some? && Overwrites(s.st, MoveTxn(s, m).value)
  }

  // ---- The invariant -------------------------------------------------------------------------

  /** `t` is recorded and everything it depends on is COMPLETE. */
  ghost predicate Cleared(st: Store, t: string) {
    t in st.tasks && DepsComplete(DepGraph(st), st.tasks, t)
  }

  /** The tasks an operation may hand out, finish or queue. */
  function Carries(op: Op): set<string> {
    match op
    case SubmitCaches(_, roots) => Elems(roots)
    case SubmitRoots(roots) => Elems(roots)
    case SubmitAppend(t, roots) => Elems(roots) + {t}
    case GetAssign(t, _, _) => {t}
    case GetHold(t, _, _) => {t}
    case CompleteWrite(t, _, _) => {t}
    case CompleteMem(_, ready) => Elems(ready)
    case FailRead(t, _, _) => {t}
    case FailDecide(t, _, _, _) => {t}
    case RetryWrite(t, _) => {t}
    case RetryMem(t) => {t}
    case FailWrite(t, _, _) => {t}
    case RequeueList(tasks, _) => Elems(tasks)
    case RequeueMem(t, tasks, _) => Elems(tasks) + {t}
    case _ => {}
  }

  /** A submission between its validation and its task records; a workflow state to be written is final. */
  ghost predicate SubmitReady(st: Store, op: Op) {
    match op
    case SubmitStore(spec, down, roots) =>
      IsDag(spec.tasks) && Transposes(SpecGraph(spec.tasks), down) && Enumerates(roots, Roots(spec.tasks))
    case SubmitState(spec, down, roots) =>
      InitOk(st, spec.workflowId, spec.tasks, down) && Enumerates(roots, Roots(spec.tasks))
    case SubmitTasks(spec, down, roots) =>
      InitOk(st, spec.workflowId, spec.tasks, down) && Enumerates(roots, Roots(spec.tasks))
    case WriteWorkflow(_, v) => !v.WorkflowRunning?
    case CancelWrite(_, v) => !v.WorkflowRunning?
    case CancelMem(_, _, v) => !v.WorkflowRunning?
    case _ => true
  }

  predicate Reserved(op: Op) {
    op.SubmitState? || op.SubmitTasks?
  }

  /** Submissions in flight are ready for what they write next, and no two have the same name. */
  ghost predicate OpsShaped(st: Store, ops: map<nat, Op>) {
    && (forall i | i in ops :: SubmitReady(st, ops[i]))
    && (forall i, j | i in ops && j in ops && i != j && Reserved(ops[i]) && Reserved(ops[j]) ::
          ops[i].spec.workflowId != ops[j].spec.workflowId)
  }

  ghost predicate OpsOk(st: Store, ops: map<nat, Op>) {
    OpsShaped(st, ops) && forall i, t | i in ops && t in Carries(ops[i]) :: Cleared(st, t)
  }

  ghost predicate MemoryOk(st: Store, co: Coord) {
    && (forall t | t in co.queue :: Cleared(st, t))
    && (forall t | t in co.executions :: Cleared(st, t))
    && co.running.Keys == co.executions.Keys
  }

  ghost predicate FineSafe(s: Fine) {
    StoreSafe(s.st) && MemoryOk(s.st, s.co) && OpsOk(s.st, s.ops)
  }

  // ---- What grows ------------------------------------------------------------------------------

  /** Records and their dependency lists stay, COMPLETE stays COMPLETE. */
  ghost predicate Grows(st: Store, st': Store) {
    && (forall w | w in st.specs :: w in st'.specs && st'.specs[w] == st.specs[w])
    && (forall t | t in st.tasks :: t in st'.tasks)
    && (forall t | t in st.tasks :: DepGraph(st')[t] == DepGraph(st)[t])
    && (forall t | IsComplete(st.tasks, t) :: IsComplete(st'.tasks, t))
  }

  lemma ClearedStays(st: Store, st': Store, t: string)
    requires Grows(st, st') && Cleared(st, t)
    ensures Cleared(st', t)
  {
  }

  lemma ShapeGrows(st: Store, tx: Txn)
    requires Permitted(st, tx) && !tx.StoreSpec? && !tx.InitTasks?
    ensures Grows(st, Apply(st, tx))
  {
    hide Permitted, Apply;
    var st' := Apply(st, tx);
    forall t | IsComplete(st.tasks, t) ensures IsComplete(st'.tasks, t) {
      TxnCompletes(st, tx, t);
    }
    TxnShape(st, tx);
    ShapeKeepsGraph(st, st');
  }

  lemma StoreSpecGrows(st: Store, spec: WorkflowSpec)
    requires Registered(st) && (ValidKey(spec.workflowId) ==> Fresh(st, spec))
    ensures Grows(st, Apply(st, StoreSpec(spec)))
  {
    if ValidKey(spec.workflowId) { StoreSpecGraph(st, spec); }
    hide Registered;
  }

  lemma InitGrows(st: Store, w: string, ts: seq<TaskSpec>, down: Graph)
    requires InitOk(st, w, ts, down)
    ensures Grows(st, st.(tasks := Initialized(st.tasks, w, ts, InDegrees(ts), down)))
  {
    hide Initialized, IsDag, Transposes;
    var T' := Initialized(st.tasks, w, ts, InDegrees(ts), down);
    InitFacts(st.tasks, w, ts, down);
    InitGraph(st, w, T');
    assert DepGraph(st).Keys == st.tasks.Keys && SpecGraph(ts).Keys == Ids(ts);
    hide DepGraph, SpecGraph;
  }

  lemma TxnGrows(st: Store, tx: Txn)
    requires StoreSafe(st) && Permitted(st, tx)
    ensures Grows(st, Apply(st, tx))
  {
    if tx.StoreSpec? {
      StoreSpecGrows(st, tx.spec);
    } else if tx.InitTasks? {
      if ValidIds(tx.specs) { InitGrows(st, tx.owner, tx.specs, tx.down); }
    } else {
      hide StoreSafe;
      ShapeGrows(st, tx);
    }
  }

  // ---- Transactions of calls in flight -------------------------------------------------------------

  /** An operation's transaction is permitted unless it overwrites a COMPLETE record. */
  lemma OpPermitted(st: Store, op: Op)
    requires SubmitReady(st, op) && forall t | t in Carries(op) :: Cleared(st, t)
    requires FreshStart(st, op)
    requires TxnOf(op).Some? && !Overwrites(st, TxnOf(op).value)
    ensures Permitted(st, TxnOf(op).value)
  {
    hide DepGraph;
    if op.SubmitRoots? {
      assert op.roots[0] in Carries(op);
    } else if op.RequeueList? {
      assert op.tasks[0] in Carries(op);
    } else if op.GetAssign? || op.CompleteWrite? || op.RetryWrite? || op.FailWrite? {
      assert op.task in Carries(op);
    }
  }

  /** The tasks reported by a completion are cleared afterwards. */
  lemma ReadyCleared(st: Store, t: string, x: string, output: string)
    requires StoreSafe(Apply(st, CompleteTask(t, x, output)))
    ensures forall d | d in Completed(st.tasks, t, x, output).ready :: Cleared(Apply(st, CompleteTask(t, x, output)), d)
  {
    var st' := Apply(st, CompleteTask(t, x, output));
    ReadyQueued(st.tasks, t, x, output);
    SafeLinks(st');
    hide StoreSafe, Linked, Completed, DepsComplete;
  }

  lemma ReadyQueued(T: Tasks, t: string, x: string, output: string)
    ensures var c := Completed(T, t, x, output); forall d | d in c.ready :: d in c.tasks && c.tasks[d].state.Queued?
  {
    if t in T {
      var done := T[t := T[t].(state := Complete, output := output)];
      ReleaseAllReady(done, T[t].downstream);
      ReleaseAllRecords(done, T[t].downstream);
    }
  }

  /** The roots of an initialised workflow are cleared. */
  lemma RootsCleared(st: Store, spec: WorkflowSpec, down: Graph, roots: seq<string>)
    requires InitOk(st, spec.workflowId, spec.tasks, down) && Enumerates(roots, Roots(spec.tasks))
    ensures var st' := st.(tasks := Initialized(st.tasks, spec.workflowId, spec.tasks, InDegrees(spec.tasks), down));
            forall t | t in roots :: Cleared(st', t)
  {
    var T' := Initialized(st.tasks, spec.workflowId, spec.tasks, InDegrees(spec.tasks), down);
    InitFacts(st.tasks, spec.workflowId, spec.tasks, down);
    hide Initialized;
    InitGraph(st, spec.workflowId, T');
  }

  lemma CarriesLess(st: Store, co: Coord, op: Op)
    requires !op.CompleteWrite? && !op.SubmitTasks? && Continue(st, co, op).Some?
    ensures forall t | t in Carries(Continue(st, co, op).value) :: t in Carries(op)
  {
    hide AllTerminal, Verdict, OpenTasks, MaxRetries, Completed;
  }

  /** Whatever an operation carries after its step is cleared. */
  lemma ContinueCleared(st: Store, co: Coord, op: Op, st': Store)
    requires SubmitReady(st, op) && forall t | t in Carries(op) :: Cleared(st, t)
    requires StoreSafe(st') && Grows(st, st') && st' == After(st, op)
    requires Continue(st, co, op).Some?
    ensures forall t | t in Carries(Continue(st, co, op).value) :: Cleared(st', t)
  {
    hide StoreSafe, Grows, Cleared, Completed, Initialized;
    if op.CompleteWrite? {
      ReadyCleared(st, op.task, op.execution, op.output);
    } else if op.SubmitTasks? {
      RootsCleared(st, op.spec, op.down, op.roots);
    } else {
      hide SubmitReady, Apply, Carries, Continue;
      CarriesLess(st, co, op);
      forall t | t in Carries(Continue(st, co, op).value) ensures Cleared(st', t) {
        ClearedStays(st, st', t);
      }
    }
  }

  // ---- One step keeps the invariant -------------------------------------------------------------------

  lemma OwnSubmitReady(st: Store, co: Coord, op: Op, st': Store)
    requires SubmitReady(st, op) && FreshStart(st, op)
    requires st' == After(st, op)
    requires Continue(st, co, op).Some?
    ensures SubmitReady(st', Continue(st, co, op).value)
  {
    hide AllTerminal, OpenTasks, MaxRetries, Completed, Initialized, IsDag, Transposes;
  }

  ghost predicate SpecsStay(st: Store, st': Store) {
    forall w | w in st.specs :: w in st'.specs && st'.specs[w] == st.specs[w]
  }

  /** A reserved submission is not disturbed by the step of another operation. */
  lemma OtherSubmitReady(st: Store, op: Op, st': Store, other: Op)
    requires SpecsOk(st.specs) && SubmitReady(st, op) && SubmitReady(st, other) && SpecsStay(st, st')
    requires st' == After(st, op)
    requires Reserved(op) && Reserved(other) ==> op.spec.workflowId != other.spec.workflowId
    ensures SubmitReady(st', other)
  {
    if Reserved(other) {
      hide IsDag, Transposes, Apply, TxnOf, DepGraph, SpecsOk;
      forall t | t in Ids(other.spec.tasks) ensures t !in st'.tasks {
        if t in st'.tasks { NewKeys(st, op, st', t); }
      }
    }
  }

  /** Only the initialisation of a workflow adds records, and only its own tasks'. */
  lemma NewKeys(st: Store, op: Op, st': Store, t: string)
    requires SubmitReady(st, op) && st' == After(st, op)
    requires t in st'.tasks && t !in st.tasks
    ensures op.SubmitTasks? && t in Ids(op.spec.tasks)
  {
    if op.SubmitTasks? {
      InitializedEffect(st.tasks, op.spec.workflowId, op.spec.tasks, InDegrees(op.spec.tasks), op.down);
    } else if TxnOf(op).Some? && !op.SubmitStore? {
      hide Apply, SubmitReady;
      TxnShape(st, TxnOf(op).value);
      assert false;
    }
  }

  lemma MemoryKeys(co: Coord, op: Op)
    requires co.running.Keys == co.executions.Keys
    ensures Memory(co, op).running.Keys == Memory(co, op).executions.Keys
    ensures forall t | t in Memory(co, op).queue :: t in co.queue || t in Carries(op)
    ensures forall t | t in Memory(co, op).executions :: t in co.executions || t in Carries(op)
  {
    if op.CancelMem? {
      WithoutMembers(co.queue, op.dropped);
    } else if op.SkipMem? {
      WithoutMembers(co.queue, Elems(op.skipped));
    }
  }

  lemma MemoryStays(st: Store, co: Coord, op: Op, st': Store)
    requires MemoryOk(st, co) && Grows(st, st') && forall t | t in Carries(op) :: Cleared(st, t)
    ensures MemoryOk(st', Memory(co, op))
  {
    hide Grows, Cleared, Carries, Memory;
    MemoryKeys(co, op);
    forall t | t in Memory(co, op).queue || t in Memory(co, op).executions ensures Cleared(st', t) {
      ClearedStays(st, st', t);
    }
  }

  /** Two reserved submissions have different names. */
  lemma ReservedDistinct(st: Store, co: Coord, ops: map<nat, Op>, id: nat)
    requires OpsShaped(st, ops) && id in ops && FreshStart(st, ops[id])
    ensures var ops' := WithOp(ops, id, Continue(st, co, ops[id]));
            forall i, j | i in ops' && j in ops' && i != j && Reserved(ops'[i]) && Reserved(ops'[j]) ::
              ops'[i].spec.workflowId != ops'[j].spec.workflowId
  {
    hide IsDag, Transposes, Cleared, Carries;
    var op := ops[id];
    forall j | j in ops && Reserved(ops[j]) ensures ops[j].spec.workflowId in st.specs {
      assert SubmitReady(st, ops[j]);
    }
    ReservedNext(st, co, op);
  }

  lemma ReservedNext(st: Store, co: Coord, op: Op)
    ensures Continue(st, co, op).Some? && Reserved(Continue(st, co, op).value) ==>
              (op.SubmitStore? || Reserved(op)) && Continue(st, co, op).value.spec == op.spec
  {
    hide AllTerminal, Verdict, OpenTasks, MaxRetries, Completed;
  }

  lemma AdvanceOps(st: Store, co: Coord, ops: map<nat, Op>, id: nat, st': Store)
    requires OpsOk(st, ops) && id in ops && SpecsOk(st.specs) && FreshStart(st, ops[id])
    requires StoreSafe(st') && Grows(st, st')
    requires st' == After(st, ops[id])
    ensures OpsOk(st', WithOp(ops, id, Continue(st, co, ops[id])))
  {
    assert SpecsStay(st, st');
    hide StoreSafe, SpecsOk, Grows, Cleared, Carries, Continue, SubmitReady, Apply, FreshStart, Reserved, TxnOf;
    var op, ops' := ops[id], WithOp(ops, id, Continue(st, co, ops[id]));
    ReservedDistinct(st, co, ops, id);
    forall i | i in ops'
      ensures SubmitReady(st', ops'[i]) && forall t | t in Carries(ops'[i]) :: Cleared(st', t)
    {
      if i == id {
        OwnSubmitReady(st, co, op, st');
        ContinueCleared(st, co, op, st');
      } else {
        OtherSubmitReady(st, op, st', ops[i]);
        forall t | t in Carries(ops'[i]) ensures Cleared(st', t) {
          ClearedStays(st, st', t);
        }
      }
    }
  }

  lemma SelfGrows(st: Store)
    ensures Grows(st, st)
  {
  }

  lemma AdvanceKeepsSafe(s: Fine, id: nat)
    requires FineSafe(s) && Possible(s, Advance(id)) && !Clobbers(s, Advance(id))
    ensures FineSafe(Next(s, Advance(id)))
  {
    hide StoreSafe, Grows, Cleared, Carries, Continue, SubmitReady, FreshStart, Reserved, MemoryOk, SpecsOk, Memory,
         TxnOf;
    var op := s.ops[id];
    var st' := After(s.st, op);
    if TxnOf(op).Some? {
      OpPermitted(s.st, op);
      TxnKeepsSafe(s.st, TxnOf(op).value);
      TxnGrows(s.st, TxnOf(op).value);
    } else {
      SelfGrows(s.st);
    }
    SafeSpecs(s.st);
    MemoryStays(s.st, s.co, op, st');
    AdvanceOps(s.st, s.co, s.ops, id, st');
  }

  lemma BeginOps(st: Store, ops: map<nat, Op>, id: nat, op: Op)
    requires OpsOk(st, ops) && id !in ops && SubmitReady(st, op) && !Reserved(op)
    requires forall t | t in Carries(op) :: Cleared(st, t)
    ensures OpsOk(st, ops[id := op])
  {
    hide Cleared, Carries, SubmitReady;
  }

  lemma StartGet(s: Fine, id: nat, worker: string, x: string)
    requires FineSafe(s) && id !in s.ops
    ensures FineSafe(Begin(s, id, GetReq(worker, x)))
  {
    hide StoreSafe, Cleared, OpsOk;
    if s.co.queue != [] {
      assert s.co.queue[0] in s.co.queue;
      BeginOps(s.st, s.ops, id, GetAssign(s.co.queue[0], x, worker));
    }
  }

  lemma StartKeepsSafe(s: Fine, id: nat, r: Request)
    requires FineSafe(s) && Possible(s, Start(id, r))
    ensures FineSafe(Next(s, Start(id, r)))
  {
    hide StoreSafe, Cleared, OpsOk, IsDag, Transposes;
    match r
    case SubmitReq(spec, down, roots) =>
      if IsDag(spec.tasks) { BeginOps(s.st, s.ops, id, SubmitStore(spec, down, roots)); }
    case GetReq(worker, x) => StartGet(s, id, worker, x);
    case CompleteReq(t, x, output) =>
      if Accepts(s.co, t, x) { BeginOps(s.st, s.ops, id, CompleteWrite(t, x, output)); }
    case FailReq(t, x, msg, newId) =>
      if Accepts(s.co, t, x) { BeginOps(s.st, s.ops, id, FailRead(t, msg, newId)); }
    case CancelReq(w) => BeginOps(s.st, s.ops, id, CancelWrite(w, WorkflowCancelled));
    case DeadReq(worker, tasks, ids) => BeginOps(s.st, s.ops, id, RequeueList(tasks, ids));
  }

  lemma CrashKeepsSafe(s: Fine, ws: seq<string>, queued: seq<string>, running: seq<string>, ids: map<string, string>)
    requires FineSafe(s) && RestartOrders(s.st, ws, queued, running)
    ensures FineSafe(Next(s, Crash(ws, queued, running, ids)))
  {
    hide StoreSafe, SpecsOk, Registered, Cleared, LoadAll;
    SafeSpecs(s.st);
    LoadAllCacheOk(s.st, ws);
    forall t | t in queued || t in running ensures Cleared(s.st, t) {
      ReleasedCleared(s.st, t);
    }
  }

  lemma ReleasedCleared(st: Store, t: string)
    requires StoreSafe(st) && t in st.tasks && st.tasks[t].state.Released()
    ensures Cleared(st, t)
  {
  }

  lemma MoveKeepsSafe(s: Fine, m: Move)
    requires FineSafe(s) && Possible(s, m) && !Clobbers(s, m)
    ensures FineSafe(Next(s, m))
  {
    hide FineSafe;
    match m
    case Start(id, r) => StartKeepsSafe(s, id, r);
    case Advance(id) => AdvanceKeepsSafe(s, id);
    case Crash(ws, queued, running, ids) => CrashKeepsSafe(s, ws, queued, running, ids);
  }

  /** On every interleaving in which no transaction overwrites a COMPLETE record,
      the store stays safe: dependency safety and the in-degree equation hold in
      every state, wherever calls interleave or the coordinator crashes. */
  lemma {:induction false} FineGrainedSafety(ss: seq<Fine>, ms: seq<Move>, i: nat)
    requires IsInterleaving(ss, ms) && i < |ss|
    requires forall k | 0 <= k < i :: !Clobbers(ss[k], ms[k])
    ensures FineSafe(ss[i])
    ensures DepSafe(DepGraph(ss[i].st), ss[i].st.tasks) && InDegreeExact(DepGraph(ss[i].st), ss[i].st.tasks)
  {
    if i == 0 {
      InitialSafe();
    } else {
      hide Possible, Next, MemoryOk, OpsOk, Clobbers;
      FineGrainedSafety(ss, ms, i - 1);
      assert Possible(ss[i - 1], ms[i - 1]) && ss[i] == Next(ss[i - 1], ms[i - 1]);
      MoveKeepsSafe(ss[i - 1], ms[i - 1]);
    }
  }

  // ---- Putting traces together ---------------------------------------------------------------------

  lemma ExtendInterleaving(ss: seq<Fine>, ms: seq<Move>, m: Move)
    requires IsInterleaving(ss, ms) && Possible(ss[|ms|], m)
    ensures IsInterleaving(ss + [Next(ss[|ms|], m)], ms + [m])
  {
    hide Possible, Next;
    var ss', ms' := ss + [Next(ss[|ms|], m)], ms + [m];
    forall i | 0 <= i < |ms'| ensures Possible(ss'[i], ms'[i]) && ss'[i + 1] == Next(ss'[i], ms'[i]) {
      if i < |ms| {
        assert ms[i] == ms'[i] && Possible(ss[i], ms[i]);
      }
    }
  }

  /** The moves can be made one after another and lead from `s` to `s'`. */
  ghost predicate Leads(s: Fine, ms: seq<Move>, s': Fine)
    decreases |ms|
  {
    if ms == [] then s' == s else Possible(s, ms[0]) && Leads(Next(s, ms[0]), ms[1..], s')
  }

  lemma {:induction false} ExtendBy(ss: seq<Fine>, ms: seq<Move>, more: seq<Move>, s': Fine)
    returns (ss': seq<Fine>, ms': seq<Move>)
    requires IsInterleaving(ss, ms) && Leads(ss[|ms|], more, s')
    ensures IsInterleaving(ss', ms') && |ss'| == |ms'| + 1 && ms' == ms + more && ss'[|ms'|] == s'
    ensures ss <= ss'
    decreases more
  {
    hide Possible, Next;
    if more == [] {
      ss', ms' := ss, ms;
    } else {
      ExtendInterleaving(ss, ms, more[0]);
      ss', ms' := ExtendBy(ss + [Next(ss[|ms|], more[0])], ms + [more[0]], more[1..], s');
      assert ms + [more[0]] + more[1..] == ms + more;
    }
  }

  lemma LeadsStep(s: Fine, m: Move, ms: seq<Move>, s': Fine)
    requires Possible(s, m) && Leads(Next(s, m), ms, s')
    ensures Leads(s, [m] + ms, s')
  {
    hide Possible, Next;
    assert ([m] + ms)[0] == m && ([m] + ms)[1..] == ms;
  }

  lemma LeadsNowhere(s: Fine)
    ensures Leads(s, [], s)
  {
  }

  // ---- The side condition is needed, and locking does not provide it -----------------------------------

  /** Everything that depends on `t` has been given up. */
  ghost predicate DependentsSkipped(g: Graph, T: Tasks, t: string) {
    forall d | d in T && d in g && t in g[d] :: T[d].state.Skipped?
  }

  /** Taking COMPLETE away from `t` is harmless exactly when everything that
      depends on `t` is SKIPPED. */
  lemma OverwriteHarmless(g: Graph, T: Tasks, t: string, r: TaskRecord)
    requires Linked(g, T) && DepSafe(g, T) && InDegreeExact(g, T) && IsComplete(T, t)
    requires !r.state.Complete? && !r.state.Pending?
    ensures DepSafe(g, T[t := r]) && InDegreeExact(g, T[t := r]) <==> DependentsSkipped(g, T, t)
  {
    var T' := T[t := r];
    if DependentsSkipped(g, T, t) {
      forall u | u in T' && T'[u].state.Released() ensures DepsComplete(g, T', u) {
        assert DepsComplete(g, T, u);
        if t in g[u] { EdgeReaches(g, u, t); }
      }
      forall u | u in T' && T'[u].state.Pending? ensures T'[u].inDegree == Unfinished(g[u], T') {
        assert t !in g[u];
        UnfinishedSame(g[u], T, T');
      }
    } else {
      var d :| d in T && d in g && t in g[d] && !T[d].state.Skipped?;
      EdgeReaches(g, d, t);
      if T[d].state.Pending? {
        UnfinishedAfter(g[d], T', T, t);
        TimesMember(g[d], t);
        assert T'[d].inDegree != Unfinished(g[d], T');
      } else {
        assert !DepsComplete(g, T', d);
      }
    }
  }

  lemma ClobberBreaks(s: Fine, m: Move)
    requires FineSafe(s) && Possible(s, m) && Clobbers(s, m)
    ensures var tx, st' := MoveTxn(s, m).value, Next(s, m).st;
            (DepSafe(DepGraph(st'), st'.tasks) && InDegreeExact(DepGraph(st'), st'.tasks)) <==>
            DependentsSkipped(DepGraph(s.st), s.st.tasks, tx.task)
  {
    hide StoreSafe, MemoryOk, OpsOk, Linked, DepSafe, InDegreeExact, DepGraph, DependentsSkipped, Continue, Memory;
    var tx := MoveTxn(s, m).value;
    var r := Apply(s.st, tx).tasks[tx.task];
    SafeLinks(s.st);
    SafeCounts(s.st);
    TxnShape(s.st, tx);
    ShapeKeepsGraph(s.st, Apply(s.st, tx));
    OverwriteHarmless(DepGraph(s.st), s.st.tasks, tx.task, r);
  }

  /** The race: a result for `a` passes its check, the worker of `a` is declared
      dead, the completion is written and queues `b`, then the requeue is written
      over it. Each call respects the lock, yet `b` is QUEUED while `a` is not COMPLETE. */
  lemma RaceOverwritesComplete(s: Fine, a: string, b: string, output: string, rest: seq<string>,
                               ids: map<string, string>, i: nat, j: nat)
    returns (s1: Fine, s2: Fine, s3: Fine, s4: Fine)
    requires FineSafe(s) && i !in s.ops && j !in s.ops && i != j
    requires a in s.co.executions && a in s.co.running && Enumerates([a] + rest, HeldBy(s.co, s.co.running[a]))
    requires a in s.st.tasks && s.st.tasks[a].executionId == s.co.executions[a] && !IsComplete(s.st.tasks, a)
    requires b in s.st.tasks && s.st.tasks[b].state.Pending? && WaitsOnlyFor(DepGraph(s.st), s.st.tasks, b, a)
    ensures var m1 := Start(i, CompleteReq(a, s.co.executions[a], output));
            var m2 := Start(j, DeadReq(s.co.running[a], [a] + rest, ids));
            && Possible(s, m1) && s1 == Next(s, m1)
            && Possible(s1, m2) && s2 == Next(s1, m2)
            && Possible(s2, Advance(i)) && s3 == Next(s2, Advance(i)) && IsComplete(s3.st.tasks, a)
            && Possible(s3, Advance(j)) && s4 == Next(s3, Advance(j)) && Clobbers(s3, Advance(j))
    ensures a in s4.st.tasks && s4.st.tasks[a].state.Queued?
    ensures b in s4.st.tasks && s4.st.tasks[b].state.Queued? && !DepSafe(DepGraph(s4.st), s4.st.tasks)
    ensures s4.ops.Keys == s.ops.Keys + {i, j} && s4.ops[j] == RequeueMem(a, rest, ids)
    ensures s4.co.queue == s.co.queue && s4.co.specCache == s.co.specCache
    ensures s4.st.specs == s.st.specs &&
            s4.st.tasks == Requeued(Completed(s.st.tasks, a, s.co.executions[a], output).tasks, a, Lookup(ids, a, ""))
  {
    hide StoreSafe, OpsOk, MemoryOk, DepGraph, Linked, DepSafe, InDegreeExact;
    SafeLinks(s.st);
    SafeCounts(s.st);
    RaceRecords(DepGraph(s.st), s.st.tasks, a, b, output, Lookup(ids, a, ""));
    s1, s2, s3, s4 := RaceSteps(s, a, output, rest, ids, i, j);
    RaceGraph(s.st, s4.st, a, output, Lookup(ids, a, ""));
  }

  lemma RaceGraph(st: Store, st': Store, a: string, output: string, newId: string)
    requires st'.specs == st.specs && a in st.tasks
    requires st'.tasks == Requeued(Completed(st.tasks, a, st.tasks[a].executionId, output).tasks, a, newId)
    ensures DepGraph(st') == DepGraph(st)
  {
    CompletedShape(st.tasks, a, st.tasks[a].executionId, output);
    hide Completed;
    ShapeKeepsGraph(st, st');
  }

  /** The four steps of the race, on any state that holds `a`. */
  lemma RaceSteps(s: Fine, a: string, output: string, rest: seq<string>, ids: map<string, string>, i: nat, j: nat)
    returns (s1: Fine, s2: Fine, s3: Fine, s4: Fine)
    requires i !in s.ops && j !in s.ops && i != j && a in s.co.executions && a in s.co.running && a in s.st.tasks
    requires Enumerates([a] + rest, HeldBy(s.co, s.co.running[a]))
    requires var c := Completed(s.st.tasks, a, s.co.executions[a], output); c.err.NoError? && IsComplete(c.tasks, a)
    ensures var m1 := Start(i, CompleteReq(a, s.co.executions[a], output));
            var m2 := Start(j, DeadReq(s.co.running[a], [a] + rest, ids));
            && Possible(s, m1) && s1 == Next(s, m1)
            && Possible(s1, m2) && s2 == Next(s1, m2)
            && Possible(s2, Advance(i)) && s3 == Next(s2, Advance(i))
            && Possible(s3, Advance(j)) && s4 == Next(s3, Advance(j)) && Clobbers(s3, Advance(j))
    ensures var c := Completed(s.st.tasks, a, s.co.executions[a], output);
            s3.st.tasks == c.tasks && s4.st.tasks == Requeued(c.tasks, a, Lookup(ids, a, "")) &&
              s4.st.specs == s.st.specs
    ensures s4.ops.Keys == s.ops.Keys + {i, j} && s4.ops[j] == RequeueMem(a, rest, ids)
    ensures s4.co.queue == s.co.queue && s4.co.specCache == s.co.specCache
  {
    hide Possible, Next, Clobbers, Completed, Enumerates, HeldBy, Requeued;
    s1, s2 := RaceStarts(s, a, output, [a] + rest, ids, i, j);
    s3, s4 := RaceWrites(s2, a, s.co.executions[a], output, rest, ids, i, j);
  }

  /** Both calls have passed their checks; neither has written. */
  lemma RaceStarts(s: Fine, a: string, output: string, tasks: seq<string>, ids: map<string, string>, i: nat, j: nat)
    returns (s1: Fine, s2: Fine)
    requires i !in s.ops && j !in s.ops && i != j && a in s.co.executions && a in s.co.running
    requires Enumerates(tasks, HeldBy(s.co, s.co.running[a]))
    ensures var m1 := Start(i, CompleteReq(a, s.co.executions[a], output));
            var m2 := Start(j, DeadReq(s.co.running[a], tasks, ids));
            Possible(s, m1) && s1 == Next(s, m1) && Possible(s1, m2) && s2 == Next(s1, m2)
    ensures s2 == Fine(s.st, Released(s.co, Elems(tasks)),
                       s.ops[i := CompleteWrite(a, s.co.executions[a], output)][j := RequeueList(tasks, ids)])
  {
    hide Enumerates, HeldBy, Elems;
    s1 := Next(s, Start(i, CompleteReq(a, s.co.executions[a], output)));
    s2 := Next(s1, Start(j, DeadReq(s.co.running[a], tasks, ids)));
  }

  /** The completion is written, then the requeue over it. */
  lemma RaceWrites(s: Fine, a: string, x: string, output: string, rest: seq<string>, ids: map<string, string>, i: nat,
                   j: nat)
    returns (s3: Fine, s4: Fine)
    requires i in s.ops && j in s.ops && i != j && a in s.st.tasks
    requires s.ops[i] == CompleteWrite(a, x, output) && s.ops[j] == RequeueList([a] + rest, ids)
    requires var c := Completed(s.st.tasks, a, x, output); c.err.NoError? && IsComplete(c.tasks, a)
    ensures Possible(s, Advance(i)) && s3 == Next(s, Advance(i))
    ensures Possible(s3, Advance(j)) && s4 == Next(s3, Advance(j)) && Clobbers(s3, Advance(j))
    ensures var c := Completed(s.st.tasks, a, x, output);
            s3.st.tasks == c.tasks && s4.st.tasks == Requeued(c.tasks, a, Lookup(ids, a, "")) &&
              s4.st.specs == s.st.specs
    ensures s4.ops.Keys == s.ops.Keys && s4.ops[j] == RequeueMem(a, rest, ids) && s4.co == s.co
  {
    hide Completed, Requeued;
    s3 := Next(s, Advance(i));
    assert s3.ops[j] == RequeueList([a] + rest, ids) && ([a] + rest)[1..] == rest;
    s4 := Next(s3, Advance(j));
  }

  /** Writing the requeue of `a` over its completion leaves the queued dependent `b` unprotected. */
  lemma RaceRecords(g: Graph, T: Tasks, a: string, b: string, output: string, newId: string)
    requires Linked(g, T) && InDegreeExact(g, T) && a in T && !T[a].state.Complete?
    requires b in T && T[b].state.Pending? && WaitsOnlyFor(g, T, b, a)
    ensures var c := Completed(T, a, T[a].executionId, output);
            var T' := Requeued(c.tasks, a, newId);
            && c.err.NoError? && IsComplete(c.tasks, a)
            && a in T' && T'[a].state.Queued? && b in T' && T'[b].state.Queued? && !DepSafe(g, T')
  {
    EdgeReaches(g, b, a);
    assert a != b;
    CompletionFrame(g, T, a, T[a].executionId, output);
    ReadyWaited(g, T, b, a);
    ReadyIsQueued(g, T, a, T[a].executionId, output);
    var T' := Requeued(Completed(T, a, T[a].executionId, output).tasks, a, newId);
    hide Linked, Completed, InDegreeExact;
    assert !DepsComplete(g, T', b);
  }
}
