/** The scheduler as a state machine: the persistent store together with the
    coordinator's volatile state, and one step per public coordinator method
    (internal/coordinator/coordinator.go, recovery.go). An event carries the
    call's arguments and the choices the program leaves open: the random
    execution ids and the orders in which Go maps and buckets are traversed. */
module Systems {
  import opened Types
  import opened Seqs
  import opened Graphs
  import opened Dags
  import opened Stores

  datatype Coord = Coord(
    queue: seq<string>,
    running: map<string, string>,
    executions: map<string, string>,
    specCache: map<string, TaskSpec>,
    workflowOf: map<string, string>,
    policy: map<string, FailurePolicy>)

  datatype Sys = Sys(st: Store, co: Coord)

  const EMPTY_COORD := Coord([], map[], map[], map[], map[], map[])
  const INITIAL := Sys(Store(map[], map[], map[]), EMPTY_COORD)

  datatype Event =
    | Submit(spec: WorkflowSpec, down: Graph, roots: seq<string>)
    | Assign(worker: string, execution: string)
    | Succeed(task: string, execution: string, output: string)
    | Fail(task: string, execution: string, message: string, newId: string, skipped: seq<string>)
    | Cancel(workflow: string)
    | WorkerDied(worker: string, tasks: seq<string>, ids: map<string, string>)
    | Restart(workflows: seq<string>, queued: seq<string>, running: seq<string>, ids: map<string, string>)

  function InDegrees(ts: seq<TaskSpec>): map<string, int> {
    map t | t in Ids(ts) :: |DepsOf(ts, t)|
  }

  function SpecMap(ts: seq<TaskSpec>): map<string, TaskSpec> {
    if ts == [] then map[] else SpecMap(ts[..|ts| - 1])[ts[|ts| - 1].taskId := ts[|ts| - 1]]
  }

  function OwnerMap(ts: seq<TaskSpec>, w: string): map<string, string> {
    map t | t in Ids(ts) :: w
  }

  function Elems(s: seq<string>): set<string> {
    set x | x in s
  }

  // ---- Looking up the volatile state -------------------------------------

  predicate Accepts(co: Coord, t: string, x: string) {
    t in co.executions && co.executions[t] == x
  }

  function Owner(co: Coord, t: string): string {
    Lookup(co.workflowOf, t, "")
  }

  function Policy(co: Coord, w: string): FailurePolicy {
    Lookup(co.policy, w, FailFast)
  }

  function MaxRetries(co: Coord, t: string): int {
    if t in co.specCache && co.specCache[t].maxRetries > 0 then co.specCache[t].maxRetries else 3
  }

  /** FailTask requeues rather than fails the task. */
  predicate Retries(s: Sys, t: string)
    requires t in s.st.tasks
  {
    s.st.tasks[t].attemptCount + 1 < MaxRetries(s.co, t)
  }

  function HeldBy(co: Coord, worker: string): set<string> {
    set t | t in co.running && co.running[t] == worker
  }

  // ---- The transactions of each call, in order ----------------------------

  /** checkWorkflowCompletion. */
  function CheckTxns(T: Tasks, w: string): seq<Txn> {
    if AllTerminal(T, w) then [SetWorkflow(w, Verdict(T, w))] else []
  }

  function SucceedTxns(s: Sys, t: string, x: string, output: string): seq<Txn> {
    if !Accepts(s.co, t, x) then []
    else
      var c := Completed(s.st.tasks, t, x, output);
      [CompleteTask(t, x, output)] +
      if c.err.NoError? && Owner(s.co, t) != "" then CheckTxns(c.tasks, Owner(s.co, t)) else []
  }

  /** applyFailurePolicy, run on the records left by the failing transaction. */
  function PolicyTxns(T: Tasks, co: Coord, t: string, skipped: seq<string>): seq<Txn> {
    var w := Owner(co, t);
    if w == "" then []
    else if Policy(co, w).FailFast? then [CancelTasks(w), SetWorkflow(w, WorkflowFailed)]
    else SetStateTxns(skipped, Skipped) + CheckTxns(SkipAll(T, Elems(skipped)), w)
  }

  function FailureRecords(s: Sys, t: string, msg: string): Tasks
    requires t in s.st.tasks
  {
    FailedWith(s.st.tasks, t, msg, s.st.tasks[t].attemptCount + 1)
  }

  function FailTxns(s: Sys, t: string, x: string, msg: string, newId: string, skipped: seq<string>): seq<Txn> {
    if !Accepts(s.co, t, x) || t !in s.st.tasks then []
    else if Retries(s, t) then [RequeueTask(t, newId)]
    else
      [FailTask(t, msg, s.st.tasks[t].attemptCount + 1)] +
      PolicyTxns(FailureRecords(s, t, msg), s.co, t, skipped)
  }

  /** A submission is stored and made active when its tasks form a DAG and its id is a key. */
  ghost predicate Admitted(spec: WorkflowSpec) {
    IsDag(spec.tasks) && ValidKey(spec.workflowId)
  }

  /** It goes through when its task ids are keys as well. */
  ghost predicate Accepted(spec: WorkflowSpec) {
    Admitted(spec) && ValidIds(spec.tasks)
  }

  /** SubmitWorkflow stops at the first store error: nothing is written under a
      workflow id the store refuses, and no record when it refuses a task id. */
  function SubmitTxns(spec: WorkflowSpec, down: Graph, roots: seq<string>): seq<Txn> {
    [StoreSpec(spec), SetWorkflow(spec.workflowId, WorkflowRunning)] +
    if ValidIds(spec.tasks)
    then [InitTasks(spec.workflowId, spec.tasks, InDegrees(spec.tasks), down)] + SetStateTxns(roots, Queued)
    else []
  }

  ghost function Txns(s: Sys, e: Event): seq<Txn> {
    match e
    case Submit(spec, down, roots) => if Admitted(spec) then SubmitTxns(spec, down, roots) else []
    case Assign(_, x) =>
      if s.co.queue == [] || s.co.queue[0] !in s.co.specCache then [] else [AssignTask(s.co.queue[0], x)]
    case Succeed(t, x, output) => SucceedTxns(s, t, x, output)
    case Fail(t, x, msg, newId, skipped) => FailTxns(s, t, x, msg, newId, skipped)
    case Cancel(w) => [CancelTasks(w), SetWorkflow(w, WorkflowCancelled)]
    case WorkerDied(_, tasks, ids) => RequeueTxns(tasks, ids)
    case Restart(_, _, running, ids) => RequeueTxns(running, ids)
  }

  /** The error CompleteTask returns. */
  function SucceedError(s: Sys, t: string, x: string, output: string): StoreError {
    if t !in s.co.executions then
      if t !in s.st.tasks then ErrTaskNotFound
      else if s.st.tasks[t].state.Complete? && s.st.tasks[t].executionId == x then NoError
      else ErrStaleExecution
    else if s.co.executions[t] != x then ErrStaleExecution
    else Completed(s.st.tasks, t, x, output).err
  }

  // ---- The volatile state after each call ----------------------------------

  function Released(co: Coord, S: set<string>): Coord {
    co.(running := co.running - S, executions := co.executions - S)
  }

  /** The listed tasks that have a record, in order. */
  function Present(T: Tasks, order: seq<string>): seq<string> {
    Without(order, Elems(order) - T.Keys)
  }

  function SubmitCoord(co: Coord, spec: WorkflowSpec, roots: seq<string>): Coord {
    co.(queue := co.queue + roots,
        specCache := co.specCache + SpecMap(spec.tasks),
        workflowOf := co.workflowOf + OwnerMap(spec.tasks, spec.workflowId),
        policy := co.policy[spec.workflowId := spec.failurePolicy])
  }

  function AssignCoord(s: Sys, worker: string, x: string): Coord {
    if s.co.queue == [] then s.co
    else
      var t, popped := s.co.queue[0], s.co.(queue := s.co.queue[1..]);
      if t !in s.co.specCache || t !in s.st.tasks then popped
      else popped.(running := s.co.running[t := worker], executions := s.co.executions[t := x])
  }

  function SucceedCoord(s: Sys, t: string, x: string, output: string): Coord {
    var c := Completed(s.st.tasks, t, x, output);
    if !Accepts(s.co, t, x) || !c.err.NoError? then s.co
    else Released(s.co, {t}).(queue := s.co.queue + c.ready)
  }

  function PolicyQueue(T: Tasks, co: Coord, t: string, skipped: seq<string>): seq<string> {
    var w := Owner(co, t);
    if w == "" then co.queue
    else if Policy(co, w).FailFast? then Without(co.queue, OpenTasks(T, w))
    else Without(co.queue, Elems(skipped))
  }

  function FailCoord(s: Sys, t: string, x: string, msg: string, skipped: seq<string>): Coord {
    if !Accepts(s.co, t, x) || t !in s.st.tasks then s.co
    else if Retries(s, t) then Released(s.co, {t}).(queue := s.co.queue + [t])
    else Released(s.co, {t}).(queue := PolicyQueue(FailureRecords(s, t, msg), s.co, t, skipped))
  }

  /** One workflow state record read by LoadStateFromDB. */
  function LoadOne(st: Store, co: Coord, w: string): Coord {
    if w !in st.workflows || !st.workflows[w].WorkflowRunning? || w !in st.specs then co
    else
      var spec := st.specs[w];
      co.(specCache := co.specCache + SpecMap(spec.tasks),
          workflowOf := co.workflowOf + OwnerMap(spec.tasks, spec.workflowId),
          policy := co.policy[spec.workflowId := spec.failurePolicy])
  }

  function LoadAll(st: Store, ws: seq<string>): Coord {
    if ws == [] then EMPTY_COORD else LoadOne(st, LoadAll(st, ws[..|ws| - 1]), ws[|ws| - 1])
  }

  /** LoadStateFromDB followed by PrepareRecovery on a new coordinator. */
  function RestartCoord(st: Store, ws: seq<string>, queued: seq<string>, running: seq<string>): Coord {
    LoadAll(st, ws).(queue := queued + Present(st.tasks, running))
  }

  ghost function NextCoord(s: Sys, e: Event): Coord {
    match e
    case Submit(spec, down, roots) => if Accepted(spec) then SubmitCoord(s.co, spec, roots) else s.co
    case Assign(worker, x) => AssignCoord(s, worker, x)
    case Succeed(t, x, output) => SucceedCoord(s, t, x, output)
    case Fail(t, x, msg, newId, skipped) => FailCoord(s, t, x, msg, skipped)
    case Cancel(w) => s.co.(queue := Without(s.co.queue, OpenTasks(s.st.tasks, w)))
    case WorkerDied(worker, tasks, ids) =>
      Released(s.co, Elems(tasks)).(queue := s.co.queue + Present(s.st.tasks, tasks))
    case Restart(ws, queued, running, ids) => RestartCoord(s.st, ws, queued, running)
  }

  ghost function Step(s: Sys, e: Event): Sys {
    Sys(Fold(s.st, Txns(s, e)), NextCoord(s, e))
  }

  // ---- Which events can happen ----------------------------------------------

  /** The failing call goes on to skip the tasks downstream of `t`. */
  predicate SkipsDownstream(s: Sys, t: string, x: string) {
    && Accepts(s.co, t, x) && t in s.st.tasks && !Retries(s, t)
    && Owner(s.co, t) != "" && !Policy(s.co, Owner(s.co, t)).FailFast?
  }

  /** The open choices recorded in the event are ones the program can make. */
  ghost predicate Resolved(s: Sys, e: Event) {
    match e
    case Submit(spec, down, roots) =>
      IsDag(spec.tasks) ==> Transposes(SpecGraph(spec.tasks), down) && Enumerates(roots, Roots(spec.tasks))
    case Fail(t, x, msg, _, skipped) =>
      SkipsDownstream(s, t, x) ==> Enumerates(skipped, SkipSet(FailureRecords(s, t, msg), t))
    case WorkerDied(worker, tasks, _) => Enumerates(tasks, HeldBy(s.co, worker))
    case Restart(ws, queued, running, _) => RestartOrders(s.st, ws, queued, running)
    case _ => true
  }

  ghost predicate RestartOrders(st: Store, ws: seq<string>, queued: seq<string>, running: seq<string>) {
    && Enumerates(ws, st.workflows.Keys)
    && Enumerates(queued, InState(st.tasks, Queued))
    && Enumerates(running, InState(st.tasks, Running))
  }

  /** The submission reuses no workflow id and no task id. */
  ghost predicate Fresh(st: Store, spec: WorkflowSpec) {
    && spec.workflowId !in st.specs
    && (forall t | t in Ids(spec.tasks) :: t !in st.tasks)
    && (forall w | w in st.specs :: Ids(st.specs[w].tasks) !! Ids(spec.tasks))
  }

  ghost predicate Enabled(s: Sys, e: Event) {
    && Resolved(s, e)
    && (e.Submit? && Admitted(e.spec) ==> Fresh(s.st, e.spec))
  }

  /** Each public method is one step; a restart falls between calls. */
  ghost predicate IsRun(ss: seq<Sys>, es: seq<Event>) {
    && |ss| == |es| + 1
    && ss[0] == INITIAL
    && forall i {:trigger es[i]} | 0 <= i < |es| :: Enabled(ss[i], es[i]) && ss[i + 1] == Step(ss[i], es[i])
  }
}
