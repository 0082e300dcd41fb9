/** A schedule under which the locking is enough: no result call for a task
    overlaps another one for the same task or a dead-worker call for its worker.
    Every task then has one holder at a time, no COMPLETE record is overwritten,
    and the store stays safe however everything else interleaves. */
module Schedules {
  import opened Types
  import opened Seqs
  import opened Graphs
  import opened Dags
  import opened Stores
  import opened Systems
  import opened StoreSafety
  import opened Safety
  import opened CrashRuns
  import opened History
  import opened Interleaving

  /** The tasks a call in flight has taken out of the queue or will put into it. */
  function Tokens(op: Op): set<string> {
    match op
    case SubmitCaches(_, roots) => Elems(roots)
    case SubmitRoots(roots) => Elems(roots)
    case SubmitAppend(t, roots) => Elems(roots) + {t}
    case GetAssign(t, _, _) => {t}
    case GetHold(t, _, _) => {t}
    case CompleteMem(_, ready) => Elems(ready)
    case RequeueList(tasks, _) => Elems(tasks)
    case RequeueMem(t, tasks, _) => Elems(tasks) + {t}
    case _ => {}
  }

  /** The task a result call in flight is about, until the call lets go of it. */
  function Claims(op: Op): set<string> {
    match op
    case CompleteWrite(t, _, _) => {t}
    case CompleteMem(t, _) => {t}
    case FailRead(t, _, _) => {t}
    case FailDecide(t, _, _, _) => {t}
    case RetryWrite(t, _) => {t}
    case RetryMem(t) => {t}
    case FailWrite(t, _, _) => {t}
    case FailMem(t) => {t}
    case _ => {}
  }

  predicate Free(ops: map<nat, Op>, t: string) {
    forall i | i in ops :: t !in Claims(ops[i])
  }

  /** The discipline: a result for `t` starts only while no other result for `t` is
      in flight, and a worker is declared dead only while none of its tasks has one. */
  predicate Orderly(s: Fine, m: Move) {
    m.Start? ==>
      match m.request
      case CompleteReq(t, _, _) => Free(s.ops, t)
      case FailReq(t, _, _, _) => Free(s.ops, t)
      case DeadReq(_, tasks, _) => forall t | t in tasks :: Free(s.ops, t)
      case _ => true
  }

  // ---- One holder at a time -----------------------------------------------------------------

  /** The lists an operation carries have no duplicates. */
  ghost predicate Tidy(op: Op) {
    match op
    case SubmitStore(_, _, roots) => NoDup(roots)
    case SubmitState(_, _, roots) => NoDup(roots)
    case SubmitTasks(_, _, roots) => NoDup(roots)
    case SubmitCaches(_, roots) => NoDup(roots)
    case SubmitRoots(roots) => NoDup(roots)
    case SubmitAppend(t, roots) => NoDup(roots) && t !in roots
    case CompleteMem(_, ready) => NoDup(ready)
    case RequeueList(tasks, _) => NoDup(tasks)
    case RequeueMem(t, tasks, _) => NoDup(tasks) && t !in tasks
    case _ => true
  }

  ghost predicate Apart(co: Coord, ops: map<nat, Op>) {
    && NoDup(co.queue) && (forall t | t in co.queue :: t !in co.executions)
    && (forall i | i in ops :: Tidy(ops[i]))
    && (forall i, t | i in ops && t in Tokens(ops[i]) :: t !in co.queue && t !in co.executions)
    && (forall i, j, t | i in ops && j in ops && i != j && t in Tokens(ops[i]) :: t !in Tokens(ops[j]))
    && (forall i, t | i in ops && t in Claims(ops[i]) :: t in co.executions)
    && (forall i, j, t | i in ops && j in ops && i != j && t in Claims(ops[i]) :: t !in Claims(ops[j]))
  }

  predicate Unheld(co: Coord, ops: map<nat, Op>, t: string) {
    t !in co.queue && t !in co.executions && forall i | i in ops :: t !in Tokens(ops[i])
  }

  function TokensOf(next: Option<Op>): set<string> {
    if next.Some? then Tokens(next.value) else {}
  }

  function ClaimsOf(next: Option<Op>): set<string> {
    if next.Some? then Claims(next.value) else {}
  }

  /** One operation passes tasks on between itself, the queue and the running
      table, and may bring in tasks that nobody held. */
  lemma PassOn(co: Coord, ops: map<nat, Op>, id: nat, co': Coord, next: Option<Op>)
    requires Apart(co, ops) && id in ops && (next.Some? ==> Tidy(next.value))
    requires NoDup(co'.queue) && forall t | t in co'.queue :: t !in co'.executions
    requires forall t | t in TokensOf(next) :: t !in co'.queue && t !in co'.executions
    requires forall t | t in co'.queue || t in co'.executions || t in TokensOf(next) ::
               t in co.queue || t in co.executions || t in Tokens(ops[id]) || Unheld(co, ops, t)
    requires forall t | t in ClaimsOf(next) :: t in co'.executions && (t in Claims(ops[id]) || Free(ops, t))
    requires forall t | t in co.executions && t !in co'.executions :: t in Claims(ops[id]) || Free(ops, t)
    ensures Apart(co', WithOp(ops, id, next))
  {
    var ops' := WithOp(ops, id, next);
    hide Tokens, Claims, Tidy;
    forall i, t | i in ops' && t in Tokens(ops'[i]) ensures t !in co'.queue && t !in co'.executions {
      if i != id { assert t in Tokens(ops[i]); }
    }
    forall i, j, t | i in ops' && j in ops' && i != j && t in Tokens(ops'[i]) ensures t !in Tokens(ops'[j]) {
      if i != id { assert t in Tokens(ops[i]); }
    }
    forall i, t | i in ops' && t in Claims(ops'[i]) ensures t in co'.executions {
      if i != id { assert t in Claims(ops[i]); }
    }
    forall i, j, t | i in ops' && j in ops' && i != j && t in Claims(ops'[i]) ensures t !in Claims(ops'[j]) {
      if i != id { assert t in Claims(ops[i]); }
    }
  }

  /** What an operation brings in: the tasks a completion releases, the roots of a new workflow. */
  function Brought(st: Store, op: Op): set<string> {
    match op
    case CompleteWrite(t, x, output) => Elems(Completed(st.tasks, t, x, output).ready)
    case SubmitTasks(spec, _, roots) => Elems(roots)
    case _ => {}
  }

  lemma AdvanceApart(st: Store, co: Coord, ops: map<nat, Op>, id: nat)
    requires Apart(co, ops) && id in ops
    requires forall t | t in Brought(st, ops[id]) :: Unheld(co, ops, t)
    ensures Apart(Memory(co, ops[id]), WithOp(ops, id, Continue(st, co, ops[id])))
  {
    var op, co', next := ops[id], Memory(co, ops[id]), Continue(st, co, ops[id]);
    assert forall t | t in Tokens(op) :: t !in co.queue && t !in co.executions;
    assert forall t | t in Claims(op) :: t in co.executions;
    MovedQueue(co, op);
    if next.Some? { NextTidy(st, co, op); }
    NextTokens(st, co, op);
    NextKept(st, co, op);
    NextClaims(st, co, op);
    hide Apart, Memory, Continue, Brought, Tidy;
    PassOn(co, ops, id, co', next);
  }

  /** The queue and the running table after an operation's step. */
  lemma MovedQueue(co: Coord, op: Op)
    requires NoDup(co.queue) && (forall t | t in co.queue :: t !in co.executions) && Tidy(op)
    requires forall t | t in Tokens(op) :: t !in co.queue && t !in co.executions
    requires forall t | t in Claims(op) :: t in co.executions
    ensures var co' := Memory(co, op);
            && NoDup(co'.queue) && (forall t | t in co'.queue :: t !in co'.executions)
            && (forall t | t in co'.queue || t in co'.executions ::
                t in co.queue || t in co.executions || t in Tokens(op))
            && (forall t | t in co.executions && t !in co'.executions :: t in Claims(op))
  {
    match op
    case SubmitAppend(t, _) => NoDupConcat(co.queue, [t]);
    case CompleteMem(t, ready) => NoDupConcat(co.queue, ready);
    case RetryMem(t) => NoDupConcat(co.queue, [t]);
    case CancelMem(dropped, _, _) =>
      WithoutMembers(co.queue, dropped);
      WithoutNoDup(co.queue, dropped);
    case SkipMem(skipped, _) =>
      WithoutMembers(co.queue, Elems(skipped));
      WithoutNoDup(co.queue, Elems(skipped));
    case RequeueMem(t, _, _) => NoDupConcat(co.queue, [t]);
    case _ =>
  }

  lemma NextTidy(st: Store, co: Coord, op: Op)
    requires Tidy(op) && Continue(st, co, op).Some?
    ensures Tidy(Continue(st, co, op).value)
  {
    hide AllTerminal, Verdict, OpenTasks, MaxRetries, Completed;
    if op.CompleteWrite? {
      ReadyDistinct(st.tasks, op.task, op.execution, op.output);
    }
  }

  lemma ReadyDistinct(T: Tasks, t: string, x: string, output: string)
    ensures NoDup(Completed(T, t, x, output).ready)
  {
    if t in T {
      ReleaseAllReady(T[t := T[t].(state := Complete, output := output)], T[t].downstream);
    }
  }

  lemma NextTokens(st: Store, co: Coord, op: Op)
    ensures forall t | t in TokensOf(Continue(st, co, op)) :: t in Tokens(op) || t in Brought(st, op)
  {
    hide AllTerminal, Verdict, OpenTasks, MaxRetries, Completed;
  }

  /** What the operation holds next it has not put into the queue or the running table. */
  lemma NextKept(st: Store, co: Coord, op: Op)
    requires Tidy(op) && (forall t | t in Tokens(op) :: t !in co.queue && t !in co.executions)
    requires forall t | t in Brought(st, op) :: t !in co.queue && t !in co.executions
    ensures forall t | t in TokensOf(Continue(st, co, op)) ::
            t !in Memory(co, op).queue && t !in Memory(co, op).executions
  {
    if op.SubmitAppend? || op.RequeueMem? || op.CompleteMem? || op.RetryMem? || op.GetHold? || op.FailMem? ||
      op.CancelMem? || op.SkipMem? {
      hide Completed, AllTerminal, Verdict, SkipNext;
    } else {
      NextTokens(st, co, op);
      MemorySame(co, op);
      hide Continue, Memory, Tidy, Tokens, Brought, Elems;
    }
  }

  lemma MemorySame(co: Coord, op: Op)
    requires !op.SubmitAppend? && !op.RequeueMem? && !op.CompleteMem? && !op.RetryMem? && !op.GetHold? && !op.FailMem?
    requires !op.CancelMem? && !op.SkipMem?
    ensures Memory(co, op).queue == co.queue && Memory(co, op).executions == co.executions
  {
  }

  lemma NextClaims(st: Store, co: Coord, op: Op)
    requires forall t | t in Claims(op) :: t in co.executions
    ensures forall t | t in ClaimsOf(Continue(st, co, op)) :: t in Claims(op) && t in Memory(co, op).executions
  {
    hide AllTerminal, Verdict, OpenTasks, MaxRetries, Completed;
  }

  // ---- The records of held tasks ------------------------------------------------------------

  predicate IsFailed(T: Tasks, t: string) {
    t in T && T[t].state.Failed?
  }

  /** The task is neither COMPLETE nor FAILED, and if it is PENDING it waits for nothing. */
  ghost predicate Alive(st: Store, t: string) {
    && t in st.tasks && !st.tasks[t].state.Complete? && !st.tasks[t].state.Failed?
    && (st.tasks[t].state.Pending? ==> DepGraph(st)[t] == [])
  }

  /** Somewhere above `u` a task has FAILED. */
  ghost predicate Doomed(st: Store, u: string) {
    exists f :: IsFailed(st.tasks, f) && Reaches(DownGraph(st.tasks), f, u)
  }

  ghost predicate OpSound(st: Store, op: Op) {
    match op
    case CompleteMem(t, _) => IsComplete(st.tasks, t)
    case FailMem(t) => IsFailed(st.tasks, t)
    case SkipRead(t, _) => IsFailed(st.tasks, t)
    case SkipLoop(todo, _, _, _) => forall u | u in todo :: Doomed(st, u)
    case SkipWrite(t, todo, _, _, _) => Doomed(st, t) && forall u | u in todo :: Doomed(st, u)
    case _ => true
  }

  /** The call has written the task's end and has yet to let go of it. */
  predicate Ends(op: Op, t: string) {
    (op.CompleteMem? || op.FailMem?) && op.task == t
  }

  ghost predicate HeldSound(st: Store, ops: map<nat, Op>, t: string) {
    Alive(st, t) || exists i :: i in ops && Ends(ops[i], t)
  }

  ghost predicate Sound(st: Store, co: Coord, ops: map<nat, Op>) {
    && (forall t | t in co.queue :: Alive(st, t))
    && (forall i, t | i in ops && t in Tokens(ops[i]) :: Alive(st, t))
    && (forall t | t in co.executions :: HeldSound(st, ops, t))
    && (forall i | i in ops :: OpSound(st, ops[i]))
  }

  ghost predicate Exclusive(s: Fine) {
    FineSafe(s) && Apart(s.co, s.ops) && Sound(s.st, s.co, s.ops)
  }

  /** A claimed task is alive until its end has been written. */
  lemma ClaimedAlive(st: Store, co: Coord, ops: map<nat, Op>, id: nat, t: string)
    requires Apart(co, ops) && Sound(st, co, ops) && id in ops && t in Claims(ops[id]) && !Ends(ops[id], t)
    ensures Alive(st, t)
  {
    hide Tokens, Tidy, Alive, OpSound;
    assert t in co.executions;
    assert HeldSound(st, ops, t);
  }

  /** Nothing below a FAILED task has been released. */
  lemma DoomedUnreleased(st: Store, u: string)
    requires StoreSafe(st) && Doomed(st, u)
    ensures u in st.tasks && !st.tasks[u].state.Released()
  {
    hide StoreSafe, Linked, DepSafe, Reaches;
    SafeLinks(st);
    var f :| IsFailed(st.tasks, f) && Reaches(DownGraph(st.tasks), f, u);
    NothingReleasedBelow(DepGraph(st), st.tasks, f, u);
  }

  // ---- What a step writes -------------------------------------------------------------------

  /** The task whose record the operation's next transaction overwrites. */
  function Target(op: Op): Option<string> {
    match op
    case SubmitRoots(roots) => if roots == [] then None else Option.Some(roots[0])
    case GetAssign(t, _, _) => Option.Some(t)
    case CompleteWrite(t, _, _) => Option.Some(t)
    case RetryWrite(t, _) => Option.Some(t)
    case FailWrite(t, _, _) => Option.Some(t)
    case SkipWrite(t, _, _, _, _) => Option.Some(t)
    case RequeueList(tasks, _) => if tasks == [] then None else Option.Some(tasks[0])
    case _ => None
  }

  /** It is unfinished: it is alive, or it waits below a FAILED task. */
  lemma TargetUnfinished(s: Fine, id: nat)
    requires Exclusive(s) && id in s.ops && Target(s.ops[id]).Some?
    ensures var t := Target(s.ops[id]).value;
            && t in s.st.tasks && !s.st.tasks[t].state.Complete? && !s.st.tasks[t].state.Failed?
            && (s.ops[id].SkipWrite? || Alive(s.st, t))
  {
    hide StoreSafe, MemoryOk, OpsOk, Apart, Doomed;
    var op, t := s.ops[id], Target(s.ops[id]).value;
    if op.SkipWrite? {
      assert OpSound(s.st, op);
      DoomedUnreleased(s.st, t);
    } else if op.CompleteWrite? || op.RetryWrite? || op.FailWrite? {
      ClaimedAlive(s.st, s.co, s.ops, id, t);
    } else {
      assert t in Tokens(s.ops[id]);
      assert Alive(s.st, t);
    }
  }

  lemma NoClobber(s: Fine, id: nat)
    requires Exclusive(s) && id in s.ops
    ensures !Clobbers(s, Advance(id))
  {
    hide Exclusive;
    if Target(s.ops[id]).Some? { TargetUnfinished(s, id); }
  }

  // ---- Records other than the target ---------------------------------------------------------

  lemma CompletionElsewhere(st: Store, t: string, x: string, output: string, u: string)
    requires StoreSafe(st) && u in st.tasks && u != t
    ensures var T' := Completed(st.tasks, t, x, output).tasks;
            && u in T' && (T'[u].state == st.tasks[u].state ||
                           (st.tasks[u].state.Pending? && T'[u].state.Queued? && DepGraph(st)[u] != []))
  {
    hide StoreSafe, Linked;
    SafeLinks(st);
    if t in st.tasks && st.tasks[t].executionId == x && !st.tasks[t].state.Complete? {
      CompletedRecords(DepGraph(st), st.tasks, t, x, output);
      hide Completed;
      TimesMember(DepGraph(st)[u], t);
    }
  }

  /** Other records keep their state, except that a completion may queue a task
      that waited, and a cancellation skip an unfinished one. */
  lemma Elsewhere(st: Store, op: Op, u: string)
    requires StoreSafe(st) && u in st.tasks && (Target(op).Some? ==> Target(op).value != u)
    requires SubmitReady(st, op)
    ensures var st' := After(st, op);
            && u in st'.tasks
            && (|| st'.tasks[u].state == st.tasks[u].state
                || (st.tasks[u].state.Pending? && st'.tasks[u].state.Queued? && DepGraph(st)[u] != [])
                || (!st.tasks[u].state.Terminal() && st'.tasks[u].state.Skipped?))
  {
    hide StoreSafe, Completed, Initialized, IsDag, Transposes, Enumerates;
    if op.CompleteWrite? {
      CompletionElsewhere(st, op.task, op.execution, op.output, u);
    } else if op.SubmitTasks? {
      InitializedEffect(st.tasks, op.spec.workflowId, op.spec.tasks, InDegrees(op.spec.tasks), op.down);
    }
  }

  /** An alive task stays alive unless the step writes its end. */
  lemma AliveStays(st: Store, op: Op, u: string)
    requires StoreSafe(st) && SubmitReady(st, op) && Alive(st, u) && Grows(st, After(st, op))
    requires op.CompleteWrite? || op.FailWrite? ==> op.task != u
    ensures Alive(After(st, op), u)
  {
    hide StoreSafe, SubmitReady, TxnOf, Apply, DepGraph;
    if Target(op).Some? && Target(op).value == u {
      TargetStays(st, op, u);
    } else {
      Elsewhere(st, op, u);
    }
  }

  /** A target whose end is not written is QUEUED, RUNNING or SKIPPED afterwards. */
  lemma TargetStays(st: Store, op: Op, u: string)
    requires u in st.tasks && Target(op).Some? && Target(op).value == u && !op.CompleteWrite? && !op.FailWrite?
    ensures var T' := After(st, op).tasks;
            u in T' && (T'[u].state.Queued? || T'[u].state.Running? || T'[u].state.Skipped?)
  {
  }

  lemma FailedStays(st: Store, op: Op, f: string)
    requires StoreSafe(st) && SubmitReady(st, op) && IsFailed(st.tasks, f) &&
             (Target(op).Some? ==> Target(op).value != f)
    ensures IsFailed(After(st, op).tasks, f)
  {
    hide StoreSafe, SubmitReady, TxnOf, Target, Apply;
    Elsewhere(st, op, f);
  }

  lemma ReachesMore(h: Graph, h': Graph, a: string, b: string)
    requires Reaches(h, a, b) && forall t | t in h :: t in h' && h'[t] == h[t]
    ensures Reaches(h', a, b)
  {
    var p :| Joins(h, p, a, b);
    assert Joins(h', p, a, b);
  }

  /** Downstream lists stay as they are. */
  lemma ListsStay(st: Store, op: Op, t: string)
    requires SubmitReady(st, op) && t in st.tasks
    ensures t in After(st, op).tasks && After(st, op).tasks[t].downstream == st.tasks[t].downstream
  {
    hide IsDag, Transposes, Enumerates;
    if op.SubmitTasks? {
      InitializedEffect(st.tasks, op.spec.workflowId, op.spec.tasks, InDegrees(op.spec.tasks), op.down);
    } else if TxnOf(op).Some? && !op.SubmitStore? {
      hide Apply;
      TxnShape(st, TxnOf(op).value);
    }
  }

  lemma DoomedStays(st: Store, op: Op, u: string)
    requires StoreSafe(st) && SubmitReady(st, op) && Doomed(st, u)
    requires Target(op).Some? ==> !IsFailed(st.tasks, Target(op).value)
    ensures Doomed(After(st, op), u)
  {
    hide StoreSafe, SubmitReady, After, Reaches, Target, IsFailed;
    var f :| IsFailed(st.tasks, f) && Reaches(DownGraph(st.tasks), f, u);
    FailedStays(st, op, f);
    forall t | t in st.tasks
      ensures t in After(st, op).tasks && After(st, op).tasks[t].downstream == st.tasks[t].downstream
    {
      ListsStay(st, op, t);
    }
    ReachesMore(DownGraph(st.tasks), DownGraph(After(st, op).tasks), f, u);
  }

  /** What another operation relies on survives the step. */
  lemma OtherSound(st: Store, op: Op, other: Op)
    requires StoreSafe(st) && SubmitReady(st, op) && OpSound(st, other) && Grows(st, After(st, op))
    requires Target(op).Some? ==> !IsFailed(st.tasks, Target(op).value)
    ensures OpSound(After(st, op), other)
  {
    hide StoreSafe, SubmitReady, After, Target, Doomed;
    if other.FailMem? || other.SkipRead? {
      FailedStays(st, op, other.task);
    } else if other.SkipLoop? || other.SkipWrite? {
      forall u | Doomed(st, u) ensures Doomed(After(st, op), u) {
        DoomedStays(st, op, u);
      }
    }
  }

  // ---- The operation itself -------------------------------------------------------------------

  lemma DoomedChildren(st: Store, f: string, u: string)
    requires StoreSafe(st) && f in st.tasks && (Doomed(st, f) || IsFailed(st.tasks, f)) && u in st.tasks[f].downstream
    ensures Doomed(st, u)
  {
    hide StoreSafe, Reaches;
    var h := DownGraph(st.tasks);
    EdgeReaches(h, f, u);
    if !IsFailed(st.tasks, f) {
      var r :| IsFailed(st.tasks, r) && Reaches(h, r, f);
      ReachesTransitive(h, r, f, u);
    }
  }

  /** What the operation relies on next. */
  lemma OwnSound(st: Store, co: Coord, op: Op)
    requires StoreSafe(st) && SubmitReady(st, op) && OpSound(st, op) && Continue(st, co, op).Some?
    requires Grows(st, After(st, op)) && (Target(op).Some? ==> !IsFailed(st.tasks, Target(op).value))
    requires op.CompleteWrite? ==> op.task in st.tasks
    ensures OpSound(After(st, op), Continue(st, co, op).value)
  {
    hide StoreSafe, SubmitReady, After, Continue, Target, OpSound, Grows;
    if op.SkipRead? || op.SkipLoop? || op.SkipWrite? {
      SkipSound(st, co, op);
    } else if op.CompleteWrite? || op.FailWrite? {
      WrittenSound(st, co, op);
    } else if op.FailMem? {
      LetGoSound(st, co, op);
    } else {
      PlainSound(st, co, op);
    }
  }

  /** The end of a task has been written. */
  lemma WrittenSound(st: Store, co: Coord, op: Op)
    requires (op.CompleteWrite? && op.task in st.tasks) || op.FailWrite?
    requires Continue(st, co, op).Some?
    ensures OpSound(After(st, op), Continue(st, co, op).value)
  {
    hide Doomed, Completed;
    if op.CompleteWrite? {
      WrittenComplete(st, op.task, op.execution, op.output);
    }
  }

  lemma LetGoSound(st: Store, co: Coord, op: Op)
    requires op.FailMem? && OpSound(st, op) && Continue(st, co, op).Some?
    ensures OpSound(After(st, op), Continue(st, co, op).value)
  {
    hide Doomed, Policy;
  }

  lemma PlainSound(st: Store, co: Coord, op: Op)
    requires !op.SkipRead? && !op.SkipLoop? && !op.SkipWrite? && !op.CompleteWrite? && !op.FailWrite? && !op.FailMem?
    requires Continue(st, co, op).Some?
    ensures OpSound(After(st, op), Continue(st, co, op).value)
  {
    hide After, Doomed, AllTerminal, Verdict, OpenTasks, MaxRetries, Completed, Owner, ValidIds, IsComplete, IsFailed;
  }

  lemma WrittenComplete(st: Store, t: string, x: string, output: string)
    requires t in st.tasks && Completed(st.tasks, t, x, output).err.NoError?
    ensures IsComplete(Completed(st.tasks, t, x, output).tasks, t)
  {
    ReleaseAllRecords(st.tasks[t := st.tasks[t].(state := Complete, output := output)], st.tasks[t].downstream);
  }

  lemma SkipSound(st: Store, co: Coord, op: Op)
    requires StoreSafe(st) && OpSound(st, op) && (op.SkipRead? || op.SkipLoop? || op.SkipWrite?)
    requires Target(op).Some? ==> !IsFailed(st.tasks, Target(op).value)
    requires SubmitReady(st, op) && Continue(st, co, op).Some?
    ensures OpSound(After(st, op), Continue(st, co, op).value)
  {
    hide StoreSafe, Doomed, AllTerminal, Verdict;
    if op.SkipWrite? {
      forall u | u in op.todo ensures Doomed(After(st, op), u) {
        DoomedStays(st, op, u);
      }
    } else if op.SkipRead? {
      forall u | u in st.tasks[op.task].downstream ensures Doomed(st, u) {
        DoomedChildren(st, op.task, u);
      }
    } else if op.todo != [] && op.todo[0] in st.tasks {
      var t := op.todo[0];
      assert t in op.todo;
      forall u | u in st.tasks[t].downstream ensures Doomed(st, u) {
        DoomedChildren(st, t, u);
      }
    }
  }

  // ---- What is brought in was held by nobody ---------------------------------------------------

  ghost predicate Waiting(st: Store, t: string) {
    t !in st.tasks || (st.tasks[t].state.Pending? && DepGraph(st)[t] != [])
  }

  /** A task that has no record, or waits for its dependencies, is held by nobody. */
  lemma WaitingUnheld(s: Fine, t: string)
    requires Sound(s.st, s.co, s.ops) && Waiting(s.st, t)
    ensures Unheld(s.co, s.ops, t)
  {
    assert !Alive(s.st, t);
    hide Alive, DepGraph, Tokens;
  }

  lemma ReadyWaits(st: Store, t: string, x: string, output: string, d: string)
    requires StoreSafe(st) && d in Completed(st.tasks, t, x, output).ready
    ensures Waiting(st, d)
  {
    hide StoreSafe, Linked;
    SafeLinks(st);
    ReadyIsQueued(DepGraph(st), st.tasks, t, x, output);
    hide Completed;
    TimesMember(DepGraph(st)[d], t);
  }

  lemma BroughtUnheld(s: Fine, id: nat)
    requires Exclusive(s) && id in s.ops
    ensures forall t | t in Brought(s.st, s.ops[id]) :: Unheld(s.co, s.ops, t)
  {
    hide StoreSafe, MemoryOk, Apart, Sound, Unheld;
    var op := s.ops[id];
    assert SubmitReady(s.st, op);
    forall t | t in Brought(s.st, op) ensures Unheld(s.co, s.ops, t) {
      if op.CompleteWrite? { ReadyWaits(s.st, op.task, op.execution, op.output, t); }
      WaitingUnheld(s, t);
    }
  }

  /** What is brought in is alive afterwards. */
  lemma BroughtAlive(st: Store, co: Coord, op: Op, t: string)
    requires StoreSafe(st) && StoreSafe(After(st, op)) && SubmitReady(st, op) && t in Brought(st, op) &&
             Continue(st, co, op).Some?
    ensures Alive(After(st, op), t)
  {
    hide StoreSafe;
    if op.CompleteWrite? {
      ReadyQueued(st.tasks, op.task, op.execution, op.output);
      hide Completed;
    } else {
      RootRecords(st, op.spec, op.down, op.roots, t);
    }
  }

  lemma RootRecords(st: Store, spec: WorkflowSpec, down: Graph, roots: seq<string>, t: string)
    requires InitOk(st, spec.workflowId, spec.tasks, down) && Enumerates(roots, Roots(spec.tasks)) && t in roots
    ensures Alive(st.(tasks := Initialized(st.tasks, spec.workflowId, spec.tasks, InDegrees(spec.tasks), down)), t)
  {
    InitFacts(st.tasks, spec.workflowId, spec.tasks, down);
    hide Initialized, Transposes, IsDag;
  }

  // ---- One step of an operation ----------------------------------------------------------------

  /** What the queue and the operations hold is alive after the step. */
  lemma TokensAlive(s: Fine, id: nat, t: string)
    requires Exclusive(s) && id in s.ops && Grows(s.st, After(s.st, s.ops[id])) && StoreSafe(After(s.st, s.ops[id]))
    requires var ops' := WithOp(s.ops, id, Continue(s.st, s.co, s.ops[id]));
             t in Memory(s.co, s.ops[id]).queue || exists i :: i in ops' && t in Tokens(ops'[i])
    ensures Alive(After(s.st, s.ops[id]), t)
  {
    hide StoreSafe, MemoryOk, After, Continue, Memory, Grows, Tidy, Alive, OpSound, SubmitReady, HeldSound, Brought;
    var op, ops' := s.ops[id], WithOp(s.ops, id, Continue(s.st, s.co, s.ops[id]));
    assert SubmitReady(s.st, op);
    if t in Brought(s.st, op) && t in TokensOf(Continue(s.st, s.co, op)) {
      BroughtAlive(s.st, s.co, op, t);
    } else {
      NextTokens(s.st, s.co, op);
      MemoryQueue(s.co, op, t);
      assert Alive(s.st, t) by {
        if t in Claims(op) && op.RetryMem? { ClaimedAlive(s.st, s.co, s.ops, id, t); }
      }
      AliveStays(s.st, op, t);
    }
  }

  lemma MemoryQueue(co: Coord, op: Op, t: string)
    ensures t in Memory(co, op).queue ==> t in co.queue || t in Tokens(op) || (op.RetryMem? && t in Claims(op))
    ensures op.CompleteWrite? || op.FailWrite? ==> Memory(co, op) == co && op.task in Claims(op)
  {
    if op.CancelMem? {
      WithoutMembers(co.queue, op.dropped);
    } else if op.SkipMem? {
      WithoutMembers(co.queue, Elems(op.skipped));
    }
  }

  /** A handed-out task is alive after the step, or its end has just been written. */
  lemma HeldAfter(s: Fine, id: nat, t: string)
    requires Exclusive(s) && id in s.ops && Grows(s.st, After(s.st, s.ops[id]))
    requires t in Memory(s.co, s.ops[id]).executions
    ensures HeldSound(After(s.st, s.ops[id]), WithOp(s.ops, id, Continue(s.st, s.co, s.ops[id])), t)
  {
    hide StoreSafe, MemoryOk, After, Continue, Grows, Tidy, Alive, OpSound, Apart;
    var op, ops' := s.ops[id], WithOp(s.ops, id, Continue(s.st, s.co, s.ops[id]));
    assert SubmitReady(s.st, op);
    MemoryHeld(s.co, op, t);
    assert HeldSound(s.st, s.ops, t) || t in Tokens(op);
    if t in Tokens(op) || Alive(s.st, t) {
      assert Alive(s.st, t);
      if (op.CompleteWrite? || op.FailWrite?) && op.task == t {
        WritesEnd(s.st, s.co, op);
        if Continue(s.st, s.co, op).Some? { assert Ends(ops'[id], t); }
      } else {
        AliveStays(s.st, op, t);
      }
    } else {
      var i :| i in s.ops && Ends(s.ops[i], t);
      assert i != id && ops'[i] == s.ops[i];
    }
  }

  lemma MemoryHeld(co: Coord, op: Op, t: string)
    requires t in Memory(co, op).executions
    ensures (t in co.executions && !Ends(op, t)) || (op.GetHold? && t in Tokens(op))
  {
  }

  /** A result call that gets to write goes on to let go of its task; otherwise nothing has changed. */
  lemma WritesEnd(st: Store, co: Coord, op: Op)
    requires op.CompleteWrite? || op.FailWrite?
    ensures var next := Continue(st, co, op); if next.Some? then Ends(next.value, op.task) else After(st, op) == st
  {
  }

  lemma AdvanceSound(s: Fine, id: nat)
    requires Exclusive(s) && id in s.ops && Grows(s.st, After(s.st, s.ops[id])) && StoreSafe(After(s.st, s.ops[id]))
    ensures Sound(After(s.st, s.ops[id]), Memory(s.co, s.ops[id]), WithOp(s.ops, id, Continue(s.st, s.co, s.ops[id])))
  {
    hide StoreSafe, MemoryOk, After, Continue, Memory, Grows, Alive, OpSound, Apart, HeldSound, Tokens, Target,
         SubmitReady;
    var op, st', co' := s.ops[id], After(s.st, s.ops[id]), Memory(s.co, s.ops[id]);
    var ops' := WithOp(s.ops, id, Continue(s.st, s.co, op));
    assert SubmitReady(s.st, op) && OpSound(s.st, op);
    forall t | t in co'.queue ensures Alive(st', t) { TokensAlive(s, id, t); }
    forall i, t | i in ops' && t in Tokens(ops'[i]) ensures Alive(st', t) { TokensAlive(s, id, t); }
    forall t | t in co'.executions ensures HeldSound(st', ops', t) { HeldAfter(s, id, t); }
    TargetNotFailed(s, id);
    forall i | i in ops' ensures OpSound(st', ops'[i]) {
      if i == id {
        OwnSound(s.st, s.co, op);
      } else {
        OtherSound(s.st, op, s.ops[i]);
      }
    }
  }

  lemma TargetNotFailed(s: Fine, id: nat)
    requires Exclusive(s) && id in s.ops
    ensures Target(s.ops[id]).Some? ==>
            Target(s.ops[id]).value in s.st.tasks && !IsFailed(s.st.tasks, Target(s.ops[id]).value)
    ensures s.ops[id].CompleteWrite? ==> s.ops[id].task in s.st.tasks
  {
    hide Exclusive;
    if Target(s.ops[id]).Some? { TargetUnfinished(s, id); }
  }

  lemma AdvanceExclusive(s: Fine, id: nat)
    requires Exclusive(s) && Possible(s, Advance(id))
    ensures !Clobbers(s, Advance(id)) && Exclusive(Next(s, Advance(id)))
  {
    hide StoreSafe, MemoryOk, Apart, Sound, Continue, Memory, Grows, SubmitReady, FreshStart, Tokens, Claims, Apply;
    var op := s.ops[id];
    NoClobber(s, id);
    MoveKeepsSafe(s, Advance(id));
    if TxnOf(op).Some? {
      OpPermitted(s.st, op);
      TxnGrows(s.st, TxnOf(op).value);
    } else {
      SelfGrows(s.st);
    }
    BroughtUnheld(s, id);
    AdvanceApart(s.st, s.co, s.ops, id);
    AdvanceSound(s, id);
  }

  // ---- Starting a call, crashing ----------------------------------------------------------------

  /** A call that starts with `op` takes tasks only from the queue and the running table. */
  lemma StartApart(co: Coord, ops: map<nat, Op>, id: nat, co': Coord, op: Op)
    requires Apart(co, ops) && id !in ops && Tidy(op)
    requires NoDup(co'.queue) && forall t | t in co'.queue :: t !in co'.executions
    requires forall t | t in Tokens(op) :: t !in co'.queue && t !in co'.executions
    requires forall t | t in co'.queue || t in co'.executions || t in Tokens(op) :: t in co.queue || t in co.executions
    requires forall t | t in Claims(op) :: t in co'.executions && Free(ops, t)
    requires forall t | t in co.executions && t !in co'.executions :: Free(ops, t)
    ensures Apart(co', ops[id := op])
  {
    hide Tokens, Claims, Tidy, Apart, Free;
    var ops0 := ops[id := CheckDone("")];
    IdleApart(co, ops, id);
    PassOn(co, ops0, id, co', Option.Some(op));
    assert WithOp(ops0, id, Option.Some(op)) == ops[id := op];
  }

  /** An operation that holds nothing makes no difference. */
  lemma IdleApart(co: Coord, ops: map<nat, Op>, id: nat)
    requires Apart(co, ops) && id !in ops
    ensures var ops0 := ops[id := CheckDone("")]; Apart(co, ops0) && forall t | Free(ops, t) :: Free(ops0, t)
  {
    var idle := CheckDone("");
    assert Tokens(idle) == {} && Claims(idle) == {} && Tidy(idle);
    hide Tokens, Claims, Tidy;
  }

  lemma StartSound(st: Store, co: Coord, ops: map<nat, Op>, id: nat, co': Coord, op: Op)
    requires Sound(st, co, ops) && id !in ops && OpSound(st, op)
    requires forall t | t in co'.queue :: t in co.queue
    requires forall t | t in co'.executions :: t in co.executions
    requires forall t | t in Tokens(op) :: Alive(st, t)
    ensures Sound(st, co', ops[id := op])
  {
    hide Tokens, Alive, OpSound;
    forall t | t in co'.executions ensures HeldSound(st, ops[id := op], t) {
      assert HeldSound(st, ops, t);
      if !Alive(st, t) {
        var i :| i in ops && Ends(ops[i], t);
        assert Ends(ops[id := op][i], t);
      }
    }
  }

  /** A handed-out task without a result in flight is alive. */
  lemma FreeAlive(st: Store, co: Coord, ops: map<nat, Op>, t: string)
    requires Sound(st, co, ops) && t in co.executions && Free(ops, t)
    ensures Alive(st, t)
  {
    hide Alive, OpSound, Tokens;
    assert HeldSound(st, ops, t);
  }

  lemma StartExclusive(s: Fine, id: nat, r: Request)
    requires Exclusive(s) && Possible(s, Start(id, r)) && Orderly(s, Start(id, r))
    ensures Exclusive(Next(s, Start(id, r)))
  {
    hide FineSafe, Apart, Sound, Free, IsDag, Transposes;
    MoveKeepsSafe(s, Start(id, r));
    match r
    case SubmitReq(spec, down, roots) => if IsDag(spec.tasks) { BeginWith(s, id, SubmitStore(spec, down, roots)); }
    case GetReq(worker, x) => GetExclusive(s, id, worker, x);
    case CompleteReq(t, x, output) => if Accepts(s.co, t, x) { BeginWith(s, id, CompleteWrite(t, x, output)); }
    case FailReq(t, x, msg, newId) => if Accepts(s.co, t, x) { BeginWith(s, id, FailRead(t, msg, newId)); }
    case CancelReq(w) => BeginWith(s, id, CancelWrite(w, WorkflowCancelled));
    case DeadReq(worker, tasks, ids) => DeadExclusive(s, id, worker, tasks, ids);
  }

  lemma QueueFacts(s: Fine)
    requires Exclusive(s)
    ensures NoDup(s.co.queue) && (forall t | t in s.co.queue :: t !in s.co.executions && Alive(s.st, t))
    ensures s.co.running.Keys == s.co.executions.Keys
    ensures Apart(s.co, s.ops) && Sound(s.st, s.co, s.ops)
  {
    hide StoreSafe, OpsOk, Alive, Tokens, Claims, Tidy, OpSound;
  }

  lemma BeginWith(s: Fine, id: nat, op: Op)
    requires Exclusive(s) && id !in s.ops && Tidy(op) && Tokens(op) == {} && OpSound(s.st, op)
    requires forall t | t in Claims(op) :: t in s.co.executions && Free(s.ops, t)
    ensures Apart(s.co, s.ops[id := op]) && Sound(s.st, s.co, s.ops[id := op])
  {
    hide Exclusive, Apart, Sound;
    QueueFacts(s);
    StartApart(s.co, s.ops, id, s.co, op);
    StartSound(s.st, s.co, s.ops, id, s.co, op);
  }

  /** The head of the queue is taken: it is held by the call, or by nobody. */
  lemma GetExclusive(s: Fine, id: nat, worker: string, x: string)
    requires Exclusive(s) && id !in s.ops
    ensures var s' := Begin(s, id, GetReq(worker, x)); Apart(s'.co, s'.ops) && Sound(s'.st, s'.co, s'.ops)
  {
    hide Exclusive, Alive;
    QueueFacts(s);
    if s.co.queue != [] {
      var t, co' := s.co.queue[0], s.co.(queue := s.co.queue[1..]);
      Popped(s.co.queue);
      if t in s.co.specCache {
        hide Apart, Sound;
        StartApart(s.co, s.ops, id, co', GetAssign(t, x, worker));
        StartSound(s.st, s.co, s.ops, id, co', GetAssign(t, x, worker));
      } else {
        hide Tokens, Claims, Tidy, OpSound;
        assert Apart(co', s.ops) && Sound(s.st, co', s.ops);
      }
    }
  }

  lemma Popped(queue: seq<string>)
    requires NoDup(queue) && queue != []
    ensures queue[0] in queue && queue[0] !in queue[1..] && NoDup(queue[1..]) && forall u | u in queue[1..] ::
            u in queue
  {
  }

  /** A dead worker's tasks pass from the running table to the call. */
  lemma DeadExclusive(s: Fine, id: nat, worker: string, tasks: seq<string>, ids: map<string, string>)
    requires Exclusive(s) && id !in s.ops && Enumerates(tasks, HeldBy(s.co, worker))
    requires forall t | t in tasks :: Free(s.ops, t)
    ensures var s' := Begin(s, id, DeadReq(worker, tasks, ids)); Apart(s'.co, s'.ops) && Sound(s'.st, s'.co, s'.ops)
  {
    hide Exclusive, Apart, Sound, Alive, Free;
    QueueFacts(s);
    var co', op := Released(s.co, Elems(tasks)), RequeueList(tasks, ids);
    forall t | t in tasks ensures t in s.co.executions && Alive(s.st, t) {
      FreeAlive(s.st, s.co, s.ops, t);
    }
    StartApart(s.co, s.ops, id, co', op);
    StartSound(s.st, s.co, s.ops, id, co', op);
  }

  lemma CrashExclusive(s: Fine, ws: seq<string>, queued: seq<string>, running: seq<string>, ids: map<string, string>)
    requires Exclusive(s) && RestartOrders(s.st, ws, queued, running)
    ensures Exclusive(Next(s, Crash(ws, queued, running, ids)))
  {
    hide FineSafe, LoadAll, Apart, Sound;
    MoveKeepsSafe(s, Crash(ws, queued, running, ids));
    LoadAllHeld(s.st, ws);
    var s' := Next(s, Crash(ws, queued, running, ids));
    assert s'.co.queue == queued && s'.co.executions == map[];
    RestartApart(s.st, s'.co, queued, running, ids);
    RestartSound(s.st, s'.co, queued, running, ids);
  }

  lemma RestartSound(st: Store, co: Coord, queued: seq<string>, running: seq<string>, ids: map<string, string>)
    requires Enumerates(queued, InState(st.tasks, Queued)) && Enumerates(running, InState(st.tasks, Running))
    requires co.queue == queued && co.executions == map[]
    ensures Sound(st, co, map[0 := RequeueList(running, ids)])
  {
    hide DepGraph;
  }

  lemma RestartApart(st: Store, co: Coord, queued: seq<string>, running: seq<string>, ids: map<string, string>)
    requires Enumerates(queued, InState(st.tasks, Queued)) && Enumerates(running, InState(st.tasks, Running))
    requires co.queue == queued && co.executions == map[]
    ensures Apart(co, map[0 := RequeueList(running, ids)])
  {
  }

  lemma MoveExclusive(s: Fine, m: Move)
    requires Exclusive(s) && Possible(s, m) && Orderly(s, m)
    ensures !Clobbers(s, m) && Exclusive(Next(s, m))
  {
    hide Exclusive, Orderly;
    match m
    case Start(id, r) => StartExclusive(s, id, r);
    case Advance(id) => AdvanceExclusive(s, id);
    case Crash(ws, queued, running, ids) => CrashExclusive(s, ws, queued, running, ids);
  }

  lemma InitialExclusive()
    ensures Exclusive(FINE_INITIAL)
  {
    InitialSafe();
  }

  lemma {:induction false} OrderlyExclusive(ss: seq<Fine>, ms: seq<Move>, i: nat)
    requires IsInterleaving(ss, ms) && i < |ss| && forall k | 0 <= k < |ms| :: Orderly(ss[k], ms[k])
    ensures Exclusive(ss[i])
  {
    hide Possible, Next, Exclusive, Orderly;
    if i == 0 {
      InitialExclusive();
    } else {
      OrderlyExclusive(ss, ms, i - 1);
      assert Possible(ss[i - 1], ms[i - 1]) && ss[i] == Next(ss[i - 1], ms[i - 1]) && Orderly(ss[i - 1], ms[i - 1]);
      MoveExclusive(ss[i - 1], ms[i - 1]);
    }
  }

  /** On every orderly interleaving no COMPLETE record is overwritten, and dependency
      safety and the in-degree equation hold in every state, crashes included. */
  lemma OrderlySafety(ss: seq<Fine>, ms: seq<Move>, i: nat)
    requires IsInterleaving(ss, ms) && i < |ss| && forall k | 0 <= k < |ms| :: Orderly(ss[k], ms[k])
    ensures DepSafe(DepGraph(ss[i].st), ss[i].st.tasks) && InDegreeExact(DepGraph(ss[i].st), ss[i].st.tasks)
    ensures i < |ms| ==> !Clobbers(ss[i], ms[i])
  {
    hide Possible, Next, Orderly, MemoryOk, OpsOk, Apart, Sound, Clobbers;
    OrderlyExclusive(ss, ms, i);
    if i < |ms| {
      assert Possible(ss[i], ms[i]) && Orderly(ss[i], ms[i]);
      MoveExclusive(ss[i], ms[i]);
    }
  }
}
