/** Exactly which interleavings keep dependency safety and the in-degree equation:
    those in which every transaction meets a guard on the store it finds. */
module Exactness {
  import opened Types
  import opened Seqs
  import opened Graphs
  import opened Dags
  import opened Stores
  import opened Systems
  import opened StoreSafety
  import opened Safety
  import opened CrashRuns
  import opened Interleaving

  /** Dependency safety and in-degree conservation. */
  ghost predicate Kept(st: Store) {
    DepSafe(DepGraph(st), st.tasks) && InDegreeExact(DepGraph(st), st.tasks)
  }

  /** What every store of every interleaving satisfies, safe or not. */
  ghost predicate Framed(st: Store) {
    SpecsOk(st.specs) && Registered(st) && ActiveStored(st) && Linked(DepGraph(st), st.tasks)
  }

  /** Writing `t` takes COMPLETE away only if everything that depends on `t` is SKIPPED. */
  ghost predicate Overwritable(st: Store, t: string) {
    IsComplete(st.tasks, t) ==> DependentsSkipped(DepGraph(st), st.tasks, t)
  }

  /** The guard: whatever the transaction releases or completes has all its
      dependencies COMPLETE, and a COMPLETE record is overwritten only harmlessly. */
  ghost predicate Sanctioned(st: Store, tx: Txn) {
    var g, T := DepGraph(st), st.tasks;
    match tx
    case SetState(t, state) => t in T ==> (state.Skipped? || DepsComplete(g, T, t)) && Overwritable(st, t)
    case AssignTask(t, _) => t in T ==> DepsComplete(g, T, t) && Overwritable(st, t)
    case FailTask(t, _, _) => t in T ==> DepsComplete(g, T, t) && Overwritable(st, t)
    case RequeueTask(t, _) => t in T ==> DepsComplete(g, T, t) && Overwritable(st, t)
    case CompleteTask(t, x, _) => t in T && T[t].executionId == x && !IsComplete(T, t) ==> DepsComplete(g, T, t)
    case _ => true
  }

  ghost predicate SanctionedMove(s: Fine, m: Move) {
    MoveTxn(s, m).Some? ==> Sanctioned(s.st, MoveTxn(s, m).value)
  }

  // ---- One transaction ------------------------------------------------------------------------

  /** Rewriting one record to a state that is neither PENDING nor COMPLETE. */
  lemma RewriteExact(g: Graph, T: Tasks, t: string, r: TaskRecord)
    requires Linked(g, T) && DepSafe(g, T) && InDegreeExact(g, T) && t in T && !r.state.Complete? && !r.state.Pending?
    requires r.workflowId == T[t].workflowId && r.downstream == T[t].downstream
    ensures DepSafe(g, T[t := r]) && InDegreeExact(g, T[t := r]) <==>
            && (r.state.Skipped? || DepsComplete(g, T, t))
            && (IsComplete(T, t) ==> DependentsSkipped(g, T, t))
  {
    var T' := T[t := r];
    if IsComplete(T, t) {
      assert DepsComplete(g, T, t);
      OverwriteHarmless(g, T, t, r);
    } else {
      assert forall d :: IsComplete(T', d) <==> IsComplete(T, d);
      if r.state.Skipped? || DepsComplete(g, T, t) {
        assert Quiet(g, T, T');
        QuietKeepsSafe(g, T, T');
      } else {
        assert !DepsComplete(g, T', t);
      }
    }
  }

  lemma CompletionExact(st: Store, t: string, x: string, output: string)
    requires StoreSafe(st)
    ensures var st' := Apply(st, CompleteTask(t, x, output)); Kept(st') <==> Sanctioned(st, CompleteTask(t, x, output))
  {
    hide StoreSafe, Linked, DepSafe, InDegreeExact;
    var g, T, st' := DepGraph(st), st.tasks, Apply(st, CompleteTask(t, x, output));
    SafeLinks(st);
    SafeCounts(st);
    CompletedShape(T, t, x, output);
    ShapeKeepsGraph(st, st');
    if t in T && T[t].executionId == x && !IsComplete(T, t) {
      if DepsComplete(g, T, t) {
        CompletionKeepsSafe(g, T, t, x, output);
      } else {
        CompletedRecords(g, T, t, x, output);
        hide Completed;
        UnsafeCompletion(g, T, st'.tasks, t);
      }
    } else {
      assert st' == st;
    }
  }

  /** A task completed before its dependencies is a violation. */
  lemma UnsafeCompletion(g: Graph, T: Tasks, T': Tasks, t: string)
    requires Linked(g, T) && t in T && !DepsComplete(g, T, t) && T'.Keys == T.Keys && IsComplete(T', t)
    requires forall d | d in T && d != t :: T'[d] == AfterReleases(T[d], Times(g[d], t))
    ensures !DepSafe(g, T')
  {
    var d :| d in g[t] && !IsComplete(T, d);
    if d == t { EdgeReaches(g, t, t); }
    assert !IsComplete(T', d) && !DepsComplete(g, T', t);
  }

  /** A transaction of an operation in flight keeps both properties exactly when it meets the guard. */
  lemma TxnExact(st: Store, op: Op)
    requires StoreSafe(st) && SubmitReady(st, op) && FreshStart(st, op) && TxnOf(op).Some?
    ensures Kept(Apply(st, TxnOf(op).value)) <==> Sanctioned(st, TxnOf(op).value)
  {
    hide StoreSafe;
    var tx := TxnOf(op).value;
    if tx.CompleteTask? {
      CompletionExact(st, tx.task, tx.execution, tx.output);
    } else if WritesRecord(tx) {
      RecordExact(st, op);
    } else {
      assert Permitted(st, tx);
      TxnKeepsSafe(st, tx);
      SafeKept(Apply(st, tx));
    }
  }

  lemma SafeKept(st: Store)
    requires StoreSafe(st)
    ensures Kept(st)
  {
  }

  /** The transactions that write one record. */
  predicate WritesRecord(tx: Txn) {
    tx.SetState? || tx.AssignTask? || tx.FailTask? || tx.RequeueTask?
  }

  lemma RecordExact(st: Store, op: Op)
    requires StoreSafe(st) && TxnOf(op).Some? && WritesRecord(TxnOf(op).value)
    ensures Kept(Apply(st, TxnOf(op).value)) <==> Sanctioned(st, TxnOf(op).value)
  {
    hide StoreSafe, Linked, DepSafe, InDegreeExact, DepGraph, Apply, TxnOf, DepsComplete, DependentsSkipped;
    var tx := TxnOf(op).value;
    SafeLinks(st);
    SafeCounts(st);
    TxnShape(st, tx);
    ShapeKeepsGraph(st, Apply(st, tx));
    RecordWritten(st, op);
    if tx.task in st.tasks { RewriteExact(DepGraph(st), st.tasks, tx.task, Apply(st, tx).tasks[tx.task]); }
  }

  /** What an operation writes over a record is neither PENDING nor COMPLETE. */
  lemma RecordWritten(st: Store, op: Op)
    requires TxnOf(op).Some? && WritesRecord(TxnOf(op).value)
    ensures var tx := TxnOf(op).value;
            var st', t := Apply(st, tx), tx.task;
            if t in st.tasks then
              && t in st'.tasks && st' == st.(tasks := st.tasks[t := st'.tasks[t]])
              && st'.tasks[t].workflowId == st.tasks[t].workflowId && st'.tasks[t].downstream == st.tasks[t].downstream
              && !st'.tasks[t].state.Complete? && !st'.tasks[t].state.Pending?
              && (st'.tasks[t].state.Skipped? <==> tx.SetState? && tx.state.Skipped?)
            else st' == st
  {
  }

  // ---- What every store satisfies ---------------------------------------------------------------

  lemma TxnFramed(st: Store, op: Op)
    requires Framed(st) && SubmitReady(st, op) && FreshStart(st, op) && TxnOf(op).Some?
    ensures Framed(Apply(st, TxnOf(op).value)) && SpecsStay(st, Apply(st, TxnOf(op).value))
  {
    hide Framed;
    if op.SubmitStore? {
      if ValidKey(op.spec.workflowId) { SpecFramed(st, op.spec); }
    } else if op.SubmitTasks? {
      if ValidIds(op.spec.tasks) { InitFramed(st, op.spec.workflowId, op.spec.tasks, op.down); }
    } else {
      ShapeFramed(st, op);
    }
  }

  lemma SpecFramed(st: Store, spec: WorkflowSpec)
    requires Framed(st) && Fresh(st, spec) && Admitted(spec)
    ensures var st' := st.(specs := st.specs[spec.workflowId := spec]); Framed(st') && SpecsStay(st, st')
  {
    StoreSpecGraph(st, spec);
    FreshSpecsOk(st.specs, spec);
    hide DepGraph, Linked, IsDag, SpecsOk;
  }

  lemma InitFramed(st: Store, w: string, ts: seq<TaskSpec>, down: Graph)
    requires Framed(st) && InitOk(st, w, ts, down) && ValidIds(ts)
    ensures Framed(st.(tasks := Initialized(st.tasks, w, ts, InDegrees(ts), down)))
  {
    InitLinked(st, w, ts, down);
    InitFacts(st.tasks, w, ts, down);
    hide Initialized, IsDag, Transposes;
    InitRegistered(st, w, Initialized(st.tasks, w, ts, InDegrees(ts), down));
  }

  lemma ShapeFramed(st: Store, op: Op)
    requires Framed(st) && SubmitReady(st, op) && TxnOf(op).Some? && !op.SubmitStore? && !op.SubmitTasks?
    ensures Framed(Apply(st, TxnOf(op).value)) && SpecsStay(st, Apply(st, TxnOf(op).value))
  {
    hide SpecsOk, Registered, Linked, DepGraph;
    var tx := TxnOf(op).value;
    TxnShape(st, tx);
    ShapeKeepsGraph(st, Apply(st, tx));
  }

  // ---- Every interleaving -------------------------------------------------------------------------

  ghost predicate Shaped(s: Fine) {
    Framed(s.st) && OpsShaped(s.st, s.ops)
  }

  lemma AdvanceShaped(s: Fine, id: nat)
    requires Shaped(s) && Possible(s, Advance(id))
    ensures Shaped(Next(s, Advance(id)))
  {
    hide Continue, SubmitReady, FreshStart, SpecsOk, Registered, ActiveStored, Linked, TxnOf, Apply, Memory;
    var op := s.ops[id];
    var st' := After(s.st, op);
    var ops' := WithOp(s.ops, id, Continue(s.st, s.co, op));
    assert SubmitReady(s.st, op);
    if TxnOf(op).Some? { TxnFramed(s.st, op); }
    ReservedDistinct(s.st, s.co, s.ops, id);
    forall i | i in ops' ensures SubmitReady(st', ops'[i]) {
      if i == id {
        OwnSubmitReady(s.st, s.co, op, st');
      } else {
        OtherSubmitReady(s.st, op, st', s.ops[i]);
      }
    }
  }

  lemma StartShaped(s: Fine, id: nat, r: Request)
    requires Shaped(s) && Possible(s, Start(id, r))
    ensures Shaped(Next(s, Start(id, r)))
  {
    hide Framed, IsDag, Transposes, InitOk, Accepts, Released, Enumerates, Roots, HeldBy, SpecGraph;
  }

  lemma MoveShaped(s: Fine, m: Move)
    requires Shaped(s) && Possible(s, m)
    ensures Shaped(Next(s, m))
  {
    match m
    case Start(id, r) =>
      hide Shaped;
      StartShaped(s, id, r);
    case Advance(id) =>
      hide Shaped;
      AdvanceShaped(s, id);
    case Crash(ws, queued, running, ids) =>
      hide Framed, LoadAll, RestartOrders;
  }

  lemma {:induction false} InterleavingShaped(ss: seq<Fine>, ms: seq<Move>, i: nat)
    requires IsInterleaving(ss, ms) && i < |ss|
    ensures Shaped(ss[i])
  {
    if i == 0 {
      InitialSafe();
    } else {
      hide Possible, Next, Shaped;
      InterleavingShaped(ss, ms, i - 1);
      assert Possible(ss[i - 1], ms[i - 1]) && ss[i] == Next(ss[i - 1], ms[i - 1]);
      MoveShaped(ss[i - 1], ms[i - 1]);
    }
  }

  lemma MoveExact(s: Fine, m: Move)
    requires Shaped(s) && Possible(s, m) && Kept(s.st)
    ensures Kept(Next(s, m).st) <==> SanctionedMove(s, m)
  {
    hide Continue, SubmitReady, FreshStart, SpecsOk, Registered, ActiveStored, Linked, TxnOf, Apply, Memory, Kept,
         Sanctioned, LoadAll;
    if m.Advance? && TxnOf(s.ops[m.id]).Some? {
      assert SubmitReady(s.st, s.ops[m.id]);
      assert StoreSafe(s.st) by { FramedKept(s.st); }
      TxnExact(s.st, s.ops[m.id]);
    }
  }

  lemma FramedKept(st: Store)
    requires Framed(st) && Kept(st)
    ensures StoreSafe(st)
  {
  }

  lemma InitialKept()
    ensures Kept(FINE_INITIAL.st)
  {
    InitialSafe();
  }

  /** An interleaving keeps dependency safety and the in-degree equation in all its
      states up to `i` exactly when each of its moves up to there meets the guard. */
  lemma {:induction false} SafeExactly(ss: seq<Fine>, ms: seq<Move>, i: nat)
    requires IsInterleaving(ss, ms) && i < |ss|
    ensures (forall k | 0 <= k <= i :: Kept(ss[k].st)) <==> (forall k | 0 <= k < i :: SanctionedMove(ss[k], ms[k]))
  {
    hide Possible, Next, Kept, SanctionedMove, Shaped;
    if i == 0 {
      InitialKept();
    } else {
      SafeExactly(ss, ms, i - 1);
      InterleavingShaped(ss, ms, i - 1);
      var s, m := ss[i - 1], ms[i - 1];
      assert Possible(s, m) && ss[i] == Next(s, m);
      if Kept(s.st) { MoveExact(s, m); }
    }
  }
}
