/** Every transaction issued by a call is permitted when it runs, so the store
    is safe after any number of the call's transactions: a crash may fall on any
    transaction boundary. */
module Permits {
  import opened Types
  import opened Seqs
  import opened Graphs
  import opened Dags
  import opened Stores
  import opened Systems
  import opened StoreSafety

  ghost predicate AllPermitted(st: Store, txs: seq<Txn>) {
    forall k | 0 <= k < |txs| :: Permitted(Fold(st, txs[..k]), txs[k])
  }

  lemma NoTxn(st: Store, txs: seq<Txn>)
    ensures Fold(st, txs[..0]) == st
  {
  }

  lemma NextTxn(st: Store, txs: seq<Txn>, k: nat)
    requires AllPermitted(st, txs) && k < |txs|
    ensures Permitted(Fold(st, txs[..k]), txs[k])
    ensures Fold(st, txs[..k + 1]) == Apply(Fold(st, txs[..k]), txs[k])
  {
    hide Permitted, Apply;
    assert txs[..k + 1][..k] == txs[..k];
  }

  lemma {:induction false} PrefixSafe(st: Store, txs: seq<Txn>, k: nat)
    requires StoreSafe(st) && AllPermitted(st, txs) && k <= |txs|
    ensures StoreSafe(Fold(st, txs[..k]))
  {
    if k > 0 {
      PrefixSafe(st, txs, k - 1);
      TxnKeepsSafe(Fold(st, txs[..k - 1]), txs[k - 1]);
      assert txs[..k][..k - 1] == txs[..k - 1];
    }
  }

  lemma PermittedNil(st: Store)
    ensures AllPermitted(st, [])
  {
  }

  lemma PermittedOne(st: Store, tx: Txn)
    requires Permitted(st, tx)
    ensures AllPermitted(st, [tx])
  {
    assert Fold(st, [tx][..0]) == st;
  }

  lemma PermittedConcat(st: Store, a: seq<Txn>, b: seq<Txn>)
    requires AllPermitted(st, a) && AllPermitted(Fold(st, a), b)
    ensures AllPermitted(st, a + b)
  {
    forall k | 0 <= k < |a + b| ensures Permitted(Fold(st, (a + b)[..k]), (a + b)[k]) {
      if k < |a| {
        assert (a + b)[..k] == a[..k];
        assert Permitted(Fold(st, a[..k]), a[k]);
      } else {
        assert (a + b)[..k] == a + b[..k - |a|];
        FoldConcat(st, a, b[..k - |a|]);
        assert Permitted(Fold(Fold(st, a), b[..k - |a|]), b[k - |a|]);
      }
    }
  }

  /** Completed dependencies stay completed while no COMPLETE record is touched. */
  lemma DepsStay(st: Store, st': Store, t: string)
    requires st'.specs == st.specs && SameShape(st.tasks, st'.tasks)
    requires forall d | d in st.tasks && st.tasks[d].state.Complete? :: st'.tasks[d].state.Complete?
    requires DepsComplete(DepGraph(st), st.tasks, t)
    ensures DepsComplete(DepGraph(st'), st'.tasks, t)
  {
    ShapeKeepsGraph(st, st');
  }

  lemma PermittedRequeues(st: Store, order: seq<string>, ids: map<string, string>)
    requires forall t | t in order :: DepsComplete(DepGraph(st), st.tasks, t) && !IsComplete(st.tasks, t)
    ensures AllPermitted(st, RequeueTxns(order, ids))
  {
    hide DepGraph, Permitted, Fold;
    var txs := RequeueTxns(order, ids);
    forall k | 0 <= k < |txs| ensures Permitted(Fold(st, txs[..k]), txs[k]) {
      assert txs[..k] == RequeueTxns(order[..k], ids);
      PermittedRequeue(st, order, ids, k);
    }
  }

  lemma PermittedRequeue(st: Store, order: seq<string>, ids: map<string, string>, k: nat)
    requires forall t | t in order :: DepsComplete(DepGraph(st), st.tasks, t) && !IsComplete(st.tasks, t)
    requires k < |order|
    ensures Permitted(Fold(st, RequeueTxns(order[..k], ids)), RequeueTxns(order, ids)[k])
  {
    var stk := Fold(st, RequeueTxns(order[..k], ids));
    RequeueEffect(st, order[..k], ids);
    hide Fold;
    assert order[k] in order && RequeueTxns(order, ids)[k] == RequeueTask(order[k], Lookup(ids, order[k], ""));
    hide RequeueTxns, DepGraph, DepsComplete, Lookup;
    assert forall u | u in order[..k] :: u in order;
    assert SameShape(st.tasks, stk.tasks);
    DepsStay(st, stk, order[k]);
  }

  lemma PermittedSkips(st: Store, order: seq<string>)
    requires forall t | t in order :: !IsComplete(st.tasks, t)
    ensures AllPermitted(st, SetStateTxns(order, Skipped))
  {
    var txs := SetStateTxns(order, Skipped);
    forall k | 0 <= k < |txs| ensures Permitted(Fold(st, txs[..k]), txs[k]) {
      assert txs[..k] == SetStateTxns(order[..k], Skipped);
      SetStateEffect(st, order[..k], Skipped);
      assert order[k] in order;
    }
  }

  lemma PermittedRoots(st: Store, order: seq<string>)
    requires forall t | t in order :: DepsComplete(DepGraph(st), st.tasks, t) && !IsComplete(st.tasks, t)
    ensures AllPermitted(st, SetStateTxns(order, Queued))
  {
    var txs := SetStateTxns(order, Queued);
    forall k | 0 <= k < |txs| ensures Permitted(Fold(st, txs[..k]), txs[k]) {
      var stk := Fold(st, txs[..k]);
      assert txs[..k] == SetStateTxns(order[..k], Queued);
      SetStateEffect(st, order[..k], Queued);
      assert order[k] in order;
      assert forall u | u in order[..k] :: u in order;
      DepsStay(st, stk, order[k]);
    }
  }

  lemma PermittedCheck(st: Store, T: Tasks, w: string)
    ensures AllPermitted(st, CheckTxns(T, w))
  {
    if AllTerminal(T, w) {
      PermittedOne(st, SetWorkflow(w, Verdict(T, w)));
    }
  }

  lemma PermittedTwo(st: Store, w: string, v: WorkflowState)
    requires !v.WorkflowRunning?
    ensures AllPermitted(st, [CancelTasks(w), SetWorkflow(w, v)])
  {
    PermittedOne(st, CancelTasks(w));
    PermittedOne(Fold(st, [CancelTasks(w)]), SetWorkflow(w, v));
    PermittedConcat(st, [CancelTasks(w)], [SetWorkflow(w, v)]);
  }

  // ---- The calls ------------------------------------------------------------------

  lemma PermittedSucceed(s: Sys, t: string, x: string, output: string)
    requires t in s.co.executions ==> DepsComplete(DepGraph(s.st), s.st.tasks, t)
    ensures AllPermitted(s.st, SucceedTxns(s, t, x, output))
  {
    if Accepts(s.co, t, x) {
      var c := Completed(s.st.tasks, t, x, output);
      var tx := CompleteTask(t, x, output);
      var rest := if c.err.NoError? && Owner(s.co, t) != "" then CheckTxns(c.tasks, Owner(s.co, t)) else [];
      PermittedOne(s.st, tx);
      PermittedCheck(Fold(s.st, [tx]), c.tasks, Owner(s.co, t));
      PermittedNil(Fold(s.st, [tx]));
      PermittedConcat(s.st, [tx], rest);
    }
  }

  lemma PermittedPolicy(st: Store, co: Coord, t: string, skipped: seq<string>)
    requires Owner(co, t) != "" && !Policy(co, Owner(co, t)).FailFast? ==>
               forall u | u in skipped :: !IsComplete(st.tasks, u)
    ensures AllPermitted(st, PolicyTxns(st.tasks, co, t, skipped))
  {
    var w := Owner(co, t);
    if w == "" {
    } else if Policy(co, w).FailFast? {
      PermittedTwo(st, w, WorkflowFailed);
    } else {
      PermittedSkips(st, skipped);
      var T' := SkipAll(st.tasks, Elems(skipped));
      PermittedCheck(Fold(st, SetStateTxns(skipped, Skipped)), T', w);
      PermittedConcat(st, SetStateTxns(skipped, Skipped), CheckTxns(T', w));
    }
  }

  lemma PermittedFail(s: Sys, t: string, x: string, msg: string, newId: string, skipped: seq<string>)
    requires t in s.co.executions ==> DepsComplete(DepGraph(s.st), s.st.tasks, t) && !IsComplete(s.st.tasks, t)
    requires Resolved(s, Fail(t, x, msg, newId, skipped))
    ensures AllPermitted(s.st, FailTxns(s, t, x, msg, newId, skipped))
  {
    if !Accepts(s.co, t, x) || t !in s.st.tasks {
    } else if Retries(s, t) {
      PermittedOne(s.st, RequeueTask(t, newId));
    } else {
      var tx := FailTask(t, msg, s.st.tasks[t].attemptCount + 1);
      var st1 := Apply(s.st, tx);
      PermittedOne(s.st, tx);
      FoldOne(s.st, tx);
      PermittedPolicy(st1, s.co, t, skipped);
      PermittedConcat(s.st, [tx], PolicyTxns(st1.tasks, s.co, t, skipped));
    }
  }

  lemma PermittedSubmit(st: Store, spec: WorkflowSpec, down: Graph, roots: seq<string>)
    requires StoreSafe(st) && Admitted(spec) && Fresh(st, spec)
    requires Transposes(SpecGraph(spec.tasks), down) && Enumerates(roots, Roots(spec.tasks))
    ensures AllPermitted(st, SubmitTxns(spec, down, roots))
  {
    hide StoreSafe, Admitted, ValidIds, Fresh, Transposes, Enumerates, AllPermitted, SetStateTxns, Fold, InDegrees;
    var a, b := StoreSpec(spec), SetWorkflow(spec.workflowId, WorkflowRunning);
    PermittedStart(st, spec);
    if ValidIds(spec.tasks) {
      var c := InitTasks(spec.workflowId, spec.tasks, InDegrees(spec.tasks), down);
      PermittedInit(st, spec, down, roots);
      PermittedConcat(st, [a, b], [c] + SetStateTxns(roots, Queued));
    } else {
      assert SubmitTxns(spec, down, roots) == [a, b];
    }
  }

  lemma PermittedStart(st: Store, spec: WorkflowSpec)
    requires StoreSafe(st) && Admitted(spec) && Fresh(st, spec)
    ensures AllPermitted(st, [StoreSpec(spec), SetWorkflow(spec.workflowId, WorkflowRunning)])
  {
    hide StoreSafe, IsDag;
    var a, b := StoreSpec(spec), SetWorkflow(spec.workflowId, WorkflowRunning);
    PermittedOne(st, a);
    FoldOne(st, a);
    PermittedOne(Fold(st, [a]), b);
    hide AllPermitted;
    PermittedConcat(st, [a], [b]);
    assert [a] + [b] == [a, b];
  }

  lemma PermittedInit(st: Store, spec: WorkflowSpec, down: Graph, roots: seq<string>)
    requires Admitted(spec) && ValidIds(spec.tasks) && Fresh(st, spec)
    requires Transposes(SpecGraph(spec.tasks), down) && Enumerates(roots, Roots(spec.tasks))
    ensures var st2 := Fold(st, [StoreSpec(spec), SetWorkflow(spec.workflowId, WorkflowRunning)]);
            AllPermitted(st2, [InitTasks(spec.workflowId, spec.tasks, InDegrees(spec.tasks),
                                         down)] + SetStateTxns(roots, Queued))
  {
    hide IsDag, Transposes, Initialized, AllPermitted;
    var a, b := StoreSpec(spec), SetWorkflow(spec.workflowId, WorkflowRunning);
    var c := InitTasks(spec.workflowId, spec.tasks, InDegrees(spec.tasks), down);
    var st2 := Fold(st, [a, b]);
    FoldTwo(st, a, b);
    hide ValidIds;
    PermittedOne(st2, c);
    FoldOne(st2, c);
    RootsReady(st, spec, down, roots);
    PermittedConcat(st2, [c], SetStateTxns(roots, Queued));
  }

  lemma RootsReady(st: Store, spec: WorkflowSpec, down: Graph, roots: seq<string>)
    requires Fresh(st, spec) && Transposes(SpecGraph(spec.tasks), down) && Enumerates(roots, Roots(spec.tasks))
    ensures var st' := Store(st.specs[spec.workflowId := spec], st.workflows[spec.workflowId := WorkflowRunning],
                             Initialized(st.tasks, spec.workflowId, spec.tasks, InDegrees(spec.tasks), down));
            AllPermitted(st', SetStateTxns(roots, Queued))
  {
    var st' := Store(st.specs[spec.workflowId := spec], st.workflows[spec.workflowId := WorkflowRunning],
                     Initialized(st.tasks, spec.workflowId, spec.tasks, InDegrees(spec.tasks), down));
    InitFacts(st.tasks, spec.workflowId, spec.tasks, down);
    PermittedRoots(st', roots);
  }
}
