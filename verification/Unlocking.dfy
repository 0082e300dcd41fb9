/** Completion and unlocking are one transaction: wherever the coordinator
    crashes, no task is left PENDING with all its dependencies COMPLETE. */
module Unlocking {
  import opened Types
  import opened Stores
  import opened Systems
  import opened StoreSafety
  import opened StepForms
  import opened Permits
  import opened Safety
  import opened CrashRuns

  /** A PENDING record with in-degree zero belongs to a task without dependencies. */
  ghost predicate Waits(st: Store, t: string) {
    t in st.tasks && st.tasks[t].state.Pending? && st.tasks[t].inDegree == 0 ==> DepGraph(st)[t] == []
  }

  lemma SpecKeepsWaits(st: Store, spec: WorkflowSpec, t: string)
    requires Registered(st) && spec.workflowId !in st.specs && Waits(st, t)
    ensures Waits(Apply(st, StoreSpec(spec)), t)
  {
  }

  lemma InitKeepsWaits(st: Store, tx: Txn, t: string)
    requires tx.InitTasks? && Permitted(st, tx) && Waits(st, t)
    ensures Waits(Apply(st, tx), t)
  {
    InitializedEffect(st.tasks, tx.owner, tx.specs, tx.inDegree, tx.down);
  }

  lemma CompletionKeepsWaits(T: Tasks, t: string, x: string, output: string, d: string)
    requires d in T
    ensures var T' := Completed(T, t, x, output).tasks;
            d in T' && (T'[d].state.Pending? && T'[d].inDegree == 0 ==> T[d].state.Pending? && T[d].inDegree == 0)
  {
    if t in T {
      ReleaseAllRecords(T[t := T[t].(state := Complete, output := output)], T[t].downstream);
    }
  }

  lemma TxnKeepsWaits(st: Store, tx: Txn, t: string)
    requires StoreSafe(st) && Permitted(st, tx) && Waits(st, t)
    ensures Waits(Apply(st, tx), t)
  {
    hide StoreSafe;
    SafeSpecs(st);
    if tx.StoreSpec? {
      SpecKeepsWaits(st, tx.spec, t);
    } else if tx.InitTasks? {
      InitKeepsWaits(st, tx, t);
    } else {
      assert tx.SetState? ==> !tx.state.Pending?;
      hide Permitted, Apply;
      TxnShape(st, tx);
      ShapeKeepsGraph(st, Apply(st, tx));
      if t in st.tasks { PendingBefore(st, tx, t); }
    }
  }

  /** A record that is PENDING with in-degree zero after the transaction was so before. */
  lemma PendingBefore(st: Store, tx: Txn, t: string)
    requires t in st.tasks && !tx.StoreSpec? && !tx.InitTasks? && (tx.SetState? ==> !tx.state.Pending?)
    ensures var T, T' := st.tasks, Apply(st, tx).tasks;
            t in T' && (T'[t].state.Pending? && T'[t].inDegree == 0 ==> T[t].state.Pending? && T[t].inDegree == 0)
  {
    if tx.CompleteTask? {
      hide Completed;
      CompletionKeepsWaits(st.tasks, tx.task, tx.execution, tx.output, t);
    }
  }

  lemma {:induction false} PrefixWaits(st: Store, txs: seq<Txn>, k: nat, t: string)
    requires StoreSafe(st) && AllPermitted(st, txs) && k <= |txs| && Waits(st, t)
    ensures Waits(Fold(st, txs[..k]), t)
  {
    hide StoreSafe, AllPermitted, Permitted, Waits, Fold, Apply;
    if k == 0 {
      NoTxn(st, txs);
    } else {
      PrefixSafe(st, txs, k - 1);
      PrefixWaits(st, txs, k - 1, t);
      NextTxn(st, txs, k - 1);
      TxnKeepsWaits(Fold(st, txs[..k - 1]), txs[k - 1], t);
    }
  }

  lemma StepKeepsWaits(s: Sys, e: Event, t: string)
    requires Safe(s) && Enabled(s, e) && Waits(s.st, t)
    ensures Waits(Step(s, e).st, t)
  {
    hide StoreSafe, CoordSafe, AllPermitted, Waits;
    StepPermitted(s, e);
    PrefixWaits(s.st, Txns(s, e), |Txns(s, e)|, t);
    assert Txns(s, e)[..|Txns(s, e)|] == Txns(s, e);
  }

  lemma ActKeepsWaits(s: Sys, a: Action, t: string)
    requires Safe(s) && CanAct(s, a) && Waits(s.st, t)
    ensures Waits(Act(s, a).st, t)
  {
    hide StoreSafe, CoordSafe, AllPermitted, Waits, RestartOrders, Step;
    if a.Call? {
      StepKeepsWaits(s, a.event, t);
    } else {
      StepPermitted(s, a.event);
      PrefixWaits(s.st, Txns(s, a.event), a.done, t);
      RestartWaits(Leftover(s, a.event, a.done), a.workflows, a.queued, a.running, a.ids, t);
    }
  }

  lemma RestartWaits(st: Store, ws: seq<string>, queued: seq<string>, running: seq<string>, ids: map<string, string>,
                     t: string)
    requires Waits(st, t)
    ensures Waits(Step(Sys(st, EMPTY_COORD), Restart(ws, queued, running, ids)).st, t)
  {
    hide Step, Fold, RequeueTxns;
    RestartForm(st, EMPTY_COORD, ws, queued, running, ids);
    RequeueForm(st, running, ids);
    ShapeKeepsGraph(st, Step(Sys(st, EMPTY_COORD), Restart(ws, queued, running, ids)).st);
  }

  lemma {:induction false} RunWaits(ss: seq<Sys>, acts: seq<Action>, i: nat, t: string)
    requires IsCrashRun(ss, acts) && i < |ss|
    ensures Waits(ss[i].st, t)
  {
    if i > 0 {
      hide Safe, Waits, CanAct, Act;
      RunWaits(ss, acts, i - 1, t);
      CrashRunSafe(ss, acts, i - 1);
      assert CanAct(ss[i - 1], acts[i - 1]);
      ActKeepsWaits(ss[i - 1], acts[i - 1], t);
    }
  }

  /** A crash cannot leave a task completed without its dependents unlocked: in
      every state of every run, crashes inside calls included, a PENDING task
      that declares a dependency declares one that is not COMPLETE. */
  lemma UnlockIsAtomic(ss: seq<Sys>, acts: seq<Action>, i: nat, t: string, d: string) returns (u: string)
    requires IsCrashRun(ss, acts) && i < |ss|
    requires t in ss[i].st.tasks && ss[i].st.tasks[t].state.Pending? && Declares(ss[i].st.specs, t, d)
    ensures Declares(ss[i].st.specs, t, u) && !IsComplete(ss[i].st.tasks, u)
  {
    hide StoreSafe, CoordSafe, IsCrashRun, SpecsOk, Registered, Declares, Linked, InDegreeExact;
    var st := ss[i].st;
    RunWaits(ss, acts, i, t);
    CrashRunSafe(ss, acts, i);
    SafeSpecs(st);
    DeclaredIsEdge(st, t, d);
    u := Unfinisher(st, t);
    DeclaredIsEdge(st, t, u);
  }

  lemma Unfinisher(st: Store, t: string) returns (u: string)
    requires StoreSafe(st) && t in st.tasks && st.tasks[t].state.Pending? && Waits(st, t) && DepGraph(st)[t] != []
    ensures u in DepGraph(st)[t] && !IsComplete(st.tasks, u)
  {
    SafeCounts(st);
    hide StoreSafe, DepGraph;
    var g := DepGraph(st);
    if forall v | v in g[t] :: IsComplete(st.tasks, v) {
      UnfinishedZero(g[t], st.tasks);
      assert false;
    }
    u :| u in g[t] && !IsComplete(st.tasks, u);
  }
}
