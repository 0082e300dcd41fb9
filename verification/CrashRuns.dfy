/** Dependency safety over runs in which the coordinator may crash between any
    two transactions of a call, recovery included, and come back from the store
    alone. */
module CrashRuns {
  import opened Types
  import opened Graphs
  import opened Stores
  import opened Systems
  import opened StoreSafety
  import opened StepForms
  import opened Permits
  import opened Safety

  datatype Action =
    | Call(event: Event)
    | CrashIn(event: Event, done: nat, workflows: seq<string>, queued: seq<string>, running: seq<string>,
              ids: map<string, string>)

  /** What a crash after `done` transactions of a call leaves behind. */
  ghost function Leftover(s: Sys, e: Event, done: nat): Store
    requires done <= |Txns(s, e)|
  {
    Fold(s.st, Txns(s, e)[..done])
  }

  ghost predicate CanAct(s: Sys, a: Action) {
    && Enabled(s, a.event)
    && (a.CrashIn? ==>
          && a.done <= |Txns(s, a.event)|
          && RestartOrders(Leftover(s, a.event, a.done), a.workflows, a.queued, a.running))
  }

  ghost function Act(s: Sys, a: Action): Sys
    requires CanAct(s, a)
  {
    match a
    case Call(e) => Step(s, e)
    case CrashIn(e, done, ws, queued, running, ids) =>
      Step(Sys(Leftover(s, e, done), EMPTY_COORD), Restart(ws, queued, running, ids))
  }

  ghost predicate IsCrashRun(ss: seq<Sys>, acts: seq<Action>) {
    && |ss| == |acts| + 1
    && ss[0] == INITIAL
    && forall i {:trigger acts[i]} | 0 <= i < |acts| :: CanAct(ss[i], acts[i]) && ss[i + 1] == Act(ss[i], acts[i])
  }

  // ---- Safety ------------------------------------------------------------------------------

  lemma ActKeepsSafe(s: Sys, a: Action)
    requires Safe(s) && CanAct(s, a)
    ensures Safe(Act(s, a))
  {
    if a.Call? {
      StepKeepsSafe(s, a.event);
    } else {
      hide StoreSafe, CoordSafe, AllPermitted;
      StepPermitted(s, a.event);
      PrefixSafe(s.st, Txns(s, a.event), a.done);
      RestartKeepsSafe(Sys(Leftover(s, a.event, a.done), EMPTY_COORD), a.workflows, a.queued, a.running, a.ids);
    }
  }

  lemma InitialSafe()
    ensures Safe(INITIAL)
  {
    assert DepGraph(INITIAL.st) == map[];
  }

  /** Store and coordinator agree in every state, wherever the crashes fall. */
  lemma {:induction false} CrashRunSafe(ss: seq<Sys>, acts: seq<Action>, i: nat)
    requires IsCrashRun(ss, acts) && i < |ss|
    ensures Safe(ss[i])
  {
    hide Safe;
    if i == 0 {
      InitialSafe();
    } else {
      CrashRunSafe(ss, acts, i - 1);
      assert CanAct(ss[i - 1], acts[i - 1]);
      ActKeepsSafe(ss[i - 1], acts[i - 1]);
    }
  }

  // ---- Dependency safety in terms of the submitted specifications ------------------------------

  /** A stored workflow declares that `t` depends on `d`. */
  ghost predicate Declares(specs: map<string, WorkflowSpec>, t: string, d: string) {
    exists w :: w in specs && t in Ids(specs[w].tasks) && d in DepsOf(specs[w].tasks, t)
  }

  lemma DeclaredIsEdge(st: Store, t: string, d: string)
    requires SpecsOk(st.specs) && Registered(st) && t in st.tasks
    ensures Declares(st.specs, t, d) <==> d in DepGraph(st)[t]
  {
    if Declares(st.specs, t, d) {
      var w :| w in st.specs && t in Ids(st.specs[w].tasks) && d in DepsOf(st.specs[w].tasks, t);
      assert w == st.tasks[t].workflowId;
    }
  }

  /** Every QUEUED, RUNNING, COMPLETE or FAILED task has all its declared
      dependencies COMPLETE, in every state of every run. */
  lemma DependencySafety(ss: seq<Sys>, acts: seq<Action>, i: nat, t: string, d: string)
    requires IsCrashRun(ss, acts) && i < |ss|
    requires t in ss[i].st.tasks && ss[i].st.tasks[t].state.Released() && Declares(ss[i].st.specs, t, d)
    ensures IsComplete(ss[i].st.tasks, d)
  {
    hide StoreSafe, CoordSafe;
    CrashRunSafe(ss, acts, i);
    SafeSpecs(ss[i].st);
    SafeLinks(ss[i].st);
    DeclaredIsEdge(ss[i].st, t, d);
  }

  /** A PENDING task's stored in-degree is the number of its declared dependency
      entries, with multiplicity, that are not COMPLETE. */
  lemma InDegreeConservation(ss: seq<Sys>, acts: seq<Action>, i: nat, w: string, t: string)
    requires IsCrashRun(ss, acts) && i < |ss| && w in ss[i].st.specs && t in Ids(ss[i].st.specs[w].tasks)
    requires t in ss[i].st.tasks && ss[i].st.tasks[t].state.Pending?
    ensures ss[i].st.tasks[t].inDegree == Unfinished(DepsOf(ss[i].st.specs[w].tasks, t), ss[i].st.tasks)
  {
    hide CoordSafe;
    CrashRunSafe(ss, acts, i);
    assert w == ss[i].st.tasks[t].workflowId;
  }

  /** While a completion walks its downstream list, the in-degree it is about to
      lower is positive: the clamp at zero never takes effect. */
  lemma ClampNeverFires(ss: seq<Sys>, acts: seq<Action>, i: nat, t: string, k: nat, output: string)
    requires IsCrashRun(ss, acts) && i < |ss| && t in ss[i].st.tasks && !IsComplete(ss[i].st.tasks, t)
    requires k < |ss[i].st.tasks[t].downstream|
    ensures var T := ss[i].st.tasks;
            var ds := T[t].downstream;
            var Tk := ReleaseAll(T[t := T[t].(state := Complete, output := output)], ds[..k]).0;
            ds[k] in Tk && (Tk[ds[k]].state.Pending? ==> Tk[ds[k]].inDegree > 0)
  {
    CrashRunSafe(ss, acts, i);
    ReleasePositive(DepGraph(ss[i].st), ss[i].st.tasks, t, k, output);
  }

  lemma ReleasePositive(g: Graph, T: Tasks, t: string, k: nat, output: string)
    requires Linked(g, T) && InDegreeExact(g, T) && t in T && !IsComplete(T, t) && k < |T[t].downstream|
    ensures var ds := T[t].downstream;
            var Tk := ReleaseAll(T[t := T[t].(state := Complete, output := output)], ds[..k]).0;
            ds[k] in Tk && (Tk[ds[k]].state.Pending? ==> Tk[ds[k]].inDegree > 0)
  {
    var ds, done := T[t].downstream, T[t := T[t].(state := Complete, output := output)];
    var d := ds[k];
    assert d in DownGraph(T)[t] && d in T;
    ReleaseAllRecords(done, ds[..k]);
    if d != t && T[d].state.Pending? {
      InDegreeCovers(g, T, t, d);
      assert Times(DownGraph(T)[t], d) == Times(g[d], t);
      PrefixFewer(ds, k, d);
    }
  }

  /** An occurrence at position `k` is not counted in the first `k` entries. */
  lemma PrefixFewer(ds: seq<string>, k: nat, d: string)
    requires k < |ds| && ds[k] == d
    ensures Times(ds[..k], d) < Times(ds, d)
  {
    assert ds == ds[..k] + ds[k..];
    assert ds[k] in ds[k..];
  }

  // ---- The order of completions -------------------------------------------------------------------

  ghost predicate CompletesAt(ss: seq<Sys>, i: int, t: string) {
    0 <= i < |ss| - 1 && !IsComplete(ss[i].st.tasks, t) && IsComplete(ss[i + 1].st.tasks, t)
  }

  /** Only a completion transaction for `t` makes `t` COMPLETE, and no permitted
      transaction takes that away. */
  lemma TxnCompletes(st: Store, tx: Txn, t: string)
    requires Permitted(st, tx)
    ensures IsComplete(st.tasks, t) ==> IsComplete(Apply(st, tx).tasks, t)
    ensures IsComplete(Apply(st, tx).tasks, t) && !IsComplete(st.tasks, t) ==> tx.CompleteTask? && tx.task == t
  {
    hide DepGraph, Admitted, Fresh, Completed, Initialized;
    if tx.CompleteTask? {
      CompletionCompletes(st.tasks, tx.task, tx.execution, tx.output, t);
    } else if tx.InitTasks? {
      InitializedEffect(st.tasks, tx.owner, tx.specs, tx.inDegree, tx.down);
    }
  }

  lemma CompletionCompletes(T: Tasks, t: string, x: string, output: string, u: string)
    ensures IsComplete(T, u) ==> IsComplete(Completed(T, t, x, output).tasks, u)
    ensures IsComplete(Completed(T, t, x, output).tasks, u) && !IsComplete(T, u) ==> u == t
  {
    if t in T {
      ReleaseAllRecords(T[t := T[t].(state := Complete, output := output)], T[t].downstream);
    }
  }

  lemma {:induction false} FoldCompletes(st: Store, txs: seq<Txn>, k: nat, t: string)
    requires AllPermitted(st, txs) && k <= |txs|
    ensures IsComplete(st.tasks, t) ==> IsComplete(Fold(st, txs[..k]).tasks, t)
    ensures IsComplete(Fold(st, txs[..k]).tasks, t) && !IsComplete(st.tasks, t) ==>
              exists n :: 0 <= n < k && txs[n].CompleteTask? && txs[n].task == t
  {
    if k > 0 {
      hide Permitted;
      FoldCompletes(st, txs, k - 1, t);
      TxnCompletes(Fold(st, txs[..k - 1]), txs[k - 1], t);
      assert txs[..k][..k - 1] == txs[..k - 1];
    }
  }

  /** The one completion transaction a call can issue. */
  lemma CallCompletes(s: Sys, e: Event, n: nat)
    requires n < |Txns(s, e)| && Txns(s, e)[n].CompleteTask?
    ensures e.Succeed? && Txns(s, e)[n].task == e.task
  {
  }

  /** A call, cut short or not, completes at most the task whose success it reports. */
  lemma ActCompletes(s: Sys, a: Action, t: string)
    requires Safe(s) && CanAct(s, a)
    ensures IsComplete(s.st.tasks, t) ==> IsComplete(Act(s, a).st.tasks, t)
    ensures IsComplete(Act(s, a).st.tasks, t) && !IsComplete(s.st.tasks, t) ==> a.event.Succeed? && a.event.task == t
  {
    hide Safe, Permitted;
    var txs := Txns(s, a.event);
    var k := if a.Call? then |txs| else a.done;
    StepPermitted(s, a.event);
    FoldCompletes(s.st, txs, k, t);
    if n :| 0 <= n < k && txs[n].CompleteTask? && txs[n].task == t {
      CallCompletes(s, a.event, n);
    }
    if a.Call? {
      assert txs[..k] == txs;
    } else {
      RecoveryCompletes(Leftover(s, a.event, a.done), a.workflows, a.queued, a.running, a.ids, t);
    }
  }

  lemma RecoveryCompletes(st: Store, ws: seq<string>, queued: seq<string>, running: seq<string>,
                          ids: map<string, string>, t: string)
    requires RestartOrders(st, ws, queued, running)
    ensures IsComplete(Step(Sys(st, EMPTY_COORD), Restart(ws, queued, running, ids)).st.tasks, t) <==>
            IsComplete(st.tasks, t)
  {
    RequeueForm(st, running, ids);
  }

  /** COMPLETE is final and was entered at some step. */
  lemma {:induction false} CompletedBefore(ss: seq<Sys>, acts: seq<Action>, j: nat, t: string)
    requires IsCrashRun(ss, acts) && j < |ss| && IsComplete(ss[j].st.tasks, t)
    ensures exists i :: 0 <= i < j && CompletesAt(ss, i, t)
    ensures forall k | j <= k < |ss| :: IsComplete(ss[k].st.tasks, t)
    decreases j
  {
    hide Safe, CanAct, Act;
    if j > 0 && IsComplete(ss[j - 1].st.tasks, t) {
      CompletedBefore(ss, acts, j - 1, t);
    } else {
      assert j > 0 && CompletesAt(ss, j - 1, t);
      CompleteStays(ss, acts, j, t);
    }
  }

  lemma CompleteStays(ss: seq<Sys>, acts: seq<Action>, j: nat, t: string)
    requires IsCrashRun(ss, acts) && j < |ss| && IsComplete(ss[j].st.tasks, t)
    ensures forall k | j <= k < |ss| :: IsComplete(ss[k].st.tasks, t)
  {
    hide Safe, CanAct, Act;
    for k := j to |ss| - 1
      invariant forall m | j <= m <= k :: IsComplete(ss[m].st.tasks, t)
    {
      CrashRunSafe(ss, acts, k);
      assert CanAct(ss[k], acts[k]);
      ActCompletes(ss[k], acts[k], t);
    }
  }

  /** The completions of a run extend the dependency order: each happens once, is
      reported for that very task, and comes after the completions of all the
      task's dependencies. */
  lemma CompletionsFollowDependencies(ss: seq<Sys>, acts: seq<Action>, j: nat, t: string, d: string)
    requires IsCrashRun(ss, acts) && CompletesAt(ss, j, t)
    ensures acts[j].event.Succeed? && acts[j].event.task == t
    ensures forall k | CompletesAt(ss, k, t) :: k == j
    ensures Declares(ss[j + 1].st.specs, t, d) ==> exists i :: 0 <= i < j && CompletesAt(ss, i, d)
  {
    hide Safe, CanAct, Act;
    CrashRunSafe(ss, acts, j);
    assert CanAct(ss[j], acts[j]);
    ActCompletes(ss[j], acts[j], t);
    CompleteStays(ss, acts, j + 1, t);
    forall k | CompletesAt(ss, k, t) ensures k == j {
      if k < j { CompleteStays(ss, acts, k + 1, t); }
    }
    if Declares(ss[j + 1].st.specs, t, d) {
      DependencySafety(ss, acts, j + 1, t, d);
      NoSelfDependency(ss, acts, j + 1, t, d);
      if !IsComplete(ss[j].st.tasks, d) {
        ActCompletes(ss[j], acts[j], d);
      }
      CompletedBefore(ss, acts, j, d);
    }
  }

  lemma NoSelfDependency(ss: seq<Sys>, acts: seq<Action>, i: nat, t: string, d: string)
    requires IsCrashRun(ss, acts) && i < |ss| && t in ss[i].st.tasks && Declares(ss[i].st.specs, t, d)
    ensures d != t
  {
    hide StoreSafe, CoordSafe;
    CrashRunSafe(ss, acts, i);
    SafeSpecs(ss[i].st);
    SafeLinks(ss[i].st);
    DeclaredIsEdge(ss[i].st, t, d);
    EdgeReaches(DepGraph(ss[i].st), t, d);
  }
}
