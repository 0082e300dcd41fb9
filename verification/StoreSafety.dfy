/** What every transaction keeps: the records mirror the submitted graphs, a
    released task has only COMPLETE dependencies, and a PENDING task's stored
    in-degree counts exactly its unfinished dependency entries. */
module StoreSafety {
  import opened Types
  import opened Graphs
  import opened Dags
  import opened Stores
  import opened Systems

  /** The dependency graph of all stored tasks, read from the stored specifications. */
  ghost function DepGraph(st: Store): Graph {
    map t | t in st.tasks ::
      if st.tasks[t].workflowId in st.specs then DepsOf(st.specs[st.tasks[t].workflowId].tasks, t) else []
  }

  ghost predicate SpecsOk(specs: map<string, WorkflowSpec>) {
    && (forall w | w in specs :: specs[w].workflowId == w && ValidKey(w) && IsDag(specs[w].tasks))
    && (forall v, w | v in specs && w in specs && v != w :: Ids(specs[v].tasks) !! Ids(specs[w].tasks))
  }

  /** Every record belongs to a stored workflow, all of whose tasks have records. */
  ghost predicate Registered(st: Store) {
    forall t | t in st.tasks ::
      && ValidKey(t) && st.tasks[t].workflowId in st.specs
      && t in Ids(st.specs[st.tasks[t].workflowId].tasks)
      && forall u | u in Ids(st.specs[st.tasks[t].workflowId].tasks) ::
           u in st.tasks && st.tasks[u].workflowId == st.tasks[t].workflowId
  }

  predicate IsActive(st: Store, w: string) {
    w in st.workflows && st.workflows[w].WorkflowRunning?
  }

  /** Every active workflow is stored. */
  ghost predicate ActiveStored(st: Store) {
    forall w | IsActive(st, w) :: w in st.specs
  }

  ghost predicate Linked(g: Graph, T: Tasks) {
    && g.Keys == T.Keys
    && Closed(g) && Acyclic(g)
    && Transposes(g, DownGraph(T))
    && forall t, d | t in g && d in g[t] :: T[d].workflowId == T[t].workflowId
  }

  predicate IsComplete(T: Tasks, t: string) {
    t in T && T[t].state.Complete?
  }

  ghost predicate DepsComplete(g: Graph, T: Tasks, t: string) {
    t in g ==> forall d | d in g[t] :: IsComplete(T, d)
  }

  /** Dependency safety. */
  ghost predicate DepSafe(g: Graph, T: Tasks) {
    forall t | t in T && T[t].state.Released() :: DepsComplete(g, T, t)
  }

  /** The number of entries of `ds`, with multiplicity, that are not COMPLETE. */
  function Unfinished(ds: seq<string>, T: Tasks): nat {
    if ds == [] then 0
    else Unfinished(ds[..|ds| - 1], T) + if IsComplete(T, ds[|ds| - 1]) then 0 else 1
  }

  /** In-degree conservation. */
  ghost predicate InDegreeExact(g: Graph, T: Tasks) {
    forall t | t in T && T[t].state.Pending? :: t in g && T[t].inDegree == Unfinished(g[t], T)
  }

  ghost predicate StoreSafe(st: Store) {
    && SpecsOk(st.specs)
    && Registered(st) && ActiveStored(st)
    && Linked(DepGraph(st), st.tasks)
    && DepSafe(DepGraph(st), st.tasks)
    && InDegreeExact(DepGraph(st), st.tasks)
  }

  // ---- Counting unfinished dependencies --------------------------------------

  lemma {:induction false} UnfinishedSame(ds: seq<string>, T: Tasks, T': Tasks)
    requires forall d | d in ds :: IsComplete(T, d) <==> IsComplete(T', d)
    ensures Unfinished(ds, T) == Unfinished(ds, T')
  {
    if ds != [] {
      assert ds == ds[..|ds| - 1] + [ds[|ds| - 1]];
      UnfinishedSame(ds[..|ds| - 1], T, T');
    }
  }

  /** Completing `t` accounts for every occurrence of `t`. */
  lemma {:induction false} UnfinishedAfter(ds: seq<string>, T: Tasks, T': Tasks, t: string)
    requires !IsComplete(T, t)
    requires forall d | d in ds :: IsComplete(T', d) <==> IsComplete(T, d) || d == t
    ensures Unfinished(ds, T) == Unfinished(ds, T') + Times(ds, t)
  {
    if ds != [] {
      assert ds == ds[..|ds| - 1] + [ds[|ds| - 1]];
      UnfinishedAfter(ds[..|ds| - 1], T, T', t);
      TimesLast(ds, t);
    }
  }

  lemma {:induction false} UnfinishedZero(ds: seq<string>, T: Tasks)
    ensures Unfinished(ds, T) == 0 <==> forall d | d in ds :: IsComplete(T, d)
  {
    if ds != [] {
      assert ds == ds[..|ds| - 1] + [ds[|ds| - 1]];
      UnfinishedZero(ds[..|ds| - 1], T);
    }
  }

  lemma {:induction false} UnfinishedAll(ds: seq<string>, T: Tasks)
    requires forall d | d in ds :: !IsComplete(T, d)
    ensures Unfinished(ds, T) == |ds|
  {
    if ds != [] {
      assert ds == ds[..|ds| - 1] + [ds[|ds| - 1]];
      UnfinishedAll(ds[..|ds| - 1], T);
    }
  }

  // ---- Transactions -----------------------------------------------------------

  /** Records keep their workflow and downstream list. */
  ghost predicate SameShape(T: Tasks, T': Tasks) {
    && T'.Keys == T.Keys
    && forall t | t in T :: T'[t].workflowId == T[t].workflowId && T'[t].downstream == T[t].downstream
  }

  /** The task's record would lose its COMPLETE state. */
  predicate Overwrites(st: Store, tx: Txn) {
    match tx
    case SetState(t, _) => IsComplete(st.tasks, t)
    case AssignTask(t, _) => IsComplete(st.tasks, t)
    case FailTask(t, _, _) => IsComplete(st.tasks, t)
    case RequeueTask(t, _) => IsComplete(st.tasks, t)
    case _ => false
  }

  /** The conditions under which a transaction keeps the store safe. */
  ghost predicate Permitted(st: Store, tx: Txn) {
    var g := DepGraph(st);
    && !Overwrites(st, tx)
    && match tx
       case StoreSpec(spec) => ValidKey(spec.workflowId) ==> Admitted(spec) && Fresh(st, spec)
       case SetWorkflow(w, v) => v.WorkflowRunning? ==> w in st.specs
       case InitTasks(w, ts, inDegree, down) => inDegree == InDegrees(ts) && InitOk(st, w, ts, down)
       case SetState(t, state) => state.Skipped? || (state.Queued? && DepsComplete(g, st.tasks, t))
       case AssignTask(t, _) => DepsComplete(g, st.tasks, t)
       case CompleteTask(t, _, _) => DepsComplete(g, st.tasks, t)
       case FailTask(t, _, _) => DepsComplete(g, st.tasks, t)
       case RequeueTask(t, _) => DepsComplete(g, st.tasks, t)
       case _ => true
  }

  /** Nothing completes, no record becomes PENDING, and whatever is released has its dependencies. */
  ghost predicate Quiet(g: Graph, T: Tasks, T': Tasks) {
    && SameShape(T, T')
    && (forall t | t in T :: T'[t].state.Complete? <==> T[t].state.Complete?)
    && (forall t | t in T && T'[t].state.Pending? :: T[t].state.Pending? && T'[t].inDegree == T[t].inDegree)
    && (forall t | t in T && T'[t].state.Released() :: T[t].state.Released() || DepsComplete(g, T, t))
  }

  lemma QuietKeepsSafe(g: Graph, T: Tasks, T': Tasks)
    requires Linked(g, T) && DepSafe(g, T) && InDegreeExact(g, T) && Quiet(g, T, T')
    ensures DepSafe(g, T') && InDegreeExact(g, T')
  {
    forall t | t in T' && T'[t].state.Released() ensures DepsComplete(g, T', t) {
      assert DepsComplete(g, T, t);
    }
    forall t | t in T' && T'[t].state.Pending? ensures T'[t].inDegree == Unfinished(g[t], T') {
      UnfinishedSame(g[t], T, T');
    }
  }

  /** With the shape kept, the stored graphs are the same graphs. */
  lemma ShapeKeepsGraph(st: Store, st': Store)
    requires st'.specs == st.specs && SameShape(st.tasks, st'.tasks)
    ensures DepGraph(st') == DepGraph(st) && DownGraph(st'.tasks) == DownGraph(st.tasks)
    ensures Registered(st) ==> Registered(st')
    ensures Linked(DepGraph(st), st.tasks) ==> Linked(DepGraph(st'), st'.tasks)
  {
    assert DepGraph(st') == DepGraph(st);
    assert DownGraph(st'.tasks) == DownGraph(st.tasks);
  }

  lemma TxnShape(st: Store, tx: Txn)
    requires !tx.StoreSpec? && !tx.InitTasks?
    ensures SameShape(st.tasks, Apply(st, tx).tasks) && Apply(st, tx).specs == st.specs
  {
    if tx.CompleteTask? {
      hide Completed;
      CompletedShape(st.tasks, tx.task, tx.execution, tx.output);
    }
  }

  lemma CompletedShape(T: Tasks, t: string, x: string, output: string)
    ensures SameShape(T, Completed(T, t, x, output).tasks)
  {
    if t in T {
      ReleaseAllRecords(T[t := T[t].(state := Complete, output := output)], T[t].downstream);
    }
  }

  lemma QuietUpdate(g: Graph, T: Tasks, t: string, r: TaskRecord)
    requires t in T && r.workflowId == T[t].workflowId && r.downstream == T[t].downstream
    requires !T[t].state.Complete? && !r.state.Complete? && !r.state.Pending?
    requires r.state.Released() ==> DepsComplete(g, T, t)
    ensures Quiet(g, T, T[t := r])
  {
  }

  lemma QuietTxn(st: Store, tx: Txn)
    requires Permitted(st, tx)
    requires tx.SetState? || tx.AssignTask? || tx.FailTask? || tx.RequeueTask?
    ensures Quiet(DepGraph(st), st.tasks, ApplyTasks(st.tasks, tx))
  {
    if tx.task in st.tasks {
      QuietUpdate(DepGraph(st), st.tasks, tx.task, ApplyTasks(st.tasks, tx)[tx.task]);
    }
  }

  // ---- Completion ---------------------------------------------------------------

  /** The records after a first completion of `t`, one by one. */
  lemma CompletedRecords(g: Graph, T: Tasks, t: string, x: string, output: string)
    requires Linked(g, T) && t in T && T[t].executionId == x && !T[t].state.Complete?
    ensures var T' := Completed(T, t, x, output).tasks;
            && T'.Keys == T.Keys
            && T'[t] == T[t].(state := Complete, output := output)
            && forall d | d in T && d != t :: T'[d] == AfterReleases(T[d], Times(g[d], t))
  {
    var done := T[t := T[t].(state := Complete, output := output)];
    var ds := T[t].downstream;
    ReleaseAllRecords(done, ds);
    forall d | d in T && d != t ensures Times(ds, d) == Times(g[d], t) {
      assert Times(DownGraph(T)[t], d) == Times(g[d], t);
    }
  }

  /** The in-degree of a PENDING dependent covers every entry that names `t`. */
  lemma InDegreeCovers(g: Graph, T: Tasks, t: string, d: string)
    requires InDegreeExact(g, T) && d in T && T[d].state.Pending? && !IsComplete(T, t)
    ensures Times(g[d], t) <= T[d].inDegree
  {
    CoverCount(g[d], T, t);
  }

  lemma {:induction false} CoverCount(ds: seq<string>, T: Tasks, t: string)
    requires !IsComplete(T, t)
    ensures Times(ds, t) <= Unfinished(ds, T)
  {
    if ds != [] {
      CoverCount(ds[..|ds| - 1], T, t);
      TimesLast(ds, t);
    }
  }

  lemma CompletionKeepsSafe(g: Graph, T: Tasks, t: string, x: string, output: string)
    requires Linked(g, T) && DepSafe(g, T) && InDegreeExact(g, T)
    requires t in T && T[t].executionId == x && !IsComplete(T, t) && DepsComplete(g, T, t)
    ensures var T' := Completed(T, t, x, output).tasks;
            SameShape(T, T') && DepSafe(g, T') && InDegreeExact(g, T')
  {
    hide Completed, Linked, DepSafe, InDegreeExact, DepsComplete;
    CompletedRecords(g, T, t, x, output);
    ReleasesKeepSafe(g, T, Completed(T, t, x, output).tasks, t, output);
  }

  /** The same, from what the completion does to each record. */
  lemma ReleasesKeepSafe(g: Graph, T: Tasks, T': Tasks, t: string, output: string)
    requires Linked(g, T) && DepSafe(g, T) && InDegreeExact(g, T)
    requires t in T && !IsComplete(T, t) && DepsComplete(g, T, t)
    requires T'.Keys == T.Keys && T'[t] == T[t].(state := Complete, output := output)
    requires forall d | d in T && d != t :: T'[d] == AfterReleases(T[d], Times(g[d], t))
    ensures SameShape(T, T') && DepSafe(g, T') && InDegreeExact(g, T')
  {
    hide Linked, DepSafe, InDegreeExact, DepsComplete, Times, IsComplete, AfterReleases, SameShape;
    LinkedKeys(g, T);
    ReleasesShape(g, T, T', t, output);
    ReleasesKeepCounts(g, T, T', t);
    ReleasesKeepDeps(g, T, T', t);
  }

  lemma LinkedKeys(g: Graph, T: Tasks)
    requires Linked(g, T)
    ensures g.Keys == T.Keys
  {
  }

  lemma ReleasesShape(g: Graph, T: Tasks, T': Tasks, t: string, output: string)
    requires g.Keys == T.Keys == T'.Keys && t in T && T'[t] == T[t].(state := Complete, output := output)
    requires forall d | d in T && d != t :: T'[d] == AfterReleases(T[d], Times(g[d], t))
    ensures SameShape(T, T') && IsComplete(T', t) && forall d :: IsComplete(T', d) <==> IsComplete(T, d) || d == t
  {
    hide Times;
  }

  lemma ReleasesKeepDeps(g: Graph, T: Tasks, T': Tasks, t: string)
    requires Linked(g, T) && DepSafe(g, T) && InDegreeExact(g, T) && T'.Keys == T.Keys
    requires t in T && !IsComplete(T, t) && DepsComplete(g, T, t)
    requires forall d :: IsComplete(T', d) <==> IsComplete(T, d) || d == t
    requires forall d | d in T && d != t :: T'[d] == AfterReleases(T[d], Times(g[d], t))
    ensures DepSafe(g, T')
  {
    assert g.Keys == T.Keys;
    forall d | d in T' && T'[d].state.Released() ensures DepsComplete(g, T', d) {
      hide Linked, DepSafe, InDegreeExact, DepsComplete, Times, IsComplete;
      CompletionReleases(g, T, T', t, d);
    }
  }

  lemma ReleasesKeepCounts(g: Graph, T: Tasks, T': Tasks, t: string)
    requires g.Keys == T.Keys == T'.Keys && InDegreeExact(g, T)
    requires t in T && !IsComplete(T, t) && IsComplete(T', t)
    requires forall d :: IsComplete(T', d) <==> IsComplete(T, d) || d == t
    requires forall d | d in T && d != t :: T'[d] == AfterReleases(T[d], Times(g[d], t))
    ensures InDegreeExact(g, T')
  {
    forall d | d in T' && T'[d].state.Pending? ensures T'[d].inDegree == Unfinished(g[d], T') {
      UnfinishedAfter(g[d], T, T', t);
    }
  }

  /** A dependent queued by the completion has nothing left to wait for. */
  lemma CompletionReleases(g: Graph, T: Tasks, T': Tasks, t: string, d: string)
    requires Linked(g, T) && DepSafe(g, T) && InDegreeExact(g, T)
    requires t in T && !IsComplete(T, t) && DepsComplete(g, T, t) && d in T
    requires forall u :: IsComplete(T', u) <==> IsComplete(T, u) || u == t
    requires d != t ==> AfterReleases(T[d], Times(g[d], t)).state.Released()
    ensures DepsComplete(g, T', d)
  {
    if d != t && T[d].state.Pending? {
      UnfinishedAfter(g[d], T, T', t);
      InDegreeCovers(g, T, t, d);
      UnfinishedZero(g[d], T');
    } else if d != t {
      assert DepsComplete(g, T, d);
    }
  }

  // ---- Submission -------------------------------------------------------------------

  /** Storing a fresh specification changes no stored graph. */
  lemma StoreSpecKeeps(st: Store, spec: WorkflowSpec)
    requires StoreSafe(st) && Admitted(spec) && Fresh(st, spec)
    ensures StoreSafe(Apply(st, StoreSpec(spec)))
  {
    var st' := Apply(st, StoreSpec(spec));
    StoreSpecGraph(st, spec);
    FreshSpecsOk(st.specs, spec);
  }

  lemma StoreSpecGraph(st: Store, spec: WorkflowSpec)
    requires Registered(st) && spec.workflowId !in st.specs
    ensures DepGraph(Apply(st, StoreSpec(spec))) == DepGraph(st)
    ensures Registered(Apply(st, StoreSpec(spec)))
  {
    var st' := Apply(st, StoreSpec(spec));
    forall t | t in st.tasks ensures st'.specs[st.tasks[t].workflowId] == st.specs[st.tasks[t].workflowId] {
    }
  }

  lemma FreshSpecsOk(specs: map<string, WorkflowSpec>, spec: WorkflowSpec)
    requires SpecsOk(specs) && Admitted(spec) && spec.workflowId !in specs
    requires forall w | w in specs :: Ids(specs[w].tasks) !! Ids(spec.tasks)
    ensures SpecsOk(specs[spec.workflowId := spec])
  {
  }

  /** The graph after initialisation is the old one beside the workflow's own. */
  lemma InitGraph(st: Store, w: string, T': Tasks)
    requires w in st.specs && T'.Keys == st.tasks.Keys + Ids(st.specs[w].tasks)
    requires forall t | t in Ids(st.specs[w].tasks) :: t !in st.tasks && T'[t].workflowId == w
    requires forall t | t in st.tasks :: T'[t] == st.tasks[t]
    ensures DepGraph(st.(tasks := T')) == DepGraph(st) + SpecGraph(st.specs[w].tasks)
  {
    var ts := st.specs[w].tasks;
    var g, h, g' := DepGraph(st), SpecGraph(ts), DepGraph(st.(tasks := T'));
    assert g'.Keys == g.Keys + h.Keys;
    forall t | t in g' ensures g'[t] == (g + h)[t] {
    }
  }

  lemma TransposesUnion(g: Graph, h: Graph, g': Graph, h': Graph)
    requires Transposes(g, h) && Transposes(g', h') && Closed(g) && Closed(g') && g.Keys !! g'.Keys
    ensures Transposes(g + g', h + h')
  {
    forall a, b | a in g + g' && b in g + g' ensures Times((h + h')[a], b) == Times((g + g')[b], a) {
      if a in g && b in g {
        assert Times(h[a], b) == Times(g[b], a);
      } else if a in g' && b in g' {
        assert Times(h'[a], b) == Times(g'[b], a);
      } else {
        TimesMember((h + h')[a], b);
        TimesMember((g + g')[b], a);
      }
    }
  }

  lemma LinkedUnion(g: Graph, T: Tasks, h: Graph, down: Graph, T': Tasks, w: string)
    requires Linked(g, T) && Closed(h) && Acyclic(h) && Transposes(h, down) && g.Keys !! h.Keys
    requires T'.Keys == T.Keys + h.Keys && forall t | t in T :: T'[t] == T[t]
    requires forall t | t in h :: T'[t].workflowId == w && T'[t].downstream == down[t]
    ensures Linked(g + h, T')
  {
    DisjointUnionAcyclic(g, h);
    TransposesUnion(g, DownGraph(T), h, down);
    assert DownGraph(T') == DownGraph(T) + down;
    forall t, d | t in g + h && d in (g + h)[t] ensures T'[d].workflowId == T'[t].workflowId {
      if t in h { assert d in h; } else { assert t in g && d in g; }
    }
  }

  lemma InitRegistered(st: Store, w: string, T': Tasks)
    requires Registered(st) && w in st.specs && ValidIds(st.specs[w].tasks) &&
             T'.Keys == st.tasks.Keys + Ids(st.specs[w].tasks)
    requires forall t | t in Ids(st.specs[w].tasks) :: t !in st.tasks && T'[t].workflowId == w
    requires forall t | t in st.tasks :: T'[t] == st.tasks[t]
    ensures Registered(st.(tasks := T'))
  {
  }

  /** The new records of an initialised workflow, field by field. */
  lemma InitFacts(T: Tasks, w: string, ts: seq<TaskSpec>, down: Graph)
    requires Transposes(SpecGraph(ts), down) && forall t | t in Ids(ts) :: t !in T
    ensures var T' := Initialized(T, w, ts, InDegrees(ts), down);
            && T'.Keys == T.Keys + Ids(ts)
            && (forall t | t in T :: T'[t] == T[t])
            && (forall t | t in Ids(ts) ::
                  && T'[t].workflowId == w && T'[t].state.Pending?
                  && T'[t].inDegree == |SpecGraph(ts)[t]| && T'[t].downstream == down[t])
  {
    InitializedEffect(T, w, ts, InDegrees(ts), down);
  }

  ghost predicate InitOk(st: Store, w: string, ts: seq<TaskSpec>, down: Graph) {
    && w in st.specs && ts == st.specs[w].tasks && IsDag(ts)
    && Transposes(SpecGraph(ts), down)
    && forall t | t in Ids(ts) :: t !in st.tasks
  }

  lemma InitLinked(st: Store, w: string, ts: seq<TaskSpec>, down: Graph)
    requires InitOk(st, w, ts, down) && Linked(DepGraph(st), st.tasks)
    ensures var T' := Initialized(st.tasks, w, ts, InDegrees(ts), down);
            Linked(DepGraph(st.(tasks := T')), T')
  {
    var T' := Initialized(st.tasks, w, ts, InDegrees(ts), down);
    InitFacts(st.tasks, w, ts, down);
    InitGraph(st, w, T');
    SpecGraphClosed(ts);
    LinkedUnion(DepGraph(st), st.tasks, SpecGraph(ts), down, T', w);
  }

  lemma InitCounted(st: Store, w: string, ts: seq<TaskSpec>, down: Graph)
    requires InitOk(st, w, ts, down) && Closed(DepGraph(st))
    requires DepSafe(DepGraph(st), st.tasks) && InDegreeExact(DepGraph(st), st.tasks)
    ensures var T' := Initialized(st.tasks, w, ts, InDegrees(ts), down);
            var g' := DepGraph(st.(tasks := T'));
            DepSafe(g', T') && InDegreeExact(g', T')
  {
    var T' := Initialized(st.tasks, w, ts, InDegrees(ts), down);
    InitFacts(st.tasks, w, ts, down);
    InitGraph(st, w, T');
    SpecGraphClosed(ts);
    InitCounts(DepGraph(st), st.tasks, SpecGraph(ts), T');
  }

  lemma InitKeeps(st: Store, w: string, ts: seq<TaskSpec>, down: Graph)
    requires StoreSafe(st) && InitOk(st, w, ts, down) && ValidIds(ts)
    ensures StoreSafe(st.(tasks := Initialized(st.tasks, w, ts, InDegrees(ts), down)))
  {
    InitLinked(st, w, ts, down);
    InitCounted(st, w, ts, down);
    InitFacts(st.tasks, w, ts, down);
    InitRegistered(st, w, Initialized(st.tasks, w, ts, InDegrees(ts), down));
  }

  lemma InitCounts(g: Graph, T: Tasks, h: Graph, T': Tasks)
    requires Closed(g) && Closed(h) && g.Keys == T.Keys && g.Keys !! h.Keys
    requires DepSafe(g, T) && InDegreeExact(g, T)
    requires T'.Keys == T.Keys + h.Keys && forall t | t in T :: T'[t] == T[t]
    requires forall t | t in h :: T'[t].state.Pending? && T'[t].inDegree == |h[t]|
    ensures DepSafe(g + h, T') && InDegreeExact(g + h, T')
  {
    forall t | t in T' && T'[t].state.Pending? ensures T'[t].inDegree == Unfinished((g + h)[t], T') {
      if t in h {
        assert forall d | d in h[t] :: d in h && !IsComplete(T', d);
        UnfinishedAll(h[t], T');
      } else {
        assert forall d | d in g[t] :: d in g;
        UnfinishedSame(g[t], T, T');
      }
    }
    forall t | t in T' && T'[t].state.Released() ensures DepsComplete(g + h, T', t) {
      assert t in g && DepsComplete(g, T, t);
    }
  }

  // ---- The main result ------------------------------------------------------------

  lemma QuietStep(st: Store, st': Store)
    requires StoreSafe(st) && st'.specs == st.specs && Quiet(DepGraph(st), st.tasks, st'.tasks) && ActiveStored(st')
    ensures StoreSafe(st')
  {
    QuietKeepsSafe(DepGraph(st), st.tasks, st'.tasks);
    ShapeKeepsGraph(st, st');
  }

  lemma CompletionStep(st: Store, t: string, x: string, output: string)
    requires StoreSafe(st) && DepsComplete(DepGraph(st), st.tasks, t)
    ensures StoreSafe(Apply(st, CompleteTask(t, x, output)))
  {
    var st' := Apply(st, CompleteTask(t, x, output));
    if t in st.tasks && st.tasks[t].executionId == x && !st.tasks[t].state.Complete? {
      CompletionKeepsSafe(DepGraph(st), st.tasks, t, x, output);
    }
    ShapeKeepsGraph(st, st');
  }

  lemma RecordStep(st: Store, tx: Txn)
    requires StoreSafe(st) && Permitted(st, tx)
    requires tx.SetState? || tx.AssignTask? || tx.FailTask? || tx.RequeueTask?
    ensures StoreSafe(Apply(st, tx))
  {
    QuietTxn(st, tx);
    QuietStep(st, st.(tasks := ApplyTasks(st.tasks, tx)));
  }

  lemma QuietOther(g: Graph, T: Tasks, tx: Txn)
    requires tx.CancelTasks? || tx.SetWorkflow?
    ensures Quiet(g, T, ApplyTasks(T, tx))
  {
  }

  lemma OtherStep(st: Store, tx: Txn)
    requires StoreSafe(st) && Permitted(st, tx) && (tx.CancelTasks? || tx.SetWorkflow?)
    ensures StoreSafe(Apply(st, tx))
  {
    QuietOther(DepGraph(st), st.tasks, tx);
    QuietStep(st, Apply(st, tx));
  }

  /** Every permitted transaction keeps the store safe. */
  lemma TxnKeepsSafe(st: Store, tx: Txn)
    requires StoreSafe(st) && Permitted(st, tx)
    ensures StoreSafe(Apply(st, tx))
  {
    if tx.StoreSpec? {
      if ValidKey(tx.spec.workflowId) { StoreSpecKeeps(st, tx.spec); }
    } else if tx.InitTasks? {
      if ValidIds(tx.specs) { InitKeeps(st, tx.owner, tx.specs, tx.down); }
    } else if tx.CompleteTask? {
      CompletionStep(st, tx.task, tx.execution, tx.output);
    } else if tx.CancelTasks? || tx.SetWorkflow? {
      OtherStep(st, tx);
    } else {
      RecordStep(st, tx);
    }
  }
}
