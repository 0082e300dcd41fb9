/** Safety of the whole scheduler: queue, running set and store agree in every
    state of every run, including runs in which the coordinator crashes between
    two transactions of a call. */
module Safety {
  import opened Types
  import opened Seqs
  import opened Graphs
  import opened Dags
  import opened Stores
  import opened Systems
  import opened StoreSafety
  import opened StepForms
  import opened Permits

  /** The ready queue holds QUEUED tasks, each once. */
  ghost predicate QueueOk(T: Tasks, queue: seq<string>) {
    NoDup(queue) && forall t | t in queue :: t in T && T[t].state.Queued?
  }

  /** A handed-out task carries its current execution id and had its dependencies. */
  ghost predicate HeldOk(g: Graph, T: Tasks, co: Coord) {
    && co.running.Keys == co.executions.Keys
    && forall t | t in co.executions ::
         && t in T && T[t].executionId == co.executions[t]
         && (T[t].state.Running? || T[t].state.Skipped?)
         && DepsComplete(g, T, t) && t in co.specCache
  }

  ghost predicate RunningHeld(T: Tasks, co: Coord) {
    forall t | t in T && T[t].state.Running? :: t in co.executions
  }

  /** A task cancelled while RUNNING stays handed out only in a finished workflow. */
  ghost predicate CancelledHeld(st: Store, co: Coord) {
    forall t | t in co.executions && t in st.tasks && st.tasks[t].state.Skipped? ::
      !IsActive(st, st.tasks[t].workflowId)
  }

  ghost predicate CacheOk(specs: map<string, WorkflowSpec>, co: Coord) {
    && co.specCache.Keys == co.workflowOf.Keys
    && (forall t | t in co.specCache ::
          && co.workflowOf[t] in specs && co.workflowOf[t] in co.policy
          && co.specCache[t] in specs[co.workflowOf[t]].tasks && co.specCache[t].taskId == t)
    && (forall w | w in co.policy :: w in specs && co.policy[w] == specs[w].failurePolicy)
  }

  ghost predicate CoordSafe(g: Graph, st: Store, co: Coord) {
    && QueueOk(st.tasks, co.queue)
    && HeldOk(g, st.tasks, co)
    && RunningHeld(st.tasks, co)
    && CancelledHeld(st, co)
    && CacheOk(st.specs, co)
  }

  ghost predicate Safe(s: Sys) {
    StoreSafe(s.st) && CoordSafe(DepGraph(s.st), s.st, s.co)
  }

  /** The cached owner of a recorded task is the workflow in its record. */
  lemma OwnerIsRecorded(st: Store, co: Coord, t: string)
    requires SpecsOk(st.specs) && Registered(st) && CacheOk(st.specs, co) && t in co.specCache && t in st.tasks
    ensures Owner(co, t) == st.tasks[t].workflowId
  {
    var v, w := co.workflowOf[t], st.tasks[t].workflowId;
    var i :| 0 <= i < |st.specs[v].tasks| && st.specs[v].tasks[i] == co.specCache[t];
    assert t in Ids(st.specs[v].tasks) && t in Ids(st.specs[w].tasks);
  }

  // ---- Frames ---------------------------------------------------------------------

  /** Held tasks survive a step that keeps their records running or cancelled. */
  lemma HeldFrame(g: Graph, T: Tasks, co: Coord, g': Graph, T': Tasks, co': Coord)
    requires HeldOk(g, T, co) && co'.running.Keys == co'.executions.Keys
    requires forall t | t in co'.executions ::
               && t in co.executions && co'.executions[t] == co.executions[t] && t in co'.specCache
               && t in T' && T'[t].executionId == T[t].executionId && (T'[t].state.Running? || T'[t].state.Skipped?)
               && (t in g' ==> t in g && g'[t] == g[t])
    requires forall d | IsComplete(T, d) :: IsComplete(T', d)
    ensures HeldOk(g', T', co')
  {
    forall t | t in co'.executions ensures DepsComplete(g', T', t) {
      assert DepsComplete(g, T, t);
    }
  }

  lemma StepStoreSafe(s: Sys, e: Event)
    requires StoreSafe(s.st) && AllPermitted(s.st, Txns(s, e))
    ensures StoreSafe(Step(s, e).st)
  {
    PrefixSafe(s.st, Txns(s, e), |Txns(s, e)|);
    assert Txns(s, e)[..|Txns(s, e)|] == Txns(s, e);
  }

  /** Safety after a step that keeps the shape of the records. */
  lemma SafeAfter(st: Store, s': Sys)
    requires StoreSafe(s'.st) && s'.st.specs == st.specs && SameShape(st.tasks, s'.st.tasks)
    requires CoordSafe(DepGraph(st), s'.st, s'.co)
    ensures Safe(s')
  {
    ShapeKeepsGraph(st, s'.st);
  }

  lemma SafeStore(s: Sys)
    requires Safe(s)
    ensures StoreSafe(s.st)
  {
  }

  lemma SafeLinks(st: Store)
    requires StoreSafe(st)
    ensures Linked(DepGraph(st), st.tasks) && DepSafe(DepGraph(st), st.tasks)
  {
  }

  lemma SafeSpecs(st: Store)
    requires StoreSafe(st)
    ensures SpecsOk(st.specs) && Registered(st) && ActiveStored(st)
  {
  }

  lemma ActiveIsStored(st: Store, w: string)
    requires StoreSafe(st) && IsActive(st, w)
    ensures w in st.specs && ValidKey(w)
  {
  }

  lemma HeldFacts(s: Sys, t: string)
    requires Safe(s) && t in s.co.executions
    ensures t in s.st.tasks && s.st.tasks[t].executionId == s.co.executions[t] && t in s.co.specCache
    ensures s.st.tasks[t].state.Running? || s.st.tasks[t].state.Skipped?
    ensures DepsComplete(DepGraph(s.st), s.st.tasks, t)
    ensures Owner(s.co, t) == s.st.tasks[t].workflowId && Owner(s.co, t) in s.st.specs && ValidKey(Owner(s.co, t))
  {
    OwnerIsRecorded(s.st, s.co, t);
  }

  lemma SameHeldKeys(s: Sys)
    requires Safe(s)
    ensures s.co.running.Keys == s.co.executions.Keys
  {
  }

  lemma QueuedFacts(s: Sys, t: string)
    requires Safe(s) && t in s.co.queue
    ensures t in s.st.tasks && s.st.tasks[t].state.Queued? && DepsComplete(DepGraph(s.st), s.st.tasks, t)
  {
  }

  // ---- Reported success -----------------------------------------------------------

  /** What a first completion of `t` does to each record and which tasks it reports. */
  ghost predicate CompletionEffect(T: Tasks, T': Tasks, ready: seq<string>, t: string) {
    && T'.Keys == T.Keys && t in T && T'[t].state.Complete?
    && (forall d | d in T && d != t && !T[d].state.Pending? :: T'[d] == T[d])
    && (forall d | d in T && d != t && T[d].state.Pending? ::
          if d in ready then T'[d].state.Queued? else T'[d].state.Pending?)
    && NoDup(ready) && (forall d | d in ready :: d in T && d != t && T[d].state.Pending?)
  }

  /** A PENDING dependent is reported exactly when the completion queues it. */
  lemma ReadyIsQueued(g: Graph, T: Tasks, t: string, x: string, output: string)
    requires Linked(g, T) && t in T && T[t].executionId == x && !T[t].state.Complete?
    ensures var ready := Completed(T, t, x, output).ready;
            NoDup(ready) && forall d :: d in ready <==> d in T && d != t && UsedUp(T[d], Times(g[d], t))
  {
    var done := T[t := T[t].(state := Complete, output := output)];
    ReleaseAllReady(done, T[t].downstream);
    forall d | d in T && d != t ensures Times(T[t].downstream, d) == Times(g[d], t) {
      assert Times(DownGraph(T)[t], d) == Times(g[d], t);
    }
  }

  lemma CompletionFrame(g: Graph, T: Tasks, t: string, x: string, output: string)
    requires Linked(g, T) && t in T && T[t].executionId == x && !T[t].state.Complete?
    ensures var c := Completed(T, t, x, output);
            c.err.NoError? && CompletionEffect(T, c.tasks, c.ready, t) && SameShape(T, c.tasks)
  {
    ReadyIsQueued(g, T, t, x, output);
    CompletedRecords(g, T, t, x, output);
  }

  /** Everything `d` depends on, other than `t`, is COMPLETE, and `t` is one of its dependencies. */
  ghost predicate WaitsOnlyFor(g: Graph, T: Tasks, d: string, t: string)
    requires d in g
  {
    t in g[d] && forall u | u in g[d] && u != t :: IsComplete(T, u)
  }

  lemma ReadyWaited(g: Graph, T: Tasks, d: string, t: string)
    requires Linked(g, T) && InDegreeExact(g, T) && d in T && T[d].state.Pending? && t in T && !IsComplete(T, t)
    ensures UsedUp(T[d], Times(g[d], t)) <==> WaitsOnlyFor(g, T, d, t)
  {
    var T' := T[t := T[t].(state := Complete)];
    UnfinishedAfter(g[d], T, T', t);
    UnfinishedZero(g[d], T');
    TimesMember(g[d], t);
    InDegreeCovers(g, T, t, d);
  }

  lemma SafeCounts(st: Store)
    requires StoreSafe(st)
    ensures InDegreeExact(DepGraph(st), st.tasks) && DepGraph(st).Keys == st.tasks.Keys
  {
  }

  lemma SucceedQueue(T: Tasks, T': Tasks, ready: seq<string>, queue: seq<string>, t: string)
    requires CompletionEffect(T, T', ready, t) && !T[t].state.Queued? && QueueOk(T, queue)
    ensures QueueOk(T', queue + ready)
  {
    NoDupConcat(queue, ready);
  }

  lemma SucceedHeld(g: Graph, T: Tasks, T': Tasks, ready: seq<string>, co: Coord, co': Coord, t: string)
    requires CompletionEffect(T, T', ready, t)
    requires HeldOk(g, T, co) && RunningHeld(T, co)
    requires co'.running == co.running - {t} && co'.executions == co.executions - {t} && co'.specCache == co.specCache
    ensures HeldOk(g, T', co') && RunningHeld(T', co')
  {
    HeldFrame(g, T, co, g, T', co');
  }

  /** A completion check never makes a workflow active again. */
  lemma CheckedInactive(st: Store, st': Store, T: Tasks, w: string, v: string)
    requires Checked(st.workflows, st'.workflows, T, w) && !IsActive(st, v)
    ensures !IsActive(st', v)
  {
  }

  lemma SucceedCancelled(st: Store, st': Store, ready: seq<string>, co: Coord, co': Coord, t: string, w: string)
    requires CompletionEffect(st.tasks, st'.tasks, ready, t) && CancelledHeld(st, co)
    requires Checked(st.workflows, st'.workflows, st'.tasks, w) && co'.executions == co.executions - {t}
    ensures CancelledHeld(st', co')
  {
    forall u | u in co'.executions && u in st'.tasks && st'.tasks[u].state.Skipped?
      ensures !IsActive(st', st'.tasks[u].workflowId)
    {
      CheckedInactive(st, st', st'.tasks, w, st.tasks[u].workflowId);
    }
  }

  lemma SucceedCoordSafe(g: Graph, s: Sys, s': Sys, ready: seq<string>, t: string)
    requires CoordSafe(g, s.st, s.co) && t in s.co.executions
    requires CompletionEffect(s.st.tasks, s'.st.tasks, ready, t) && SameShape(s.st.tasks, s'.st.tasks)
    requires s'.st.specs == s.st.specs
    requires Checked(s.st.workflows, s'.st.workflows, s'.st.tasks, Owner(s.co, t))
    requires s'.co == Released(s.co, {t}).(queue := s.co.queue + ready)
    ensures CoordSafe(g, s'.st, s'.co)
  {
    SucceedQueue(s.st.tasks, s'.st.tasks, ready, s.co.queue, t);
    SucceedHeld(g, s.st.tasks, s'.st.tasks, ready, s.co, s'.co, t);
    SucceedCancelled(s.st, s'.st, ready, s.co, s'.co, t, Owner(s.co, t));
  }

  lemma SucceedKeepsSafe(s: Sys, t: string, x: string, output: string)
    requires Safe(s)
    ensures Safe(Step(s, Succeed(t, x, output)))
  {
    hide StoreSafe, CoordSafe;
    if Accepts(s.co, t, x) {
      HeldFacts(s, t);
      SafeLinks(s.st);
      PermittedSucceed(s, t, x, output);
      StepStoreSafe(s, Succeed(t, x, output));
      SucceedForm(s, t, x, output);
      CompletionFrame(DepGraph(s.st), s.st.tasks, t, x, output);
      SucceedCoordSafe(DepGraph(s.st), s, Step(s, Succeed(t, x, output)), Completed(s.st.tasks, t, x, output).ready, t);
      SafeAfter(s.st, Step(s, Succeed(t, x, output)));
    }
  }

  // ---- Assignment ---------------------------------------------------------------------

  lemma AssignCoordSafe(g: Graph, s: Sys, s': Sys, t: string, worker: string, x: string)
    requires CoordSafe(g, s.st, s.co) && s.co.queue != [] && t == s.co.queue[0] && t in s.co.specCache
    requires DepsComplete(g, s.st.tasks, t)
    requires s'.st == s.st.(tasks := Assigned(s.st.tasks, t, x))
    requires s'.co == s.co.(queue := s.co.queue[1..], running := s.co.running[t := worker],
                            executions := s.co.executions[t := x])
    ensures CoordSafe(g, s'.st, s'.co)
  {
    var T, T' := s.st.tasks, s'.st.tasks;
    assert t in s.co.queue;
    assert QueueOk(T', s'.co.queue) by {
      forall i | 0 <= i < |s'.co.queue| ensures s'.co.queue[i] != t {
        assert s'.co.queue[i] == s.co.queue[i + 1];
      }
    }
    forall u | u in s'.co.executions ensures DepsComplete(g, T', u) {
      assert DepsComplete(g, T, u);
    }
  }

  lemma AssignKeepsSafe(s: Sys, worker: string, x: string)
    requires Safe(s)
    ensures Safe(Step(s, Assign(worker, x)))
  {
    if s.co.queue != [] {
      if s.co.queue[0] in s.co.specCache {
        AssignHead(s, s.co.queue[0], worker, x);
      } else {
        PopSafe(DepGraph(s.st), s.st, s.co, Step(s, Assign(worker, x)).co);
      }
    }
  }

  lemma AssignHead(s: Sys, t: string, worker: string, x: string)
    requires Safe(s) && s.co.queue != [] && t == s.co.queue[0] && t in s.co.specCache
    ensures Safe(Step(s, Assign(worker, x)))
  {
    hide StoreSafe, CoordSafe;
    var s' := Step(s, Assign(worker, x));
    assert t in s.co.queue;
    QueuedFacts(s, t);
    PermittedOne(s.st, AssignTask(t, x));
    StepStoreSafe(s, Assign(worker, x));
    AssignForm(s, worker, x);
    AssignCoordSafe(DepGraph(s.st), s, s', t, worker, x);
    SafeAfter(s.st, s');
  }

  lemma PopSafe(g: Graph, st: Store, co: Coord, co': Coord)
    requires CoordSafe(g, st, co) && co.queue != [] && co' == co.(queue := co.queue[1..])
    ensures CoordSafe(g, st, co')
  {
  }

  // ---- Reported failure ------------------------------------------------------------------

  lemma RetryCoordSafe(g: Graph, s: Sys, s': Sys, t: string, newId: string)
    requires CoordSafe(g, s.st, s.co) && t in s.co.executions
    requires s'.st == s.st.(tasks := Requeued(s.st.tasks, t, newId))
    requires s'.co == Released(s.co, {t}).(queue := s.co.queue + [t])
    ensures CoordSafe(g, s'.st, s'.co)
  {
    hide CoordSafe;
    RequeueOne(s.st.tasks, t, newId);
    assert Elems([t]) == {t};
    WorkerDiedCoordSafe(g, s, s', [t], map[t := newId]);
  }

  /** Below a task that is not COMPLETE nothing has been released. */
  lemma NothingReleasedBelow(g: Graph, T: Tasks, f: string, u: string)
    requires Linked(g, T) && DepSafe(g, T) && f in T && !T[f].state.Complete?
    requires Reaches(DownGraph(T), f, u)
    ensures u in T && !T[u].state.Released()
  {
    var h := DownGraph(T);
    TransposeEdges(g, h);
    var S := set c | c in T && !T[c].state.Released();
    forall x, c | x in h && !T[x].state.Complete? && c in h[x] ensures c in S {
      assert x in g[c] && !DepsComplete(g, T, c);
    }
    ReachesInside(h, S, f, u);
  }

  /** The skip set of a failed task contains only PENDING tasks. */
  lemma SkipsOnlyPending(g: Graph, T: Tasks, f: string)
    requires Linked(g, T) && DepSafe(g, T) && f in T && !T[f].state.Complete?
    ensures forall u | u in SkipSet(T, f) :: T[u].state.Pending?
  {
    forall u | u in SkipSet(T, f) ensures T[u].state.Pending? {
      NothingReleasedBelow(g, T, f, u);
    }
  }

  /** Cancelling tasks and dropping them from the queue, the rest untouched. */
  lemma CancelCoordSafe(g: Graph, st: Store, co: Coord, st': Store, co': Coord, w: string)
    requires CoordSafe(g, st, co)
    requires st'.specs == st.specs && st'.tasks == Cancelled(st.tasks, w)
    requires !IsActive(st', w)
    requires forall v | !IsActive(st, v) :: !IsActive(st', v)
    requires co' == co.(queue := Without(co.queue, OpenTasks(st.tasks, w)))
    ensures CoordSafe(g, st', co')
  {
    WithoutMembers(co.queue, OpenTasks(st.tasks, w));
    WithoutNoDup(co.queue, OpenTasks(st.tasks, w));
    HeldFrame(g, st.tasks, co, g, st'.tasks, co');
  }

  /** Marking the held task `t` FAILED and letting go of it. */
  lemma LetFail(g: Graph, st: Store, co: Coord, t: string, msg: string, n: int)
    requires CoordSafe(g, st, co) && t in co.executions
    ensures CoordSafe(g, st.(tasks := FailedWith(st.tasks, t, msg, n)), Released(co, {t}))
  {
    var st', co' := st.(tasks := FailedWith(st.tasks, t, msg, n)), Released(co, {t});
    assert t !in co.queue;
    hide QueueOk, HeldOk, RunningHeld, CancelledHeld, CacheOk;
    FailQueue(st.tasks, co.queue, t, msg, n);
    FailHeld(g, st, st', co, co', t, msg, n);
    SameCache(st.specs, co, co');
  }

  lemma FailQueue(T: Tasks, queue: seq<string>, t: string, msg: string, n: int)
    requires QueueOk(T, queue) && t !in queue
    ensures QueueOk(FailedWith(T, t, msg, n), queue)
  {
  }

  lemma FailHeld(g: Graph, st: Store, st': Store, co: Coord, co': Coord, t: string, msg: string, n: int)
    requires HeldOk(g, st.tasks, co) && RunningHeld(st.tasks, co) && CancelledHeld(st, co) && t in co.executions
    requires st' == st.(tasks := FailedWith(st.tasks, t, msg, n)) && co' == Released(co, {t})
    ensures HeldOk(g, st'.tasks, co') && RunningHeld(st'.tasks, co') && CancelledHeld(st', co')
  {
    HeldFrame(g, st.tasks, co, g, st'.tasks, co');
  }

  /** Skipping PENDING tasks changes nothing the coordinator holds. */
  lemma SkipCoordSafe(g: Graph, st: Store, co: Coord, st': Store, co': Coord, S: set<string>, w: string)
    requires CoordSafe(g, st, co) && forall u | u in S :: u in st.tasks && st.tasks[u].state.Pending?
    requires st'.specs == st.specs && st'.tasks == SkipAll(st.tasks, S)
    requires Checked(st.workflows, st'.workflows, st'.tasks, w)
    requires co' == co.(queue := Without(co.queue, S))
    ensures CoordSafe(g, st', co') && co'.queue == co.queue
  {
    WithoutDisjoint(co.queue, S);
    HeldFrame(g, st.tasks, co, g, st'.tasks, co');
    forall u | u in co'.executions && u in st'.tasks && st'.tasks[u].state.Skipped?
      ensures !IsActive(st', st'.tasks[u].workflowId)
    {
      CheckedInactive(st, st', st'.tasks, w, st.tasks[u].workflowId);
    }
  }

  /** The store right after the failing transaction. */
  lemma FailTxnSafe(st: Store, t: string, msg: string, n: int)
    requires StoreSafe(st) && t in st.tasks && DepsComplete(DepGraph(st), st.tasks, t) && !st.tasks[t].state.Complete?
    ensures var st1 := st.(tasks := FailedWith(st.tasks, t, msg, n));
            StoreSafe(st1) && DepGraph(st1) == DepGraph(st)
  {
    hide StoreSafe;
    TxnKeepsSafe(st, FailTask(t, msg, n));
    ShapeKeepsGraph(st, st.(tasks := FailedWith(st.tasks, t, msg, n)));
  }

  lemma FailCoordSafe(g: Graph, s: Sys, s': Sys, t: string, x: string, msg: string, skipped: seq<string>)
    requires CoordSafe(g, s.st, s.co) && t in s.co.executions && t in s.st.tasks && !Retries(s, t)
    requires s.co.executions[t] == x && ValidKey(Owner(s.co, t))
    requires FailedForm(s, s'.st, t, msg, skipped) && s'.co == FailCoord(s, t, x, msg, skipped)
    requires SkipsDownstream(s, t, x) ==>
               forall u | u in Elems(skipped) ::
                 u in FailureRecords(s, t, msg) && FailureRecords(s, t, msg)[u].state.Pending?
    ensures CoordSafe(g, s'.st, s'.co)
  {
    hide QueueOk, HeldOk, RunningHeld, CancelledHeld, CacheOk;
    var n, w := s.st.tasks[t].attemptCount + 1, Owner(s.co, t);
    var st1, co1 := s.st.(tasks := FailedWith(s.st.tasks, t, msg, n)), Released(s.co, {t});
    LetFail(g, s.st, s.co, t, msg, n);
    if Policy(s.co, w).FailFast? {
      CancelCoordSafe(g, st1, co1, s'.st, s'.co, w);
    } else {
      SkipCoordSafe(g, st1, co1, s'.st, s'.co, Elems(skipped), w);
    }
  }

  lemma RetrySafe(s: Sys, t: string, x: string, msg: string, newId: string, skipped: seq<string>)
    requires Safe(s) && Accepts(s.co, t, x) && t in s.st.tasks && Retries(s, t)
    requires AllPermitted(s.st, FailTxns(s, t, x, msg, newId, skipped))
    ensures Safe(Step(s, Fail(t, x, msg, newId, skipped)))
  {
    hide StoreSafe, CoordSafe, AllPermitted;
    var s' := Step(s, Fail(t, x, msg, newId, skipped));
    StepStoreSafe(s, Fail(t, x, msg, newId, skipped));
    RetryForm(s, t, x, msg, newId, skipped);
    RetryCoordSafe(DepGraph(s.st), s, s', t, newId);
    SafeAfter(s.st, s');
  }

  lemma FailShape(s: Sys, st': Store, t: string, msg: string, skipped: seq<string>)
    requires t in s.st.tasks && FailedForm(s, st', t, msg, skipped)
    ensures SameShape(s.st.tasks, st'.tasks)
  {
  }

  lemma FinalFailSafe(s: Sys, t: string, x: string, msg: string, newId: string, skipped: seq<string>)
    requires Safe(s) && Accepts(s.co, t, x) && t in s.st.tasks && !Retries(s, t)
    requires AllPermitted(s.st, FailTxns(s, t, x, msg, newId, skipped))
    requires SkipsDownstream(s, t, x) ==>
               forall u | u in Elems(skipped) ::
                 u in FailureRecords(s, t, msg) && FailureRecords(s, t, msg)[u].state.Pending?
    ensures Safe(Step(s, Fail(t, x, msg, newId, skipped)))
  {
    hide StoreSafe, CoordSafe, AllPermitted;
    var s' := Step(s, Fail(t, x, msg, newId, skipped));
    HeldFacts(s, t);
    StepStoreSafe(s, Fail(t, x, msg, newId, skipped));
    FailForm(s, t, x, msg, newId, skipped);
    FailCoordSafe(DepGraph(s.st), s, s', t, x, msg, skipped);
    FailShape(s, s'.st, t, msg, skipped);
    SafeAfter(s.st, s');
  }

  /** The tasks a failing call goes on to skip are all PENDING. */
  lemma FailSkipsPending(s: Sys, t: string, msg: string)
    requires StoreSafe(s.st) && t in s.st.tasks && DepsComplete(DepGraph(s.st), s.st.tasks, t)
    requires !s.st.tasks[t].state.Complete?
    ensures forall u | u in SkipSet(FailureRecords(s, t, msg), t) :: FailureRecords(s, t, msg)[u].state.Pending?
  {
    hide StoreSafe;
    var st1 := s.st.(tasks := FailureRecords(s, t, msg));
    FailTxnSafe(s.st, t, msg, s.st.tasks[t].attemptCount + 1);
    SafeLinks(st1);
    SkipsOnlyPending(DepGraph(st1), FailureRecords(s, t, msg), t);
  }

  lemma ReachesSameWorkflow(g: Graph, T: Tasks, f: string, u: string)
    requires Linked(g, T) && f in T && Reaches(DownGraph(T), f, u)
    ensures u in T && T[u].workflowId == T[f].workflowId
  {
    var h := DownGraph(T);
    TransposeEdges(g, h);
    var S := set c | c in T && T[c].workflowId == T[f].workflowId;
    forall x, c | x in h && x in S && c in h[x] ensures c in S {
      assert x in g[c];
    }
    ReachesInside(h, S, f, u);
  }

  lemma AfterFailTxn(s: Sys, t: string, msg: string)
    requires Safe(s) && t in s.co.executions && t in s.st.tasks
    ensures var T := FailureRecords(s, t, msg);
            && Linked(DepGraph(s.st), s.st.tasks) && Linked(DepGraph(s.st), T)
            && forall u | u in SkipSet(T, t) :: T[u].state.Pending?
  {
    hide StoreSafe, CoordSafe, Linked, SkipSet, FailedWith, DepsComplete;
    HeldFacts(s, t);
    SafeLinks(s.st);
    FailTxnSafe(s.st, t, msg, s.st.tasks[t].attemptCount + 1);
    SafeLinks(s.st.(tasks := FailureRecords(s, t, msg)));
    FailSkipsPending(s, t, msg);
  }

  lemma FailSkipsOwn(s: Sys, t: string, msg: string, u: string)
    requires Safe(s) && t in s.co.executions && t in s.st.tasks && u in SkipSet(FailureRecords(s, t, msg), t)
    ensures u in s.st.tasks && s.st.tasks[u].workflowId == s.st.tasks[t].workflowId
  {
    hide Safe;
    AfterFailTxn(s, t, msg);
    ReachesSameWorkflow(DepGraph(s.st), FailureRecords(s, t, msg), t, u);
  }

  lemma FailKeepsSafe(s: Sys, t: string, x: string, msg: string, newId: string, skipped: seq<string>)
    requires Safe(s) && Resolved(s, Fail(t, x, msg, newId, skipped))
    ensures Safe(Step(s, Fail(t, x, msg, newId, skipped)))
  {
    hide StoreSafe, CoordSafe;
    if Accepts(s.co, t, x) {
      HeldFacts(s, t);
      PermittedFail(s, t, x, msg, newId, skipped);
      if Retries(s, t) {
        RetrySafe(s, t, x, msg, newId, skipped);
      } else {
        FailSkipsPending(s, t, msg);
        FinalFailSafe(s, t, x, msg, newId, skipped);
      }
    }
  }

  // ---- Cancellation, dead workers ------------------------------------------------------------

  lemma CancelKeepsSafe(s: Sys, w: string)
    requires Safe(s)
    ensures Safe(Step(s, Cancel(w)))
  {
    hide StoreSafe, CoordSafe;
    PermittedTwo(s.st, w, WorkflowCancelled);
    StepStoreSafe(s, Cancel(w));
    CancelForm(s, w);
    if IsActive(s.st, w) { ActiveIsStored(s.st, w); }
    CancelCoordSafe(DepGraph(s.st), s.st, s.co, Step(s, Cancel(w)).st, Step(s, Cancel(w)).co, w);
    SafeAfter(s.st, Step(s, Cancel(w)));
  }

  lemma PresentAll(T: Tasks, order: seq<string>)
    requires forall t | t in order :: t in T
    ensures Present(T, order) == order
  {
    WithoutDisjoint(order, Elems(order) - T.Keys);
  }

  lemma WorkerDiedCoordSafe(g: Graph, s: Sys, s': Sys, tasks: seq<string>, ids: map<string, string>)
    requires CoordSafe(g, s.st, s.co) && NoDup(tasks) && forall t | t in tasks :: t in s.co.executions
    requires s'.st == s.st.(tasks := RequeueAll(s.st.tasks, Elems(tasks), ids))
    requires s'.co == Released(s.co, Elems(tasks)).(queue := s.co.queue + tasks)
    ensures CoordSafe(g, s'.st, s'.co)
  {
    forall t | t in tasks ensures t in s.st.tasks && !s.st.tasks[t].state.Queued? && !s.st.tasks[t].state.Complete? {
      assert t in s.co.executions;
    }
    hide QueueOk, HeldOk, RunningHeld, CancelledHeld, CacheOk;
    RequeueQueue(s.st.tasks, s'.st.tasks, s.co.queue, tasks, ids);
    RequeueHeld(g, s.st, s'.st, s.co, s'.co, Elems(tasks), ids);
    assert CacheOk(s'.st.specs, s'.co) by { SameCache(s.st.specs, s.co, s'.co); }
  }

  lemma SameCache(specs: map<string, WorkflowSpec>, co: Coord, co': Coord)
    requires CacheOk(specs, co)
    requires co'.specCache == co.specCache && co'.workflowOf == co.workflowOf && co'.policy == co.policy
    ensures CacheOk(specs, co')
  {
  }

  lemma RequeueHeld(g: Graph, st: Store, st': Store, co: Coord, co': Coord, S: set<string>, ids: map<string, string>)
    requires HeldOk(g, st.tasks, co) && RunningHeld(st.tasks, co) && CancelledHeld(st, co)
    requires forall t | t in S && t in st.tasks :: !st.tasks[t].state.Complete?
    requires st' == st.(tasks := RequeueAll(st.tasks, S, ids))
    requires co'.running == co.running - S && co'.executions == co.executions - S && co'.specCache == co.specCache
    ensures HeldOk(g, st'.tasks, co') && RunningHeld(st'.tasks, co') && CancelledHeld(st', co')
  {
    HeldFrame(g, st.tasks, co, g, st'.tasks, co');
  }

  lemma RequeueQueue(T: Tasks, T': Tasks, queue: seq<string>, tasks: seq<string>, ids: map<string, string>)
    requires QueueOk(T, queue) && NoDup(tasks) && forall t | t in tasks :: t in T && !T[t].state.Queued?
    requires T' == RequeueAll(T, Elems(tasks), ids)
    ensures QueueOk(T', queue + tasks)
  {
    NoDupConcat(queue, tasks);
  }

  lemma WorkerDiedKeepsSafe(s: Sys, worker: string, tasks: seq<string>, ids: map<string, string>)
    requires Safe(s) && Enumerates(tasks, HeldBy(s.co, worker))
    ensures Safe(Step(s, WorkerDied(worker, tasks, ids)))
  {
    hide StoreSafe, CoordSafe;
    var e := WorkerDied(worker, tasks, ids);
    assert s.co.running.Keys == s.co.executions.Keys by { SameHeldKeys(s); }
    forall t | t in tasks
      ensures t in s.co.executions && t in s.st.tasks && !IsComplete(s.st.tasks, t)
      ensures DepsComplete(DepGraph(s.st), s.st.tasks, t)
    {
      HeldFacts(s, t);
    }
    PermittedRequeues(s.st, tasks, ids);
    StepStoreSafe(s, e);
    RequeueForm(s.st, tasks, ids);
    PresentAll(s.st.tasks, tasks);
    WorkerDiedCoordSafe(DepGraph(s.st), s, Step(s, e), tasks, ids);
    SafeAfter(s.st, Step(s, e));
  }

  // ---- Restart --------------------------------------------------------------------------------

  lemma {:induction false} SpecMapFacts(ts: seq<TaskSpec>)
    ensures SpecMap(ts).Keys == Ids(ts)
    ensures forall t | t in SpecMap(ts) :: SpecMap(ts)[t] in ts && SpecMap(ts)[t].taskId == t
  {
    if ts != [] {
      var init, last := ts[..|ts| - 1], ts[|ts| - 1];
      SpecMapFacts(init);
      assert ts == init + [last];
      assert Ids(ts) == Ids(init) + {last.taskId} by {
        assert forall i | 0 <= i < |init| :: ts[i] == init[i];
        forall t | t in Ids(ts) ensures t in Ids(init) + {last.taskId} {
          var i :| 0 <= i < |ts| && ts[i].taskId == t;
          if i < |init| { assert init[i].taskId == t; }
        }
      }
    }
  }

  /** Adding a stored workflow's entries keeps the caches right. */
  lemma CacheGrows(specs: map<string, WorkflowSpec>, co: Coord, spec: WorkflowSpec)
    requires CacheOk(specs, co) && spec.workflowId in specs && specs[spec.workflowId] == spec
    ensures CacheOk(specs, co.(specCache := co.specCache + SpecMap(spec.tasks),
                               workflowOf := co.workflowOf + OwnerMap(spec.tasks, spec.workflowId),
                               policy := co.policy[spec.workflowId := spec.failurePolicy]))
  {
    SpecMapFacts(spec.tasks);
    hide SpecMap;
  }

  lemma {:induction false} LoadAllCacheOk(st: Store, ws: seq<string>)
    requires SpecsOk(st.specs)
    ensures CacheOk(st.specs, LoadAll(st, ws))
    ensures LoadAll(st, ws).queue == [] && LoadAll(st, ws).running == map[] && LoadAll(st, ws).executions == map[]
  {
    if ws != [] {
      var w := ws[|ws| - 1];
      LoadAllCacheOk(st, ws[..|ws| - 1]);
      if w in st.specs {
        CacheGrows(st.specs, LoadAll(st, ws[..|ws| - 1]), st.specs[w]);
      }
    }
  }

  /** Recovery on any safe store, whatever was lost with the old coordinator. */
  lemma RestartCoordSafe(g: Graph, st: Store, st': Store, co': Coord,
                         ws: seq<string>, queued: seq<string>, running: seq<string>, ids: map<string, string>)
    requires SpecsOk(st.specs) && RestartOrders(st, ws, queued, running)
    requires st' == st.(tasks := RequeueAll(st.tasks, Elems(running), ids))
    requires co' == RestartCoord(st, ws, queued, running)
    ensures CoordSafe(g, st', co')
  {
    LoadAllCacheOk(st, ws);
    PresentAll(st.tasks, running);
    NoDupConcat(queued, running);
  }

  lemma RunningReady(st: Store, running: seq<string>)
    requires StoreSafe(st) && Enumerates(running, InState(st.tasks, Running))
    ensures forall t | t in running :: DepsComplete(DepGraph(st), st.tasks, t) && !IsComplete(st.tasks, t)
  {
  }

  lemma RestartKeepsSafe(s: Sys, ws: seq<string>, queued: seq<string>, running: seq<string>, ids: map<string, string>)
    requires StoreSafe(s.st) && RestartOrders(s.st, ws, queued, running)
    ensures Safe(Step(s, Restart(ws, queued, running, ids)))
  {
    hide StoreSafe, CoordSafe;
    var e := Restart(ws, queued, running, ids);
    RunningReady(s.st, running);
    PermittedRequeues(s.st, running, ids);
    StepStoreSafe(s, e);
    RequeueForm(s.st, running, ids);
    assert CoordSafe(DepGraph(s.st), Step(s, e).st, Step(s, e).co) by {
      SafeSpecs(s.st);
      RestartCoordSafe(DepGraph(s.st), s.st, Step(s, e).st, Step(s, e).co, ws, queued, running, ids);
    }
    SafeAfter(s.st, Step(s, e));
  }

  // ---- Submission --------------------------------------------------------------------------------

  /** The records of an accepted submission beside those already stored. */
  ghost predicate SubmitEffect(T: Tasks, T': Tasks, spec: WorkflowSpec, roots: seq<string>) {
    && T'.Keys == T.Keys + Ids(spec.tasks) && T.Keys !! Ids(spec.tasks)
    && (forall t | t in T :: T'[t] == T[t])
    && (forall t | t in Ids(spec.tasks) ::
          && T'[t].workflowId == spec.workflowId && T'[t].attemptCount == 0
          && T'[t].inDegree == |DepsOf(spec.tasks, t)|
          && T'[t].state == if DepsOf(spec.tasks, t) == [] then Queued else Pending)
    && NoDup(roots) && (forall t :: t in roots <==> t in Ids(spec.tasks) && DepsOf(spec.tasks, t) == [])
  }

  lemma SubmitFrame(T: Tasks, spec: WorkflowSpec, down: Graph, roots: seq<string>)
    requires Transposes(SpecGraph(spec.tasks), down) && Enumerates(roots, Roots(spec.tasks))
    requires forall t | t in Ids(spec.tasks) :: t !in T
    ensures SubmitEffect(T, SubmittedTasks(T, spec, down, roots), spec, roots)
  {
    InitializedEffect(T, spec.workflowId, spec.tasks, InDegrees(spec.tasks), down);
  }

  /** Old tasks keep their dependency lists. */
  lemma SubmitGraph(st: Store, st': Store, spec: WorkflowSpec)
    requires Registered(st) && spec.workflowId !in st.specs && st'.specs == st.specs[spec.workflowId := spec]
    requires forall t | t in st.tasks :: t in st'.tasks && st'.tasks[t] == st.tasks[t]
    ensures forall t | t in DepGraph(st) :: t in DepGraph(st') && DepGraph(st')[t] == DepGraph(st)[t]
  {
  }

  lemma SubmitHeld(g: Graph, s: Sys, g': Graph, s': Sys, spec: WorkflowSpec, roots: seq<string>)
    requires HeldOk(g, s.st.tasks, s.co) && RunningHeld(s.st.tasks, s.co)
    requires g.Keys == s.st.tasks.Keys && forall t | t in g :: t in g' && g'[t] == g[t]
    requires SubmitEffect(s.st.tasks, s'.st.tasks, spec, roots)
    requires s'.co.running == s.co.running && s'.co.executions == s.co.executions
    requires s.co.specCache.Keys <= s'.co.specCache.Keys
    ensures HeldOk(g', s'.st.tasks, s'.co) && RunningHeld(s'.st.tasks, s'.co)
  {
    HeldFrame(g, s.st.tasks, s.co, g', s'.st.tasks, s'.co);
  }

  lemma SubmitCache(specs: map<string, WorkflowSpec>, co: Coord, spec: WorkflowSpec, roots: seq<string>)
    requires CacheOk(specs, co) && spec.workflowId !in specs
    ensures CacheOk(specs[spec.workflowId := spec], SubmitCoord(co, spec, roots))
  {
    var specs' := specs[spec.workflowId := spec];
    assert CacheOk(specs', co);
    CacheGrows(specs', co, spec);
  }

  lemma SubmitCancelled(st: Store, st': Store, co: Coord, co': Coord, spec: WorkflowSpec, roots: seq<string>)
    requires CancelledHeld(st, co) && Registered(st) && spec.workflowId !in st.specs
    requires SubmitEffect(st.tasks, st'.tasks, spec, roots) && co'.executions == co.executions
    requires st'.workflows == st.workflows[spec.workflowId := WorkflowRunning]
    ensures CancelledHeld(st', co')
  {
  }

  lemma SubmitQueue(T: Tasks, T': Tasks, queue: seq<string>, spec: WorkflowSpec, roots: seq<string>)
    requires QueueOk(T, queue) && SubmitEffect(T, T', spec, roots)
    ensures QueueOk(T', queue + roots)
  {
    NoDupConcat(queue, roots);
  }

  lemma SubmitCoordSafe(g: Graph, s: Sys, g': Graph, s': Sys, spec: WorkflowSpec, roots: seq<string>)
    requires CoordSafe(g, s.st, s.co) && spec.workflowId !in s.st.specs
    requires g.Keys == s.st.tasks.Keys && forall t | t in g :: t in g' && g'[t] == g[t]
    requires SubmitEffect(s.st.tasks, s'.st.tasks, spec, roots)
    requires Registered(s.st)
    requires s'.st.specs == s.st.specs[spec.workflowId := spec]
    requires s'.st.workflows == s.st.workflows[spec.workflowId := WorkflowRunning]
    requires s'.co == SubmitCoord(s.co, spec, roots)
    ensures CoordSafe(g', s'.st, s'.co)
  {
    hide QueueOk, HeldOk, RunningHeld, CancelledHeld, CacheOk, SubmitEffect, Registered;
    SubmitQueue(s.st.tasks, s'.st.tasks, s.co.queue, spec, roots);
    SubmitHeld(g, s, g', s', spec, roots);
    SubmitCancelled(s.st, s'.st, s.co, s'.co, spec, roots);
    SubmitCache(s.st.specs, s.co, spec, roots);
  }

  lemma SubmitKeepsSafe(s: Sys, spec: WorkflowSpec, down: Graph, roots: seq<string>)
    requires Safe(s) && Enabled(s, Submit(spec, down, roots))
    ensures Safe(Step(s, Submit(spec, down, roots)))
  {
    hide StoreSafe, CoordSafe, IsDag, ValidIds, SubmitTxns;
    if Admitted(spec) {
      PermittedSubmit(s.st, spec, down, roots);
      StepStoreSafe(s, Submit(spec, down, roots));
      if Accepted(spec) {
        AcceptedKeepsSafe(s, spec, down, roots);
      } else {
        HaltedKeepsSafe(s, spec, down, roots);
      }
    }
  }

  lemma HaltedKeepsSafe(s: Sys, spec: WorkflowSpec, down: Graph, roots: seq<string>)
    requires Safe(s) && Admitted(spec) && !ValidIds(spec.tasks) && Fresh(s.st, spec)
    requires StoreSafe(Step(s, Submit(spec, down, roots)).st)
    ensures Safe(Step(s, Submit(spec, down, roots)))
  {
    hide StoreSafe, CoordSafe, Registered, Admitted, Step;
    var s' := Step(s, Submit(spec, down, roots));
    HaltedForm(s, spec, down, roots);
    SafeSpecs(s.st);
    SubmitGraph(s.st, s'.st, spec);
    assert DepGraph(s'.st) == DepGraph(s.st);
    HaltedCoordSafe(DepGraph(s.st), s.st, s.co, s'.st, spec);
  }

  lemma HaltedCoordSafe(g: Graph, st: Store, co: Coord, st': Store, spec: WorkflowSpec)
    requires CoordSafe(g, st, co) && Registered(st) && spec.workflowId !in st.specs
    requires st' == Store(st.specs[spec.workflowId := spec], st.workflows[spec.workflowId := WorkflowRunning], st.tasks)
    ensures CoordSafe(g, st', co)
  {
    hide QueueOk, HeldOk, RunningHeld;
  }

  lemma DepGraphKeys(st: Store)
    ensures DepGraph(st).Keys == st.tasks.Keys
  {
  }

  lemma SubmitKeepsOld(T: Tasks, T': Tasks, spec: WorkflowSpec, roots: seq<string>)
    requires SubmitEffect(T, T', spec, roots)
    ensures forall t | t in T :: t in T' && T'[t] == T[t]
  {
  }

  lemma AcceptedKeepsSafe(s: Sys, spec: WorkflowSpec, down: Graph, roots: seq<string>)
    requires Safe(s) && Enabled(s, Submit(spec, down, roots)) && Accepted(spec)
    requires StoreSafe(Step(s, Submit(spec, down, roots)).st)
    ensures Safe(Step(s, Submit(spec, down, roots)))
  {
    hide StoreSafe, CoordSafe, IsDag, Txns, Fold, Registered, ValidIds, SubmitCoord, SubmitEffect, SubmittedTasks,
         DepGraph;
    var e := Submit(spec, down, roots);
    SubmitForm(s, spec, down, roots);
    SubmitFrame(s.st.tasks, spec, down, roots);
    SafeSpecs(s.st);
    SubmitKeepsOld(s.st.tasks, Step(s, e).st.tasks, spec, roots);
    SubmitGraph(s.st, Step(s, e).st, spec);
    DepGraphKeys(s.st);
    SubmitCoordSafe(DepGraph(s.st), s, DepGraph(Step(s, e).st), Step(s, e), spec, roots);
  }

  // ---- Every step ----------------------------------------------------------------------------------

  lemma StepKeepsSafe(s: Sys, e: Event)
    requires Safe(s) && Enabled(s, e)
    ensures Safe(Step(s, e))
  {
    match e
    case Submit(spec, down, roots) => SubmitKeepsSafe(s, spec, down, roots);
    case Assign(worker, x) => AssignKeepsSafe(s, worker, x);
    case Succeed(t, x, output) => SucceedKeepsSafe(s, t, x, output);
    case Fail(t, x, msg, newId, skipped) => FailKeepsSafe(s, t, x, msg, newId, skipped);
    case Cancel(w) => CancelKeepsSafe(s, w);
    case WorkerDied(worker, tasks, ids) => WorkerDiedKeepsSafe(s, worker, tasks, ids);
    case Restart(ws, queued, running, ids) => RestartKeepsSafe(s, ws, queued, running, ids);
  }

  // ---- Every transaction of every call ---------------------------------------------------------------

  lemma SubmitPermitted(s: Sys, spec: WorkflowSpec, down: Graph, roots: seq<string>)
    requires Safe(s) && Enabled(s, Submit(spec, down, roots))
    ensures AllPermitted(s.st, Txns(s, Submit(spec, down, roots)))
  {
    if Admitted(spec) {
      PermittedSubmit(s.st, spec, down, roots);
    }
  }

  lemma AssignPermitted(s: Sys, worker: string, x: string)
    requires Safe(s)
    ensures AllPermitted(s.st, Txns(s, Assign(worker, x)))
  {
    hide StoreSafe, CoordSafe;
    if s.co.queue != [] && s.co.queue[0] in s.co.specCache {
      assert s.co.queue[0] in s.co.queue;
      QueuedFacts(s, s.co.queue[0]);
      PermittedOne(s.st, AssignTask(s.co.queue[0], x));
    }
  }

  lemma WorkerDiedPermitted(s: Sys, worker: string, tasks: seq<string>, ids: map<string, string>)
    requires Safe(s) && Enumerates(tasks, HeldBy(s.co, worker))
    ensures AllPermitted(s.st, RequeueTxns(tasks, ids))
  {
    hide StoreSafe, CoordSafe;
    SameHeldKeys(s);
    forall t | t in tasks ensures DepsComplete(DepGraph(s.st), s.st.tasks, t) && !IsComplete(s.st.tasks, t) {
      HeldFacts(s, t);
    }
    PermittedRequeues(s.st, tasks, ids);
  }

  /** Every transaction of every call is permitted at the moment it runs. */
  lemma StepPermitted(s: Sys, e: Event)
    requires Safe(s) && Enabled(s, e)
    ensures AllPermitted(s.st, Txns(s, e))
  {
    hide StoreSafe, CoordSafe, AllPermitted;
    match e
    case Submit(spec, down, roots) => SubmitPermitted(s, spec, down, roots);
    case Assign(worker, x) => AssignPermitted(s, worker, x);
    case Succeed(t, x, output) =>
      if t in s.co.executions { HeldFacts(s, t); }
      PermittedSucceed(s, t, x, output);
    case Fail(t, x, msg, newId, skipped) =>
      if t in s.co.executions { HeldFacts(s, t); }
      PermittedFail(s, t, x, msg, newId, skipped);
    case Cancel(w) => PermittedTwo(s.st, w, WorkflowCancelled);
    case WorkerDied(worker, tasks, ids) => WorkerDiedPermitted(s, worker, tasks, ids);
    case Restart(ws, queued, running, ids) =>
      RunningReady(s.st, running);
      PermittedRequeues(s.st, running, ids);
  }
}
