/** What holds between calls in every run and is what keeps workflows moving:
    no PENDING task waits for a failed one, every QUEUED task of an active
    workflow is in the queue, and an active workflow has unfinished work. */
module Liveness {
  import opened Types
  import opened Seqs
  import opened Graphs
  import opened Dags
  import opened Stores
  import opened Systems
  import opened StoreSafety
  import opened StepForms
  import opened Permits
  import opened Safety
  import opened Foreign

  // ---- The coordinator's part ---------------------------------------------------------------

  ghost predicate QueuedListed(st: Store, co: Coord) {
    forall t | t in st.tasks && st.tasks[t].state.Queued? && IsActive(st, st.tasks[t].workflowId) :: t in co.queue
  }

  ghost predicate ActiveCached(st: Store, co: Coord) {
    forall t | t in st.tasks && IsActive(st, st.tasks[t].workflowId) :: t in co.specCache
  }

  ghost predicate Listed(s: Sys) {
    QueuedListed(s.st, s.co) && ActiveCached(s.st, s.co)
  }

  // ---- The store's part, workflow by workflow -----------------------------------------------

  /** The workflow has tasks, and their ids are keys. */
  predicate Runnable(spec: WorkflowSpec) {
    spec.tasks != [] && ValidIds(spec.tasks)
  }

  predicate Lost(T: Tasks, d: string) {
    d in T && (T[d].state.Failed? || T[d].state.Skipped?)
  }

  ghost predicate Recorded(st: Store, w: string)
    requires w in st.specs
  {
    forall t | t in Ids(st.specs[w].tasks) :: t in st.tasks && st.tasks[t].workflowId == w
  }

  ghost predicate PendingWaits(T: Tasks, w: string) {
    forall t | t in T && T[t].workflowId == w && T[t].state.Pending? :: T[t].inDegree > 0
  }

  /** Skip closure: no PENDING task of `w` has a FAILED or SKIPPED dependency. */
  ghost predicate SkipClosed(g: Graph, T: Tasks, w: string) {
    forall t, d | t in T && t in g && T[t].workflowId == w && T[t].state.Pending? && d in g[t] :: !Lost(T, d)
  }

  ghost predicate WorkLive(g: Graph, st: Store, w: string) {
    w in st.specs ==>
      && w in st.workflows
      && (Runnable(st.specs[w]) ==>
            && Recorded(st, w) && PendingWaits(st.tasks, w) && SkipClosed(g, st.tasks, w)
            && (IsActive(st, w) ==> OpenTasks(st.tasks, w) != {}))
  }

  ghost predicate Live(s: Sys) {
    Safe(s) && Listed(s) && forall w :: WorkLive(DepGraph(s.st), s.st, w)
  }

  /** A workflow with records can run. */
  lemma RecordedIsRunnable(st: Store, t: string)
    requires StoreSafe(st) && t in st.tasks
    ensures st.tasks[t].workflowId in st.specs && Runnable(st.specs[st.tasks[t].workflowId])
  {
    hide Linked, DepSafe, InDegreeExact;
    var ts := st.specs[st.tasks[t].workflowId].tasks;
    assert t in Ids(ts);
    forall i | 0 <= i < |ts| ensures ValidKey(ts[i].taskId) {
      assert ts[i].taskId in Ids(ts);
    }
  }

  // ---- Workflows a call does not concern ----------------------------------------------------

  lemma GentleKeepsLive(st: Store, st': Store, w: string, S: set<string>)
    requires Linked(DepGraph(st), st.tasks) && WorkLive(DepGraph(st), st, w) && Gentle(st, st', w, S)
    ensures WorkLive(DepGraph(st'), st', w)
  {
    if w in st'.specs && Runnable(st'.specs[w]) {
      GentleSkips(st, st', w, S);
      if IsActive(st', w) {
        var t :| t in OpenTasks(st.tasks, w);
        assert t in OpenTasks(st'.tasks, w);
      }
    }
  }

  lemma GentleSkips(st: Store, st': Store, w: string, S: set<string>)
    requires Linked(DepGraph(st), st.tasks) && Gentle(st, st', w, S) && w in st.specs
    requires SkipClosed(DepGraph(st), st.tasks, w)
    ensures SkipClosed(DepGraph(st'), st'.tasks, w)
  {
    var g, g', T, T' := DepGraph(st), DepGraph(st'), st.tasks, st'.tasks;
    hide Acyclic, Transposes, DepsOf;
    forall p, d | p in T' && p in g' && T'[p].workflowId == w && T'[p].state.Pending? && d in g'[p]
      ensures !Lost(T', d)
    {
      assert T'[p] == T[p] && g'[p] == g[p];
      assert !Lost(T, d) && T[d].workflowId == w;
    }
  }

  // ---- Reported success ---------------------------------------------------------------------

  lemma NotAllTerminal(T: Tasks, w: string)
    requires !AllTerminal(T, w)
    ensures OpenTasks(T, w) != {}
  {
    var t :| t in T && T[t].workflowId == w && !T[t].state.Terminal();
    assert t in OpenTasks(T, w);
  }

  lemma SucceedOwn(g: Graph, st: Store, st': Store, t: string, x: string, output: string, w: string)
    requires Linked(g, st.tasks) && t in st.tasks && st.tasks[t].executionId == x && st.tasks[t].workflowId == w
    requires !st.tasks[t].state.Complete? && !st.tasks[t].state.Pending?
    requires st'.specs == st.specs && st'.tasks == Completed(st.tasks, t, x, output).tasks
    requires ValidKey(w) && Checked(st.workflows, st'.workflows, st'.tasks, w) && WorkLive(g, st, w)
    ensures WorkLive(g, st', w)
  {
    hide Completed, Linked;
    CompletedRecords(g, st.tasks, t, x, output);
    CompletedShape(st.tasks, t, x, output);
    if IsActive(st', w) { NotAllTerminal(st'.tasks, w); }
    if w in st.specs && Runnable(st.specs[w]) {
      var T, T' := st.tasks, st'.tasks;
      forall p, d | p in T' && p in g && T'[p].workflowId == w && T'[p].state.Pending? && d in g[p]
        ensures !Lost(T', d)
      {
        assert T[p].state.Pending? && T[p].workflowId == w && !Lost(T, d);
      }
    }
  }

  // ---- Giving up on a task, cancellation ----------------------------------------------------

  /** Cancelling all of `w` settles it, whatever was pending there. */
  lemma CancelOwn(g: Graph, st: Store, st': Store, w: string)
    requires w in st.specs ==> w in st.workflows && (Runnable(st.specs[w]) ==> Recorded(st, w))
    requires st'.specs == st.specs && st'.tasks == Cancelled(st.tasks, w)
    requires !IsActive(st', w) && (w in st.workflows ==> w in st'.workflows)
    ensures WorkLive(g, st', w)
  {
  }

  lemma ReachesChild(h: Graph, t: string, d: string, p: string)
    requires d in h && p in h[d] && (d == t || Reaches(h, t, d))
    ensures Reaches(h, t, p)
  {
    EdgeReaches(h, d, p);
    if d != t {
      ReachesTransitive(h, t, d, p);
    }
  }

  lemma SkippedStaysClosed(g: Graph, T: Tasks, t: string, msg: string, n: int, S: set<string>, w: string)
    requires SkipClosed(g, T, w) && Linked(g, FailedWith(T, t, msg, n)) && t in T
    requires S == SkipSet(FailedWith(T, t, msg, n), t)
    ensures SkipClosed(g, SkipAll(FailedWith(T, t, msg, n), S), w)
  {
    var T1 := FailedWith(T, t, msg, n);
    var T' := SkipAll(T1, S);
    TransposeEdges(g, DownGraph(T1));
    forall p, d | p in T' && p in g && T'[p].workflowId == w && T'[p].state.Pending? && d in g[p] ensures !Lost(T', d) {
      if d == t || d in S {
        ReachesChild(DownGraph(T1), t, d, p);
        assert false;
      } else {
        assert T[p].state.Pending? && !Lost(T, d);
      }
    }
  }

  lemma SkippedWaits(T: Tasks, t: string, msg: string, n: int, S: set<string>, w: string)
    requires PendingWaits(T, w) && t in T
    ensures var T' := SkipAll(FailedWith(T, t, msg, n), S);
            PendingWaits(T', w) && forall u | u in T :: u in T' && T'[u].workflowId == T[u].workflowId
  {
  }

  lemma SkipOwn(g: Graph, st: Store, st': Store, t: string, msg: string, n: int, S: set<string>, w: string)
    requires t in st.tasks && st.tasks[t].workflowId == w && Linked(g, FailedWith(st.tasks, t, msg, n))
    requires S == SkipSet(FailedWith(st.tasks, t, msg, n), t)
    requires st'.specs == st.specs && st'.tasks == SkipAll(FailedWith(st.tasks, t, msg, n), S)
    requires ValidKey(w) && Checked(st.workflows, st'.workflows, st'.tasks, w) && WorkLive(g, st, w)
    ensures WorkLive(g, st', w)
  {
    if w in st.specs && Runnable(st.specs[w]) {
      hide Linked, SkipSet, SkipClosed, SkipAll, FailedWith, PendingWaits;
      SkippedStaysClosed(g, st.tasks, t, msg, n, S, w);
      SkippedWaits(st.tasks, t, msg, n, S, w);
      if IsActive(st', w) { NotAllTerminal(st'.tasks, w); }
    }
  }

  lemma GiveUpOwn(s: Sys, s': Sys, t: string, x: string, msg: string, skipped: seq<string>)
    requires Safe(s) && WorkLive(DepGraph(s.st), s.st, Owner(s.co, t))
    requires Accepts(s.co, t, x) && t in s.st.tasks && !Retries(s, t)
    requires FailedForm(s, s'.st, t, msg, skipped)
    requires SkipsDownstream(s, t, x) ==> Enumerates(skipped, SkipSet(FailureRecords(s, t, msg), t))
    ensures WorkLive(DepGraph(s.st), s'.st, Owner(s.co, t))
  {
    hide Safe, Linked, DepSafe, Enumerates;
    var g, n, w := DepGraph(s.st), s.st.tasks[t].attemptCount + 1, Owner(s.co, t);
    HeldFacts(s, t);
    AfterFailTxn(s, t, msg);
    if Policy(s.co, w).FailFast? {
      CancelOwn(g, s.st.(tasks := FailedWith(s.st.tasks, t, msg, n)), s'.st, w);
    } else {
      SameElems(skipped, SkipSet(FailureRecords(s, t, msg), t));
      hide WorkLive;
      SkipOwn(g, s.st, s'.st, t, msg, n, SkipSet(FailureRecords(s, t, msg), t), w);
    }
  }

  lemma SameElems(order: seq<string>, S: set<string>)
    requires Enumerates(order, S)
    ensures Elems(order) == S
  {
  }

  // ---- Submission ---------------------------------------------------------------------------

  lemma OldWorkflows(st: Store, w: string)
    requires Registered(st) && w !in st.specs
    ensures forall t | t in st.tasks :: st.tasks[t].workflowId != w
  {
  }

  lemma SubmitOwn(g: Graph, st: Store, st': Store, spec: WorkflowSpec, roots: seq<string>)
    requires SubmitEffect(st.tasks, st'.tasks, spec, roots) && Linked(g, st'.tasks)
    requires forall t | t in st.tasks :: st.tasks[t].workflowId != spec.workflowId
    requires st'.specs == st.specs[spec.workflowId := spec]
    requires st'.workflows == st.workflows[spec.workflowId := WorkflowRunning]
    ensures WorkLive(g, st', spec.workflowId)
  {
    var w := spec.workflowId;
    if Runnable(spec) {
      assert spec.tasks[0].taskId in OpenTasks(st'.tasks, w);
      SubmitClosed(g, st.tasks, st'.tasks, spec, roots);
      hide Linked, SkipClosed, DepsOf;
    }
  }

  /** In a new workflow no task is lost. */
  lemma SubmitClosed(g: Graph, T: Tasks, T': Tasks, spec: WorkflowSpec, roots: seq<string>)
    requires SubmitEffect(T, T', spec, roots) && Linked(g, T')
    requires forall t | t in T :: T[t].workflowId != spec.workflowId
    ensures SkipClosed(g, T', spec.workflowId)
  {
    hide Acyclic, Transposes, DepsOf;
  }

  // ---- Every call, on the store -------------------------------------------------------------

  /** Every call other than a submission keeps the shape of the records. */
  lemma StepShape(s: Sys, e: Event)
    requires Safe(s) && Enabled(s, e) && (e.Submit? ==> !Admitted(e.spec))
    ensures Step(s, e).st.specs == s.st.specs && SameShape(s.st.tasks, Step(s, e).st.tasks)
  {
    hide Safe, Step, Enabled;
    if Idle(s, e) {
      IdleForm(s, e);
    } else {
      match e
      case Assign(worker, x) => AssignForm(s, worker, x);
      case Succeed(t, x, output) => SucceedStepShape(s, t, x, output);
      case Fail(t, x, msg, newId, skipped) => FailStepShape(s, t, x, msg, newId, skipped);
      case Cancel(w) => CancelForm(s, w);
      case WorkerDied(worker, tasks, ids) => WorkerDiedForm(s, worker, tasks, ids);
      case Restart(ws, queued, running, ids) =>
        RestartForm(s.st, s.co, ws, queued, running, ids);
        RequeueForm(s.st, running, ids);
      case _ =>
    }
  }

  lemma SucceedStepShape(s: Sys, t: string, x: string, output: string)
    requires Safe(s) && Accepts(s.co, t, x)
    ensures var st' := Step(s, Succeed(t, x, output)).st;
            st'.specs == s.st.specs && SameShape(s.st.tasks, st'.tasks)
  {
    hide Step, SameShape, Completed;
    HeldFacts(s, t);
    SafeLinks(s.st);
    SucceedForm(s, t, x, output);
    CompletionFrame(DepGraph(s.st), s.st.tasks, t, x, output);
  }

  lemma FailStepShape(s: Sys, t: string, x: string, msg: string, newId: string, skipped: seq<string>)
    requires Safe(s) && Enabled(s, Fail(t, x, msg, newId, skipped)) && Accepts(s.co, t, x)
    ensures var st' := Step(s, Fail(t, x, msg, newId, skipped)).st;
            st'.specs == s.st.specs && SameShape(s.st.tasks, st'.tasks)
  {
    hide StoreSafe, CoordSafe, Step;
    HeldFacts(s, t);
    if Retries(s, t) {
      RetryForm(s, t, x, msg, newId, skipped);
    } else {
      FailForm(s, t, x, msg, newId, skipped);
      FailShape(s, Step(s, Fail(t, x, msg, newId, skipped)).st, t, msg, skipped);
    }
  }

  lemma AllPermittedSteps(s: Sys, e: Event)
    requires Safe(s) && AllPermitted(s.st, Txns(s, e)) && Enabled(s, e)
    ensures forall w | !Concerns(s, e, w) :: Gentle(s.st, Step(s, e).st, w, Handled(s))
  {
    hide Safe, Gentle, Concerns, Enabled, AllPermitted, Fold;
    assert Txns(s, e)[..|Txns(s, e)|] == Txns(s, e);
    forall w | !Concerns(s, e, w) ensures Gentle(s.st, Step(s, e).st, w, Handled(s)) {
      ForeignPrefix(s, e, |Txns(s, e)|, w);
    }
  }

  lemma OwnSubmission(s: Sys, spec: WorkflowSpec, down: Graph, roots: seq<string>)
    requires Safe(s) && Safe(Step(s, Submit(spec, down, roots))) && Enabled(s, Submit(spec, down, roots))
    requires WorkLive(DepGraph(s.st), s.st, spec.workflowId)
    ensures WorkLive(DepGraph(Step(s, Submit(spec, down, roots)).st), Step(s, Submit(spec, down, roots)).st,
                     spec.workflowId)
  {
    hide StoreSafe, CoordSafe, Step, IsDag, Linked, SubmitEffect, Registered;
    var s' := Step(s, Submit(spec, down, roots));
    SafeSpecs(s.st);
    if !Admitted(spec) {
      IdleForm(s, Submit(spec, down, roots));
    } else if Accepted(spec) {
      hide WorkLive;
      SubmitForm(s, spec, down, roots);
      SubmitFrame(s.st.tasks, spec, down, roots);
      SafeLinks(s'.st);
      OldWorkflows(s.st, spec.workflowId);
      SubmitOwn(DepGraph(s'.st), s.st, s'.st, spec, roots);
    } else {
      HaltedForm(s, spec, down, roots);
    }
  }

  lemma OwnCall(s: Sys, e: Event, w: string)
    requires Safe(s) && Enabled(s, e) && Concerns(s, e, w) && !e.Submit? && WorkLive(DepGraph(s.st), s.st, w)
    ensures WorkLive(DepGraph(s.st), Step(s, e).st, w)
  {
    hide Safe, Step, Linked, WorkLive, Completed;
    if e.Succeed? {
      HeldFacts(s, e.task);
      assert Linked(DepGraph(s.st), s.st.tasks) by { SafeStore(s); SafeLinks(s.st); }
      SucceedForm(s, e.task, e.execution, e.output);
      CompletionOk(s.st.tasks, e.task, e.execution, e.output);
      SucceedOwn(DepGraph(s.st), s.st, Step(s, e).st, e.task, e.execution, e.output, w);
    } else if e.Cancel? {
      CancelForm(s, w);
      CancelledOwn(s, w);
    } else {
      HeldFacts(s, e.task);
      if Retries(s, e.task) {
        RetryForm(s, e.task, e.execution, e.message, e.newId, e.skipped);
        RetryOwn(s, e, w);
      } else {
        FailForm(s, e.task, e.execution, e.message, e.newId, e.skipped);
        GiveUpOwn(s, Step(s, e), e.task, e.execution, e.message, e.skipped);
      }
    }
  }

  lemma CompletionOk(T: Tasks, t: string, x: string, output: string)
    requires t in T && T[t].executionId == x
    ensures Completed(T, t, x, output).err.NoError?
  {
  }

  lemma CancelledOwn(s: Sys, w: string)
    requires Safe(s) && WorkLive(DepGraph(s.st), s.st, w)
    requires Step(s, Cancel(w)).st ==
             s.st.(tasks := Cancelled(s.st.tasks, w), workflows := WithWorkflow(s.st.workflows, w, WorkflowCancelled))
    ensures WorkLive(DepGraph(s.st), Step(s, Cancel(w)).st, w)
  {
    hide StoreSafe, CoordSafe, Step;
    if IsActive(s.st, w) { ActiveIsStored(s.st, w); }
    CancelOwn(DepGraph(s.st), s.st, Step(s, Cancel(w)).st, w);
  }

  lemma RetryOwn(s: Sys, e: Event, w: string)
    requires Safe(s) && e.Fail? && e.task in s.st.tasks && WorkLive(DepGraph(s.st), s.st, w)
    requires Step(s, e).st == s.st.(tasks := Requeued(s.st.tasks, e.task, e.newId))
    ensures WorkLive(DepGraph(s.st), Step(s, e).st, w)
  {
    hide StoreSafe, CoordSafe, Step, Linked, WorkLive;
    SafeLinks(s.st);
    ShapeKeepsGraph(s.st, Step(s, e).st);
    GentleKeepsLive(s.st, Step(s, e).st, w, {e.task});
  }

  /** Every call keeps the store's part, for every workflow. */
  lemma StepWorkLive(s: Sys, e: Event, w: string)
    requires Safe(s) && Enabled(s, e) && WorkLive(DepGraph(s.st), s.st, w)
    requires Safe(Step(s, e)) && AllPermitted(s.st, Txns(s, e))
    ensures WorkLive(DepGraph(Step(s, e).st), Step(s, e).st, w)
  {
    hide Safe, WorkLive, Step, AllPermitted, Enabled, Linked, Gentle;
    if !Concerns(s, e, w) {
      SafeStore(s);
      SafeLinks(s.st);
      AllPermittedSteps(s, e);
      GentleKeepsLive(s.st, Step(s, e).st, w, Handled(s));
    } else if e.Submit? {
      OwnSubmission(s, e.spec, e.down, e.roots);
    } else {
      OwnCall(s, e, w);
      StepShape(s, e);
      ShapeKeepsGraph(s.st, Step(s, e).st);
    }
  }

  // ---- Every call, on the coordinator -------------------------------------------------------

  /** No workflow becomes active. */
  ghost predicate Deactivates(st: Store, st': Store) {
    forall w | IsActive(st', w) :: IsActive(st, w)
  }

  lemma SameCached(st: Store, st': Store, co: Coord, co': Coord)
    requires ActiveCached(st, co) && SameShape(st.tasks, st'.tasks) && Deactivates(st, st')
    requires co'.specCache == co.specCache
    ensures ActiveCached(st', co')
  {
  }

  lemma CheckedDeactivates(st: Store, st': Store, T: Tasks, w: string)
    requires Checked(st.workflows, st'.workflows, T, w)
    ensures Deactivates(st, st')
  {
  }

  lemma SucceedListed(st: Store, st': Store, ready: seq<string>, co: Coord, co': Coord, t: string)
    requires QueuedListed(st, co) && CompletionEffect(st.tasks, st'.tasks, ready, t)
    requires SameShape(st.tasks, st'.tasks) && Deactivates(st, st') && co'.queue == co.queue + ready
    ensures QueuedListed(st', co')
  {
  }

  lemma AssignListed(st: Store, st': Store, co: Coord, co': Coord, t: string, x: string)
    requires QueuedListed(st, co) && co.queue != [] && t == co.queue[0] && co'.queue == co.queue[1..]
    requires st' == st.(tasks := Assigned(st.tasks, t, x)) && t in st.tasks
    ensures QueuedListed(st', co')
  {
    forall u | u in st'.tasks && st'.tasks[u].state.Queued? && IsActive(st', st'.tasks[u].workflowId)
      ensures u in co'.queue
    {
      assert u in co.queue && u != t;
    }
  }

  /** A head without a cached specification belongs to no active workflow. */
  lemma PopListed(st: Store, co: Coord, co': Coord)
    requires QueuedListed(st, co) && ActiveCached(st, co) && co.queue != [] && co.queue[0] !in co.specCache
    requires co'.queue == co.queue[1..]
    ensures QueuedListed(st, co')
  {
    forall u | u in st.tasks && st.tasks[u].state.Queued? && IsActive(st, st.tasks[u].workflowId)
      ensures u in co'.queue
    {
      assert u in co.queue && u != co.queue[0];
    }
  }

  lemma RequeueListed(st: Store, st': Store, co: Coord, co': Coord, order: seq<string>, ids: map<string, string>)
    requires QueuedListed(st, co) && st' == st.(tasks := RequeueAll(st.tasks, Elems(order), ids))
    requires co'.queue == co.queue + order
    ensures QueuedListed(st', co')
  {
  }

  lemma CancelListed(st: Store, st': Store, co: Coord, co': Coord, w: string)
    requires QueuedListed(st, co) && st'.tasks == Cancelled(st.tasks, w) && Deactivates(st, st')
    requires co'.queue == Without(co.queue, OpenTasks(st.tasks, w))
    ensures QueuedListed(st', co')
  {
    WithoutMembers(co.queue, OpenTasks(st.tasks, w));
  }

  /** The queue filter after a skip removes nothing. */
  lemma QueueNotPending(s: Sys, st1: Store, t: string, S: set<string>)
    requires Safe(s) && forall u | u in S :: u in st1.tasks && st1.tasks[u].state.Pending?
    requires forall u | u in st1.tasks && st1.tasks[u].state.Pending? :: u in s.st.tasks && s.st.tasks[u].state.Pending?
    ensures Without(s.co.queue, S) == s.co.queue
  {
    forall u | u in s.co.queue ensures u !in S {
      QueuedFacts(s, u);
    }
    WithoutDisjoint(s.co.queue, S);
  }

  lemma SubmitListed(st: Store, st': Store, co: Coord, co': Coord, spec: WorkflowSpec, roots: seq<string>)
    requires QueuedListed(st, co) && ActiveCached(st, co) && SubmitEffect(st.tasks, st'.tasks, spec, roots)
    requires forall t | t in st.tasks :: st.tasks[t].workflowId != spec.workflowId
    requires st'.workflows == st.workflows[spec.workflowId := WorkflowRunning]
    requires co'.queue == co.queue + roots && co'.specCache.Keys == co.specCache.Keys + Ids(spec.tasks)
    ensures QueuedListed(st', co') && ActiveCached(st', co')
  {
  }

  lemma {:induction false} LoadAllCaches(st: Store, ws: seq<string>)
    ensures forall w, t | w in ws && IsActive(st, w) && w in st.specs && t in Ids(st.specs[w].tasks) ::
              t in LoadAll(st, ws).specCache
  {
    if ws != [] {
      var init, last := ws[..|ws| - 1], ws[|ws| - 1];
      assert ws == init + [last];
      LoadAllCaches(st, init);
      if last in st.specs {
        SpecMapFacts(st.specs[last].tasks);
      }
    }
  }

  lemma SucceedMemory(s: Sys, t: string, x: string, output: string)
    requires Accepts(s.co, t, x) && Completed(s.st.tasks, t, x, output).err.NoError?
    ensures Step(s, Succeed(t, x, output)).co ==
            Released(s.co, {t}).(queue := s.co.queue + Completed(s.st.tasks, t, x, output).ready)
  {
    hide Completed, Txns, Fold;
  }

  lemma SucceedKeepsListed(s: Sys, t: string, x: string, output: string)
    requires Safe(s) && Listed(s) && Accepts(s.co, t, x)
    ensures Listed(Step(s, Succeed(t, x, output)))
  {
    hide StoreSafe, CoordSafe, QueuedListed, ActiveCached, Step, Linked, DepSafe, Completed, CompletionEffect,
         SameShape, Checked;
    var g, c, s' := DepGraph(s.st), Completed(s.st.tasks, t, x, output), Step(s, Succeed(t, x, output));
    HeldFacts(s, t);
    SafeLinks(s.st);
    SucceedForm(s, t, x, output);
    CompletionFrame(g, s.st.tasks, t, x, output);
    SucceedMemory(s, t, x, output);
    CheckedDeactivates(s.st, s'.st, c.tasks, Owner(s.co, t));
    SameCached(s.st, s'.st, s.co, s'.co);
    SucceedListed(s.st, s'.st, c.ready, s.co, s'.co, t);
  }

  lemma AssignKeepsListed(s: Sys, worker: string, x: string)
    requires Safe(s) && Listed(s)
    ensures Listed(Step(s, Assign(worker, x)))
  {
    hide StoreSafe, CoordSafe, QueuedListed, ActiveCached;
    if s.co.queue != [] {
      var t, s' := s.co.queue[0], Step(s, Assign(worker, x));
      assert t in s.co.queue;
      QueuedFacts(s, t);
      if t in s.co.specCache {
        AssignForm(s, worker, x);
        SameCached(s.st, s'.st, s.co, s'.co);
        AssignListed(s.st, s'.st, s.co, s'.co, t, x);
      } else {
        PopListed(s.st, s.co, s'.co);
        SameCached(s.st, s.st, s.co, s'.co);
      }
    }
  }

  lemma RequeueKeepsListed(st: Store, st': Store, co: Coord, co': Coord, order: seq<string>, ids: map<string, string>)
    requires QueuedListed(st, co) && ActiveCached(st, co)
    requires st' == st.(tasks := RequeueAll(st.tasks, Elems(order), ids))
    requires co'.queue == co.queue + order && co'.specCache == co.specCache
    ensures QueuedListed(st', co') && ActiveCached(st', co')
  {
    hide QueuedListed, ActiveCached;
    SameCached(st, st', co, co');
    RequeueListed(st, st', co, co', order, ids);
  }

  lemma RetryKeepsListed(s: Sys, t: string, x: string, msg: string, newId: string, skipped: seq<string>)
    requires Listed(s) && Accepts(s.co, t, x) && t in s.st.tasks && Retries(s, t)
    ensures Listed(Step(s, Fail(t, x, msg, newId, skipped)))
  {
    hide QueuedListed, ActiveCached;
    var s' := Step(s, Fail(t, x, msg, newId, skipped));
    RetryForm(s, t, x, msg, newId, skipped);
    RequeueOne(s.st.tasks, t, newId);
    RequeueKeepsListed(s.st, s'.st, s.co, s'.co, [t], map[t := newId]);
  }

  lemma WorkerDiedKeepsListed(s: Sys, worker: string, tasks: seq<string>, ids: map<string, string>)
    requires Safe(s) && Listed(s) && Enumerates(tasks, HeldBy(s.co, worker))
    ensures Listed(Step(s, WorkerDied(worker, tasks, ids)))
  {
    hide Safe, QueuedListed, ActiveCached;
    var s' := Step(s, WorkerDied(worker, tasks, ids));
    SameHeldKeys(s);
    forall t | t in tasks ensures t in s.st.tasks {
      HeldFacts(s, t);
    }
    RequeueForm(s.st, tasks, ids);
    PresentAll(s.st.tasks, tasks);
    RequeueKeepsListed(s.st, s'.st, s.co, s'.co, tasks, ids);
  }

  lemma CancelKeepsListed(st: Store, st': Store, co: Coord, co': Coord, w: string)
    requires QueuedListed(st, co) && ActiveCached(st, co)
    requires st'.tasks == Cancelled(st.tasks, w) && Deactivates(st, st')
    requires co'.queue == Without(co.queue, OpenTasks(st.tasks, w)) && co'.specCache == co.specCache
    ensures QueuedListed(st', co') && ActiveCached(st', co')
  {
    hide QueuedListed, ActiveCached;
    SameCached(st, st', co, co');
    CancelListed(st, st', co, co', w);
  }

  lemma FailedListed(st: Store, co: Coord, co1: Coord, t: string, msg: string, n: int)
    requires QueuedListed(st, co) && ActiveCached(st, co) && co1.queue == co.queue && co1.specCache == co.specCache
    ensures var st1 := st.(tasks := FailedWith(st.tasks, t, msg, n)); QueuedListed(st1, co1) && ActiveCached(st1, co1)
  {
  }

  lemma GiveUpKeepsListed(s: Sys, s': Sys, t: string, x: string, msg: string, skipped: seq<string>)
    requires Safe(s) && Listed(s) && Accepts(s.co, t, x) && t in s.st.tasks && !Retries(s, t)
    requires FailedForm(s, s'.st, t, msg, skipped) && s'.co == FailCoord(s, t, x, msg, skipped)
    requires SkipsDownstream(s, t, x) ==> Enumerates(skipped, SkipSet(FailureRecords(s, t, msg), t))
    ensures Listed(s')
  {
    hide Safe, QueuedListed, ActiveCached, Linked, Enumerates;
    var n, w := s.st.tasks[t].attemptCount + 1, Owner(s.co, t);
    var st1, co1 := s.st.(tasks := FailedWith(s.st.tasks, t, msg, n)), Released(s.co, {t});
    HeldFacts(s, t);
    FailedListed(s.st, s.co, co1, t, msg, n);
    if Policy(s.co, w).FailFast? {
      CancelKeepsListed(st1, s'.st, co1, s'.co, w);
    } else {
      AfterFailTxn(s, t, msg);
      var S := SkipSet(st1.tasks, t);
      SameElems(skipped, S);
      QueueNotPending(s, st1, t, S);
      CheckedDeactivates(st1, s'.st, s'.st.tasks, w);
      SkipKeepsListed(st1, s'.st, co1, s'.co, S);
    }
  }

  lemma SkipKeepsListed(st: Store, st': Store, co: Coord, co': Coord, S: set<string>)
    requires QueuedListed(st, co) && ActiveCached(st, co)
    requires st'.tasks == SkipAll(st.tasks, S) && Deactivates(st, st')
    requires co'.queue == co.queue && co'.specCache == co.specCache
    ensures QueuedListed(st', co') && ActiveCached(st', co')
  {
  }

  lemma FailKeepsListed(s: Sys, t: string, x: string, msg: string, newId: string, skipped: seq<string>)
    requires Safe(s) && Listed(s) && Resolved(s, Fail(t, x, msg, newId, skipped)) && Accepts(s.co, t, x)
    ensures Listed(Step(s, Fail(t, x, msg, newId, skipped)))
  {
    hide Listed, Safe;
    HeldFacts(s, t);
    if Retries(s, t) {
      RetryKeepsListed(s, t, x, msg, newId, skipped);
    } else {
      FailForm(s, t, x, msg, newId, skipped);
      GiveUpKeepsListed(s, Step(s, Fail(t, x, msg, newId, skipped)), t, x, msg, skipped);
    }
  }

  lemma SubmitKeepsListed(s: Sys, spec: WorkflowSpec, down: Graph, roots: seq<string>)
    requires Safe(s) && Listed(s) && Enabled(s, Submit(spec, down, roots)) && Admitted(spec)
    ensures Listed(Step(s, Submit(spec, down, roots)))
  {
    hide StoreSafe, CoordSafe, Step, IsDag, SubmitEffect, Registered, SpecMap;
    var s' := Step(s, Submit(spec, down, roots));
    SafeSpecs(s.st);
    OldWorkflows(s.st, spec.workflowId);
    if Accepted(spec) {
      hide QueuedListed, ActiveCached;
      SubmitForm(s, spec, down, roots);
      SubmitFrame(s.st.tasks, spec, down, roots);
      SpecMapFacts(spec.tasks);
      AcceptedCoord(s, spec, down, roots);
      SubmitListed(s.st, s'.st, s.co, s'.co, spec, roots);
    } else {
      HaltedForm(s, spec, down, roots);
    }
  }

  lemma AcceptedCoord(s: Sys, spec: WorkflowSpec, down: Graph, roots: seq<string>)
    requires Accepted(spec)
    ensures Step(s, Submit(spec, down, roots)).co == SubmitCoord(s.co, spec, roots)
  {
  }

  /** Recovery lists and caches what it must, whatever safe store it starts from. */
  lemma RestartListed(st: Store, co: Coord, ws: seq<string>, queued: seq<string>, running: seq<string>,
                      ids: map<string, string>)
    requires StoreSafe(st) && RestartOrders(st, ws, queued, running)
    ensures Listed(Step(Sys(st, co), Restart(ws, queued, running, ids)))
  {
    hide StoreSafe, Registered, LoadAll, Step, Fold, RequeueTxns, Present, QueuedListed, ActiveCached;
    var s' := Step(Sys(st, co), Restart(ws, queued, running, ids));
    var co0 := LoadAll(st, ws).(queue := queued);
    RestartForm(st, co, ws, queued, running, ids);
    SafeSpecs(st);
    LoadedListed(st, ws, queued);
    RequeueForm(st, running, ids);
    PresentAll(st.tasks, running);
    RequeueKeepsListed(st, s'.st, co0, s'.co, running, ids);
  }

  lemma LoadedListed(st: Store, ws: seq<string>, queued: seq<string>)
    requires Registered(st) && Enumerates(ws, st.workflows.Keys) && Enumerates(queued, InState(st.tasks, Queued))
    ensures var co := LoadAll(st, ws).(queue := queued); QueuedListed(st, co) && ActiveCached(st, co)
  {
    LoadAllCaches(st, ws);
  }

  lemma StepListed(s: Sys, e: Event)
    requires Safe(s) && Listed(s) && Enabled(s, e)
    ensures Listed(Step(s, e))
  {
    hide StoreSafe, CoordSafe, QueuedListed, ActiveCached;
    match e
    case Submit(spec, down, roots) => if Admitted(spec) { SubmitKeepsListed(s, spec, down, roots); }
    case Assign(worker, x) => AssignKeepsListed(s, worker, x);
    case Succeed(t, x, output) => if Accepts(s.co, t, x) { SucceedKeepsListed(s, t, x, output); }
    case Fail(t, x, msg, newId, skipped) => if Accepts(s.co, t, x) { FailKeepsListed(s, t, x, msg, newId, skipped); }
    case Cancel(w) =>
      CancelForm(s, w);
      CancelKeepsListed(s.st, Step(s, e).st, s.co, Step(s, e).co, w);
    case WorkerDied(worker, tasks, ids) => WorkerDiedKeepsListed(s, worker, tasks, ids);
    case Restart(ws, queued, running, ids) => RestartListed(s.st, s.co, ws, queued, running, ids);
  }

  // ---- Every run ----------------------------------------------------------------------------

  lemma StepKeepsLive(s: Sys, e: Event)
    requires Live(s) && Enabled(s, e)
    ensures Live(Step(s, e))
  {
    hide Safe, Listed, WorkLive, Step, Enabled, AllPermitted;
    StepKeepsSafe(s, e);
    StepPermitted(s, e);
    StepListed(s, e);
    forall w ensures WorkLive(DepGraph(Step(s, e).st), Step(s, e).st, w) {
      StepWorkLive(s, e, w);
    }
  }

  lemma InitialLive()
    ensures Live(INITIAL)
  {
    assert DepGraph(INITIAL.st) == map[];
  }

  /** Safety and liveness hold in every state of every run. */
  lemma {:induction false} RunLive(ss: seq<Sys>, es: seq<Event>, i: nat)
    requires IsRun(ss, es) && i < |ss|
    ensures Live(ss[i])
  {
    hide Live, Step, Enabled;
    if i == 0 {
      InitialLive();
    } else {
      RunLive(ss, es, i - 1);
      StepKeepsLive(ss[i - 1], es[i - 1]);
    }
  }

  lemma RunSafe(ss: seq<Sys>, es: seq<Event>, i: nat)
    requires IsRun(ss, es) && i < |ss|
    ensures Safe(ss[i])
  {
    RunLive(ss, es, i);
  }
}
