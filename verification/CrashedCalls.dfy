/** What a crash in the middle of a call costs. Dependency safety survives it, as
    CrashRuns shows; progress does not, and this module says exactly when. */
module CrashedCalls {
  import opened Types
  import opened Graphs
  import opened Dags
  import opened Stores
  import opened Systems
  import opened StoreSafety
  import opened StepForms
  import opened Permits
  import opened Safety
  import opened Foreign
  import opened Liveness
  import opened Progress
  import opened CrashRuns
  import opened History
  import opened Outcomes

  /** Workflow `w` has a task that was queued or handed out. */
  ghost predicate InFlight(T: Tasks, w: string) {
    exists t :: t in T && T[t].workflowId == w && (T[t].state.Queued? || T[t].state.Running?)
  }

  // ---- Every state of every run with crashes --------------------------------------------------

  lemma ActListed(s: Sys, a: Action)
    requires Safe(s) && Listed(s) && CanAct(s, a)
    ensures Listed(Act(s, a))
  {
    hide StoreSafe, CoordSafe, Listed, AllPermitted, RestartOrders, Step;
    if a.Call? {
      StepListed(s, a.event);
    } else {
      StepPermitted(s, a.event);
      PrefixSafe(s.st, Txns(s, a.event), a.done);
      RestartListed(Leftover(s, a.event, a.done), EMPTY_COORD, a.workflows, a.queued, a.running, a.ids);
    }
  }

  lemma InitialListed()
    ensures Listed(INITIAL)
  {
  }

  lemma {:induction false} CrashRunListed(ss: seq<Sys>, acts: seq<Action>, i: nat)
    requires IsCrashRun(ss, acts) && i < |ss|
    ensures Listed(ss[i])
  {
    hide Safe, Listed, CanAct, Act;
    if i == 0 {
      InitialListed();
    } else {
      CrashRunListed(ss, acts, i - 1);
      CrashRunSafe(ss, acts, i - 1);
      assert CanAct(ss[i - 1], acts[i - 1]) && ss[i] == Act(ss[i - 1], acts[i - 1]);
      ActListed(ss[i - 1], acts[i - 1]);
    }
  }

  /** In every state of every run, wherever the crashes fell, an active workflow
      can make progress exactly when the store has a QUEUED or RUNNING task of it. */
  lemma CrashProgress(ss: seq<Sys>, acts: seq<Action>, i: nat, w: string)
    requires IsCrashRun(ss, acts) && i < |ss| && IsActive(ss[i].st, w)
    ensures CanProgress(ss[i], w) <==> InFlight(ss[i].st.tasks, w)
  {
    hide IsCrashRun, Moving;
    CrashRunSafe(ss, acts, i);
    CrashRunListed(ss, acts, i);
    ListedProgress(ss[i], w);
  }

  lemma ListedProgress(s: Sys, w: string)
    requires Safe(s) && Listed(s) && IsActive(s.st, w)
    ensures CanProgress(s, w) <==> InFlight(s.st.tasks, w)
  {
    hide Safe, Listed, IsActive;
    if InFlight(s.st.tasks, w) {
      var t :| t in s.st.tasks && s.st.tasks[t].workflowId == w &&
        (s.st.tasks[t].state.Queued? || s.st.tasks[t].state.Running?);
      QueuedMoves(s, t);
    }
    if CanProgress(s, w) {
      var t :| t in s.st.tasks && s.st.tasks[t].workflowId == w && Moving(s, t);
      MovingInFlight(s, t);
    }
  }

  lemma MovingInFlight(s: Sys, t: string)
    requires Safe(s) && t in s.st.tasks && Moving(s, t) && IsActive(s.st, s.st.tasks[t].workflowId)
    ensures s.st.tasks[t].state.Queued? || s.st.tasks[t].state.Running?
  {
    hide StoreSafe;
  }

  // ---- A call cut short strands only its own workflow -----------------------------------------

  /** The crash leaves some, but not all, transactions of a call about workflow `w`. */
  ghost predicate CutShort(s: Sys, a: Action, w: string) {
    a.CrashIn? && Concerns(s, a.event, w) && 0 < a.done < |Txns(s, a.event)|
  }

  lemma LeftoverLive(s: Sys, a: Action, w: string)
    requires Safe(s) && CanAct(s, a) && a.CrashIn? && !CutShort(s, a, w) && WorkLive(DepGraph(s.st), s.st, w)
    ensures WorkLive(DepGraph(Leftover(s, a.event, a.done)), Leftover(s, a.event, a.done), w)
  {
    hide Safe, WorkLive, Enabled, AllPermitted, Concerns, RestartOrders, Txns, Gentle, Linked, Fold, NextCoord;
    var e, txs := a.event, Txns(s, a.event);
    StepPermitted(s, e);
    if a.done == 0 {
      NoTxn(s.st, txs);
    } else if a.done == |txs| {
      assert txs[..a.done] == txs;
      StepKeepsSafe(s, e);
      StepWorkLive(s, e, w);
    } else {
      SafeStore(s);
      SafeLinks(s.st);
      ForeignPrefix(s, e, a.done, w);
      GentleKeepsLive(s.st, Leftover(s, e, a.done), w, Handled(s));
    }
  }

  lemma RestartWorkLive(st: Store, ws: seq<string>, queued: seq<string>, running: seq<string>, ids: map<string, string>,
                        w: string)
    requires Linked(DepGraph(st), st.tasks) && WorkLive(DepGraph(st), st, w)
    ensures var st' := Step(Sys(st, EMPTY_COORD), Restart(ws, queued, running, ids)).st; WorkLive(DepGraph(st'), st', w)
  {
    hide Step, Fold, RequeueTxns, Linked, WorkLive;
    RestartForm(st, EMPTY_COORD, ws, queued, running, ids);
    RequeueForm(st, running, ids);
    GentleKeepsLive(st, Step(Sys(st, EMPTY_COORD), Restart(ws, queued, running, ids)).st, w, Elems(running));
  }

  lemma ActWorkLive(s: Sys, a: Action, w: string)
    requires Safe(s) && CanAct(s, a) && !CutShort(s, a, w) && WorkLive(DepGraph(s.st), s.st, w)
    ensures WorkLive(DepGraph(Act(s, a).st), Act(s, a).st, w)
  {
    hide StoreSafe, CoordSafe, WorkLive, Enabled, AllPermitted, RestartOrders, Step, Linked;
    StepPermitted(s, a.event);
    if a.Call? {
      StepKeepsSafe(s, a.event);
      StepWorkLive(s, a.event, w);
    } else {
      LeftoverLive(s, a, w);
      PrefixSafe(s.st, Txns(s, a.event), a.done);
      SafeLinks(Leftover(s, a.event, a.done));
      RestartWorkLive(Leftover(s, a.event, a.done), a.workflows, a.queued, a.running, a.ids, w);
    }
  }

  lemma {:induction false} UncutLive(ss: seq<Sys>, acts: seq<Action>, i: nat, w: string)
    requires IsCrashRun(ss, acts) && i < |ss| && forall k | 0 <= k < i :: !CutShort(ss[k], acts[k], w)
    ensures WorkLive(DepGraph(ss[i].st), ss[i].st, w)
  {
    if i > 0 {
      hide Safe, WorkLive, CanAct, Act, CutShort;
      UncutLive(ss, acts, i - 1, w);
      CrashRunSafe(ss, acts, i - 1);
      assert CanAct(ss[i - 1], acts[i - 1]);
      ActWorkLive(ss[i - 1], acts[i - 1], w);
    }
  }

  /** Deadlock freedom with crashes at any transaction boundary: as long as none
      cut a call about workflow `w` short, `w` when active can make progress if and
      only if it has tasks and the store accepts their ids. */
  lemma OnlyOwnStranded(ss: seq<Sys>, acts: seq<Action>, i: nat, w: string)
    requires IsCrashRun(ss, acts) && i < |ss| && forall k | 0 <= k < i :: !CutShort(ss[k], acts[k], w)
    requires IsActive(ss[i].st, w)
    ensures w in ss[i].st.specs && (CanProgress(ss[i], w) <==> Runnable(ss[i].st.specs[w]))
  {
    hide IsCrashRun, CutShort, Listed, WorkLive, Safe;
    UncutLive(ss, acts, i, w);
    CrashRunSafe(ss, acts, i);
    CrashRunListed(ss, acts, i);
    GoingCanProgress(ss[i], w);
  }

  // ---- A stuck workflow stays stuck -------------------------------------------------------------

  /** Nothing of a stuck workflow is queued or handed out. */
  lemma StuckUnhandled(s: Sys, w: string, t: string)
    requires Safe(s) && Listed(s) && IsActive(s.st, w) && !CanProgress(s, w)
    requires t in s.st.tasks && s.st.tasks[t].workflowId == w
    ensures t !in Handled(s) && !s.st.tasks[t].state.Queued?
  {
    hide StoreSafe;
    assert !Moving(s, t);
  }

  lemma StuckUnconcerned(s: Sys, e: Event, w: string)
    requires Safe(s) && Listed(s) && IsActive(s.st, w) && !CanProgress(s, w) && Enabled(s, e) && e != Cancel(w)
    requires !Idle(s, e)
    ensures !Concerns(s, e, w)
  {
    hide StoreSafe, CoordSafe, Listed, IsActive, CanProgress, IsDag;
    ActiveIsStored(s.st, w);
    if e.Succeed? || e.Fail? {
      HeldFacts(s, e.task);
      if Owner(s.co, e.task) == w { StuckUnhandled(s, w, e.task); }
    }
  }

  /** Nothing but its cancellation touches a stuck workflow, however far the call gets. */
  lemma StuckPrefix(s: Sys, e: Event, k: nat, w: string)
    requires Safe(s) && Listed(s) && IsActive(s.st, w) && !CanProgress(s, w) && Enabled(s, e) && e != Cancel(w)
    requires k <= |Txns(s, e)|
    ensures IsActive(Fold(s.st, Txns(s, e)[..k]), w) && !InFlight(Fold(s.st, Txns(s, e)[..k]).tasks, w)
  {
    hide Safe, Listed, CanProgress, Enabled, AllPermitted, Concerns, Fold, Handled;
    var st1 := Fold(s.st, Txns(s, e)[..k]);
    StepPermitted(s, e);
    if Idle(s, e) {
      assert Txns(s, e) == [] && k == 0;
      NoTxn(s.st, Txns(s, e));
      GentleSelf(s.st, w, Handled(s));
      assert Gentle(s.st, st1, w, Handled(s));
    } else {
      StuckUnconcerned(s, e, w);
      ForeignPrefix(s, e, k, w);
    }
    hide Txns, Idle;
    forall t | t in st1.tasks && st1.tasks[t].workflowId == w
      ensures !st1.tasks[t].state.Queued? && !st1.tasks[t].state.Running?
    {
      StuckUnhandled(s, w, t);
      if s.st.tasks[t].state.Running? { RunningHandled(s, t); }
    }
  }

  lemma RunningHandled(s: Sys, t: string)
    requires t in s.st.tasks && s.st.tasks[t].state.Running?
    ensures t in Handled(s)
  {
  }

  lemma StuckAct(s: Sys, a: Action, w: string)
    requires Safe(s) && Listed(s) && IsActive(s.st, w) && !CanProgress(s, w) && CanAct(s, a) && a.event != Cancel(w)
    ensures IsActive(Act(s, a).st, w) && !InFlight(Act(s, a).st.tasks, w)
  {
    hide Safe, Listed, CanProgress, Enabled, Fold, NextCoord, Txns, RestartOrders;
    var txs := Txns(s, a.event);
    if a.Call? {
      assert txs[..|txs|] == txs;
      StuckPrefix(s, a.event, |txs|, w);
    } else {
      StuckPrefix(s, a.event, a.done, w);
      RestartFlight(Leftover(s, a.event, a.done), a.workflows, a.queued, a.running, a.ids, w);
    }
  }

  lemma CrashRunLength(ss: seq<Sys>, acts: seq<Action>)
    requires IsCrashRun(ss, acts)
    ensures |ss| == |acts| + 1
  {
  }

  lemma StuckOnce(ss: seq<Sys>, acts: seq<Action>, i: nat, w: string)
    requires IsCrashRun(ss, acts) && i < |acts| && IsActive(ss[i].st, w) && !CanProgress(ss[i], w) &&
             acts[i].event != Cancel(w)
    ensures IsActive(ss[i + 1].st, w) && !CanProgress(ss[i + 1], w)
  {
    hide Safe, Listed, CanProgress, CanAct, Act, InFlight;
    CrashRunSafe(ss, acts, i);
    CrashRunListed(ss, acts, i);
    assert CanAct(ss[i], acts[i]) && ss[i + 1] == Act(ss[i], acts[i]);
    StuckAct(ss[i], acts[i], w);
    CrashProgress(ss, acts, i + 1, w);
  }

  /** An active workflow without a task to run stays so, whatever calls, crashes and
      restarts follow, until it is cancelled. */
  lemma {:induction false} StuckForever(ss: seq<Sys>, acts: seq<Action>, i: nat, j: nat, w: string)
    requires IsCrashRun(ss, acts) && i <= j < |ss| && IsActive(ss[i].st, w) && !CanProgress(ss[i], w)
    requires forall k | i <= k < j :: acts[k].event != Cancel(w)
    ensures IsActive(ss[j].st, w) && !CanProgress(ss[j], w)
    decreases j
  {
    if i < j {
      hide IsCrashRun, CanProgress, IsActive;
      assert |ss| == |acts| + 1 by { CrashRunLength(ss, acts); }
      StuckForever(ss, acts, i, j - 1, w);
      StuckOnce(ss, acts, j - 1, w);
    }
  }

  // ---- Recovery ----------------------------------------------------------------------------------

  /** Recovery restores the coordinator at every restart, whatever store a crash left. */
  lemma RecoveryAfterCrash(ss: seq<Sys>, acts: seq<Action>, i: nat)
    requires IsCrashRun(ss, acts) && i < |acts|
    ensures acts[i].CrashIn? ==> Recovered(Leftover(ss[i], acts[i].event, acts[i].done), ss[i + 1])
    ensures acts[i].Call? && acts[i].event.Restart? ==> Recovered(ss[i].st, ss[i + 1])
  {
    hide StoreSafe, CoordSafe, AllPermitted, Recovered, RestartOrders, Step;
    var s, a := ss[i], acts[i];
    assert CanAct(s, a) && ss[i + 1] == Act(s, a);
    CrashRunSafe(ss, acts, i);
    if a.CrashIn? {
      StepPermitted(s, a.event);
      PrefixSafe(s.st, Txns(s, a.event), a.done);
      RecoveryRestores(Leftover(s, a.event, a.done), a.workflows, a.queued, a.running, a.ids);
    } else if a.event.Restart? {
      var e := a.event;
      RestartForm(s.st, s.co, e.workflows, e.queued, e.running, e.ids);
      RestartForm(s.st, EMPTY_COORD, e.workflows, e.queued, e.running, e.ids);
      RecoveryRestores(s.st, e.workflows, e.queued, e.running, e.ids);
    }
  }

  // ---- Submission ------------------------------------------------------------------------------

  /** The records of a submission cut short: the roots queued so far are in flight, nothing else is. */
  lemma SubmittedInFlight(T: Tasks, spec: WorkflowSpec, down: Graph, done: seq<string>)
    requires forall t | t in T :: t !in Ids(spec.tasks) && T[t].workflowId != spec.workflowId
    requires forall t | t in done :: t in Ids(spec.tasks)
    ensures InFlight(SubmittedTasks(T, spec, down, done), spec.workflowId) <==> done != []
  {
    var T' := SubmittedTasks(T, spec, down, done);
    InitializedEffect(T, spec.workflowId, spec.tasks, InDegrees(spec.tasks), down);
    if done != [] {
      assert done[0] in done && T'[done[0]].state.Queued? && T'[done[0]].workflowId == spec.workflowId;
    }
  }

  /** A crash after a submission has made its workflow active: the workflow can
      make progress exactly when a root had already been queued. Otherwise it is
      active, restart queues none of its tasks, and it is stuck. */
  lemma CrashedSubmission(ss: seq<Sys>, acts: seq<Action>, i: nat)
    requires IsCrashRun(ss, acts) && i < |acts| && acts[i].CrashIn? && acts[i].event.Submit?
    requires Admitted(acts[i].event.spec) && acts[i].done >= 2
    ensures var w := acts[i].event.spec.workflowId;
            IsActive(ss[i + 1].st, w) && (CanProgress(ss[i + 1], w) <==> acts[i].done > 3)
  {
    hide StoreSafe, CoordSafe, IsDag, CanProgress, InFlight, Step, RestartOrders, Registered, SubmittedTasks;
    var s, a := ss[i], acts[i];
    var e, w := a.event, a.event.spec.workflowId;
    assert CanAct(s, a) && ss[i + 1] == Act(s, a);
    CrashRunSafe(ss, acts, i);
    SubmitPrefix(s.st, e.spec, e.down, e.roots, a.done);
    SafeSpecs(s.st);
    OldWorkflows(s.st, w);
    FreshFlight(s.st, w);
    if a.done >= 3 {
      assert forall t | t in e.roots[..a.done - 3] :: t in e.roots && t in Ids(e.spec.tasks);
      SubmittedInFlight(s.st.tasks, e.spec, e.down, e.roots[..a.done - 3]);
    }
    RestartFlight(Leftover(s, e, a.done), a.workflows, a.queued, a.running, a.ids, w);
    CrashProgress(ss, acts, i + 1, w);
  }

  /** A restart keeps which workflows are active and which have a task in flight. */
  lemma RestartFlight(st: Store, ws: seq<string>, queued: seq<string>, running: seq<string>, ids: map<string, string>,
                      w: string)
    ensures var st' := Step(Sys(st, EMPTY_COORD), Restart(ws, queued, running, ids)).st;
            st'.workflows == st.workflows && (InFlight(st.tasks, w) ==> InFlight(st'.tasks, w))
    ensures RestartOrders(st, ws, queued, running) ==>
            var st' := Step(Sys(st, EMPTY_COORD), Restart(ws, queued, running, ids)).st;
            && (InFlight(st'.tasks, w) ==> InFlight(st.tasks, w))
            && forall t | t in st.tasks && !st.tasks[t].state.Running? :: t in st'.tasks && st'.tasks[t] == st.tasks[t]
  {
    hide Step, Fold, RequeueTxns;
    var st' := Step(Sys(st, EMPTY_COORD), Restart(ws, queued, running, ids)).st;
    RestartForm(st, EMPTY_COORD, ws, queued, running, ids);
    RequeueForm(st, running, ids);
    if InFlight(st.tasks, w) {
      var t :| t in st.tasks && st.tasks[t].workflowId == w &&
        (st.tasks[t].state.Queued? || st.tasks[t].state.Running?);
      assert t in st'.tasks;
    }
    if InFlight(st'.tasks, w) && RestartOrders(st, ws, queued, running) {
      var t :| t in st'.tasks && st'.tasks[t].workflowId == w &&
        (st'.tasks[t].state.Queued? || st'.tasks[t].state.Running?);
      assert t in st.tasks && (t in running ==> st.tasks[t].state.Running?);
    }
  }

  lemma FreshFlight(st: Store, w: string)
    requires forall t | t in st.tasks :: st.tasks[t].workflowId != w
    ensures !InFlight(st.tasks, w)
  {
  }

  // ---- Failure ---------------------------------------------------------------------------------

  /** A crash between recording FAILED and skipping what depends on the task: the
      dependents stay PENDING, and the workflow can make progress exactly when
      some other task of it was QUEUED or RUNNING. */
  lemma CrashedFailure(ss: seq<Sys>, acts: seq<Action>, i: nat)
    requires IsCrashRun(ss, acts) && i < |acts| && acts[i].CrashIn? && acts[i].done == 1
    requires GivesUp(ss[i], acts[i].event)
    requires IsActive(ss[i].st, ss[i].st.tasks[acts[i].event.task].workflowId)
    ensures var T, T', t := ss[i].st.tasks, ss[i + 1].st.tasks, acts[i].event.task;
            && t in T' && T'[t].state.Failed?
            && (forall u | u in T && T[u].state.Pending? :: u in T' && T'[u] == T[u])
    ensures var T, t := ss[i].st.tasks, acts[i].event.task;
            && IsActive(ss[i + 1].st, T[t].workflowId)
            && (CanProgress(ss[i + 1], T[t].workflowId) <==> InFlight(T - {t}, T[t].workflowId))
  {
    hide StoreSafe, CoordSafe, CanProgress, InFlight, Step, RestartOrders;
    var s, a := ss[i], acts[i];
    var e, t, w := a.event, a.event.task, s.st.tasks[a.event.task].workflowId;
    assert CanAct(s, a) && ss[i + 1] == Act(s, a);
    CrashRunSafe(ss, acts, i);
    HeldFacts(s, t);
    var tx := FailTask(t, e.message, s.st.tasks[t].attemptCount + 1);
    assert Txns(s, e)[..1] == [tx];
    FoldOne(s.st, tx);
    var st1 := Leftover(s, e, 1);
    FailedFlight(s.st.tasks, st1.tasks, t, e.message, s.st.tasks[t].attemptCount + 1);
    RestartFlight(st1, a.workflows, a.queued, a.running, a.ids, w);
    CrashProgress(ss, acts, i + 1, w);
  }

  lemma FailedFlight(T: Tasks, T': Tasks, t: string, msg: string, n: int)
    requires t in T && T' == FailedWith(T, t, msg, n)
    ensures T'[t].state.Failed? && T'[t].workflowId == T[t].workflowId && (forall u | u in T && u != t :: T'[u] == T[u])
    ensures InFlight(T', T[t].workflowId) <==> InFlight(T - {t}, T[t].workflowId)
  {
    var w, R := T[t].workflowId, T - {t};
    if InFlight(T', w) {
      var u :| u in T' && T'[u].workflowId == w && (T'[u].state.Queued? || T'[u].state.Running?);
      assert u in R && R[u] == T'[u];
    }
    if InFlight(R, w) {
      var u :| u in R && R[u].workflowId == w && (R[u].state.Queued? || R[u].state.Running?);
      assert u in T' && T'[u] == R[u];
    }
  }

  // ---- The last transaction --------------------------------------------------------------------

  lemma {:induction false} FoldKeepsWorkflows(st: Store, txs: seq<Txn>)
    requires forall tx | tx in txs :: !tx.SetWorkflow?
    ensures Fold(st, txs).workflows == st.workflows
  {
    if txs != [] {
      var init, last := txs[..|txs| - 1], txs[|txs| - 1];
      assert txs == init + [last];
      FoldKeepsWorkflows(st, init);
    }
  }

  /** A result or cancellation about to write a final state for `w` has left it nothing to do. */
  lemma AboutToConclude(s: Sys, e: Event, w: string, v: WorkflowState)
    requires Safe(s) && !e.Submit? && Txns(s, e) != [] && Txns(s, e)[|Txns(s, e)| - 1] == SetWorkflow(w, v)
    ensures AllTerminal(Step(s, e).st.tasks, w)
    ensures forall tx | tx in Txns(s, e)[..|Txns(s, e)| - 1] :: !tx.SetWorkflow?
  {
    hide Safe, Completed;
    match e
    case Succeed(t, x, output) => SucceedForm(s, t, x, output);
    case Fail(t, x, msg, newId, skipped) => FailForm(s, t, x, msg, newId, skipped);
    case Cancel(u) => CancelForm(s, u);
    case _ =>
  }

  /** A crash just before a call writes its workflow's final state: all tasks are
      terminal, the workflow is still active, and nothing is left that would ever
      conclude it. */
  lemma CrashedConclusion(ss: seq<Sys>, acts: seq<Action>, i: nat, w: string, v: WorkflowState)
    requires IsCrashRun(ss, acts) && i < |acts| && acts[i].CrashIn? && !acts[i].event.Submit?
    requires var txs := Txns(ss[i], acts[i].event); acts[i].done + 1 == |txs| && txs[acts[i].done] == SetWorkflow(w, v)
    requires IsActive(ss[i].st, w)
    ensures IsActive(ss[i + 1].st, w) && AllTerminal(ss[i + 1].st.tasks, w) && !CanProgress(ss[i + 1], w)
  {
    hide StoreSafe, CoordSafe, CanProgress, Step, Txns, RestartOrders, Enabled, InFlight, AllTerminal;
    var s, a := ss[i], acts[i];
    assert CanAct(s, a) && ss[i + 1] == Act(s, a);
    CrashRunSafe(ss, acts, i);
    AboutToConclude(s, a.event, w, v);
    LeftoverConcluded(s, a.event, w, v);
    var st1 := Leftover(s, a.event, a.done);
    RestartFlight(st1, a.workflows, a.queued, a.running, a.ids, w);
    TerminalFlight(st1.tasks, w);
    RestartTerminal(st1, a.workflows, a.queued, a.running, a.ids, w);
    CrashProgress(ss, acts, i + 1, w);
  }

  lemma LeftoverConcluded(s: Sys, e: Event, w: string, v: WorkflowState)
    requires Txns(s, e) != [] && Txns(s, e)[|Txns(s, e)| - 1] == SetWorkflow(w, v)
    requires forall tx | tx in Txns(s, e)[..|Txns(s, e)| - 1] :: !tx.SetWorkflow?
    ensures var st1 := Leftover(s, e, |Txns(s, e)| - 1);
            st1.tasks == Step(s, e).st.tasks && st1.workflows == s.st.workflows
  {
    hide Txns;
    FoldKeepsWorkflows(s.st, Txns(s, e)[..|Txns(s, e)| - 1]);
  }

  lemma TerminalFlight(T: Tasks, w: string)
    requires AllTerminal(T, w)
    ensures !InFlight(T, w)
  {
  }

  lemma RestartTerminal(st: Store, ws: seq<string>, queued: seq<string>, running: seq<string>, ids: map<string, string>,
                        w: string)
    requires RestartOrders(st, ws, queued, running) && AllTerminal(st.tasks, w)
    ensures AllTerminal(Step(Sys(st, EMPTY_COORD), Restart(ws, queued, running, ids)).st.tasks, w)
  {
    hide Step, Fold, RequeueTxns;
    RestartForm(st, EMPTY_COORD, ws, queued, running, ids);
    RequeueForm(st, running, ids);
  }
}
