/** What a task can go through in a run: the transition table as the code
    implements it, finality of terminal states, and at-most-once completion
    under the latest execution id. */
module History {
  import opened Types
  import opened Seqs
  import opened Graphs
  import opened Stores
  import opened Systems
  import opened StoreSafety
  import opened StepForms
  import opened Safety
  import opened Liveness

  /** The call gives up on its task: retries are used up. */
  predicate GivesUp(s: Sys, e: Event) {
    e.Fail? && Accepts(s.co, e.task, e.execution) && e.task in s.st.tasks && !Retries(s, e.task)
  }

  /** The call cancels every unfinished task of workflow `w`. */
  predicate Cancels(s: Sys, e: Event, w: string) {
    || e == Cancel(w)
    || (GivesUp(s, e) && w != "" && Owner(s.co, e.task) == w && Policy(s.co, w).FailFast?)
  }

  /** The call goes on to skip what depends on its task, in workflow `w`. */
  predicate Skips(s: Sys, e: Event, w: string) {
    GivesUp(s, e) && SkipsDownstream(s, e.task, e.execution) && Owner(s.co, e.task) == w
  }

  /** The call hands out the head of the queue. */
  predicate HandsOut(s: Sys, e: Event, t: string) {
    e.Assign? && s.co.queue != [] && s.co.queue[0] == t && t in s.co.specCache && t in s.st.tasks
  }

  predicate Requeues(s: Sys, e: Event, t: string) {
    || (e.Fail? && e.task == t && Accepts(s.co, t, e.execution) && t in s.st.tasks && Retries(s, t))
    || (e.WorkerDied? && t in HeldBy(s.co, e.worker))
    || e.Restart?
  }

  /** The call is an accepted success of the one task that `t` was still waiting for. */
  ghost predicate Unlocks(s: Sys, e: Event, t: string) {
    && e.Succeed? && Accepts(s.co, e.task, e.execution)
    && t in DepGraph(s.st) && WaitsOnlyFor(DepGraph(s.st), s.st.tasks, t, e.task)
  }

  /** The transitions a call can make, from state `a` to state `b` of task `t`.
      `held` tasks are handed out: RUNNING, or SKIPPED while they were RUNNING. */
  ghost predicate Transition(s: Sys, e: Event, t: string, a: TaskState, b: TaskState) {
    var held := t in s.co.executions && (a.Running? || a.Skipped?);
    match b
    case Pending => a.Pending?
    case Queued => a.Queued? || (a.Pending? && Unlocks(s, e, t)) || (held && Requeues(s, e, t))
    case Running => a.Running? || (a.Queued? && HandsOut(s, e, t))
    case Complete => a.Complete? || (held && e.Succeed? && e.task == t && Accepts(s.co, t, e.execution))
    case Failed => a.Failed? || (held && GivesUp(s, e) && e.task == t)
    case Skipped =>
      || a.Skipped?
      || (!a.Terminal() && t in s.st.tasks && Cancels(s, e, s.st.tasks[t].workflowId))
      || (a.Pending? && t in s.st.tasks && Skips(s, e, s.st.tasks[t].workflowId))
  }

  ghost predicate Moves(s: Sys, e: Event, t: string)
    requires t in s.st.tasks
  {
    t in Step(s, e).st.tasks && Transition(s, e, t, s.st.tasks[t].state, Step(s, e).st.tasks[t].state)
  }

  lemma SubmitMoves(s: Sys, e: Event, t: string)
    requires Safe(s) && Enabled(s, e) && e.Submit? && t in s.st.tasks
    ensures Moves(s, e, t)
  {
    hide StoreSafe, CoordSafe, Step, SubmittedTasks;
    if Admitted(e.spec) {
      SubmitForm(s, e.spec, e.down, e.roots);
      SubmitFrame(s.st.tasks, e.spec, e.down, e.roots);
    } else {
      IdleForm(s, e);
    }
  }

  lemma AssignMoves(s: Sys, e: Event, t: string)
    requires Safe(s) && e.Assign? && t in s.st.tasks
    ensures Moves(s, e, t)
  {
    hide StoreSafe, CoordSafe;
    if s.co.queue != [] && s.co.queue[0] in s.co.specCache {
      assert s.co.queue[0] in s.co.queue;
      QueuedFacts(s, s.co.queue[0]);
      AssignForm(s, e.worker, e.execution);
    }
  }

  lemma SucceedMoves(s: Sys, e: Event, t: string)
    requires Safe(s) && e.Succeed? && t in s.st.tasks
    ensures Moves(s, e, t)
  {
    hide StoreSafe, CoordSafe, Linked, DepSafe, InDegreeExact, DepGraph, Step, WaitsOnlyFor;
    if Accepts(s.co, e.task, e.execution) {
      var T := s.st.tasks;
      HeldFacts(s, e.task);
      SafeLinks(s.st);
      SafeCounts(s.st);
      SucceedForm(s, e.task, e.execution, e.output);
      CompletionFrame(DepGraph(s.st), T, e.task, e.execution, e.output);
      ReadyIsQueued(DepGraph(s.st), T, e.task, e.execution, e.output);
      hide Completed;
      if T[t].state.Pending? { ReadyWaited(DepGraph(s.st), T, t, e.task); }
    } else {
      IdleForm(s, e);
    }
  }

  lemma RetryMoves(s: Sys, e: Event, t: string)
    requires Safe(s) && e.Fail? && t in s.st.tasks
    requires Accepts(s.co, e.task, e.execution) && e.task in s.st.tasks && Retries(s, e.task)
    ensures Moves(s, e, t)
  {
    hide StoreSafe, CoordSafe;
    HeldFacts(s, e.task);
    RetryForm(s, e.task, e.execution, e.message, e.newId, e.skipped);
  }

  lemma GiveUpMoves(s: Sys, e: Event, t: string)
    requires Safe(s) && Enabled(s, e) && GivesUp(s, e) && t in s.st.tasks
    ensures Moves(s, e, t)
  {
    hide StoreSafe, CoordSafe, DepsComplete, FailedForm;
    HeldFacts(s, e.task);
    FailForm(s, e.task, e.execution, e.message, e.newId, e.skipped);
    FailSkipsPending(s, e.task, e.message);
    forall u | u in SkipSet(FailureRecords(s, e.task, e.message), e.task)
      ensures u in s.st.tasks && s.st.tasks[u].workflowId == Owner(s.co, e.task)
    {
      FailSkipsOwn(s, e.task, e.message, u);
    }
    FailedStates(s, Step(s, e).st, e, t);
  }

  /** The state of each task after retries are used up. */
  lemma FailedStates(s: Sys, st': Store, e: Event, t: string)
    requires GivesUp(s, e) && FailedForm(s, st', e.task, e.message, e.skipped) && t in s.st.tasks
    requires SkipsDownstream(s, e.task, e.execution) ==>
               forall u | u in e.skipped ::
                 && u in FailureRecords(s, e.task, e.message)
                 && FailureRecords(s, e.task, e.message)[u].state.Pending?
                 && s.st.tasks[u].workflowId == Owner(s.co, e.task)
    requires e.task in s.co.executions && (s.st.tasks[e.task].state.Running? || s.st.tasks[e.task].state.Skipped?)
    ensures t in st'.tasks && Transition(s, e, t, s.st.tasks[t].state, st'.tasks[t].state)
  {
    var T1 := FailureRecords(s, e.task, e.message);
    if t == e.task {
      assert T1[t].state.Failed?;
    }
  }

  lemma RequeueMoves(s: Sys, e: Event, t: string)
    requires Safe(s) && Enabled(s, e) && (e.WorkerDied? || e.Restart?) && t in s.st.tasks
    ensures Moves(s, e, t)
  {
    hide StoreSafe, CoordSafe;
    var order := if e.WorkerDied? then e.tasks else e.running;
    RequeueForm(s.st, order, e.ids);
    if t in order {
      if e.Restart? {
        RunningIsHeld(s, t);
      } else {
        SameHeldKeys(s);
      }
      HeldFacts(s, t);
    }
  }

  lemma RunningIsHeld(s: Sys, t: string)
    requires Safe(s) && t in s.st.tasks && s.st.tasks[t].state.Running?
    ensures t in s.co.executions
  {
    hide StoreSafe;
  }

  lemma StepMoves(s: Sys, e: Event, t: string)
    requires Safe(s) && Enabled(s, e) && t in s.st.tasks
    ensures Moves(s, e, t)
  {
    hide Safe;
    match e
    case Submit(_, _, _) => SubmitMoves(s, e, t);
    case Assign(_, _) => AssignMoves(s, e, t);
    case Succeed(_, _, _) => SucceedMoves(s, e, t);
    case Fail(f, x, _, _, _) =>
      if Accepts(s.co, f, x) {
        HeldFacts(s, f);
        if Retries(s, f) { RetryMoves(s, e, t); } else { GiveUpMoves(s, e, t); }
      }
    case Cancel(w) => CancelForm(s, w);
    case WorkerDied(_, _, _) => RequeueMoves(s, e, t);
    case Restart(_, _, _, _) => RequeueMoves(s, e, t);
  }

  /** In every run every change of a task's state is one of these transitions. */
  lemma TransitionTable(ss: seq<Sys>, es: seq<Event>, i: nat, t: string)
    requires IsRun(ss, es) && i < |es| && t in ss[i].st.tasks
    ensures t in ss[i + 1].st.tasks
    ensures Transition(ss[i], es[i], t, ss[i].st.tasks[t].state, ss[i + 1].st.tasks[t].state)
  {
    hide Safe, Transition;
    RunSafe(ss, es, i);
    StepMoves(ss[i], es[i], t);
  }

  /** A run followed by one more enabled call is a run. */
  lemma ExtendRun(ss: seq<Sys>, es: seq<Event>, e: Event)
    requires IsRun(ss, es) && Enabled(ss[|es|], e)
    ensures IsRun(ss + [Step(ss[|es|], e)], es + [e])
  {
    hide Enabled, Step;
    var ss', es' := ss + [Step(ss[|es|], e)], es + [e];
    forall i | 0 <= i < |es'| ensures Enabled(ss'[i], es'[i]) && ss'[i + 1] == Step(ss'[i], es'[i]) {
      if i < |es| {
        assert es[i] == es'[i] && Enabled(ss[i], es[i]);
      }
    }
  }

  // ---- Which tasks are handed out ---------------------------------------------------------------

  /** An execution id is current because it was current before or is being handed out. */
  lemma StepExecutions(s: Sys, e: Event, t: string)
    requires t in Step(s, e).co.executions
    ensures if HandsOut(s, e, t) then Step(s, e).co.executions[t] == e.execution
            else t in s.co.executions && Step(s, e).co.executions[t] == s.co.executions[t]
  {
    if e.Restart? {
      LoadAllHeld(s.st, e.workflows);
    }
  }

  lemma {:induction false} LoadAllHeld(st: Store, ws: seq<string>)
    ensures LoadAll(st, ws).executions == map[] && LoadAll(st, ws).running == map[]
  {
    if ws != [] {
      LoadAllHeld(st, ws[..|ws| - 1]);
    }
  }

  /** Queue, running set and store agree in every state of every run. */
  lemma QueueStoreAgreement(ss: seq<Sys>, es: seq<Event>, i: nat)
    requires IsRun(ss, es) && i < |ss|
    ensures var T, co := ss[i].st.tasks, ss[i].co;
            && NoDup(co.queue) && (forall t | t in co.queue :: t in T && T[t].state.Queued?)
            && (forall t | t in T && T[t].state.Queued? && IsActive(ss[i].st, T[t].workflowId) :: t in co.queue)
            && co.running.Keys == co.executions.Keys && (forall t | t in co.executions :: t !in co.queue)
            && (forall t | t in co.executions :: t in T && T[t].executionId == co.executions[t])
            && (forall t | t in T && T[t].state.Running? :: t in co.executions)
  {
    hide StoreSafe;
    RunLive(ss, es, i);
  }

  /** Submitting a workflow again resets the records of all its tasks, COMPLETE
      ones included: without fresh ids nothing here would hold. */
  lemma ResubmissionResets(s: Sys, spec: WorkflowSpec, down: Graph, roots: seq<string>, t: string)
    requires Accepted(spec) && Resolved(s, Submit(spec, down, roots)) && t in Ids(spec.tasks)
    ensures var T := Step(s, Submit(spec, down, roots)).st.tasks;
            t in T && T[t].executionId == "" && T[t].state == if DepsOf(spec.tasks, t) == [] then Queued else Pending
  {
    SubmitForm(s, spec, down, roots);
    InitializedEffect(s.st.tasks, spec.workflowId, spec.tasks, InDegrees(spec.tasks), down);
  }

  // ---- Finality -----------------------------------------------------------------------------------

  /** Between steps `i` and `i + 1` a RUNNING task was marked SKIPPED. */
  ghost predicate CancelledWhileRunning(ss: seq<Sys>, es: seq<Event>, i: int, t: string) {
    && 0 <= i < |es| < |ss|
    && t in ss[i].st.tasks && ss[i].st.tasks[t].state.Running?
    && t in ss[i + 1].st.tasks && ss[i + 1].st.tasks[t].state.Skipped?
    && Cancels(ss[i], es[i], ss[i].st.tasks[t].workflowId)
  }

  lemma HandsOutRunning(s: Sys, e: Event, t: string)
    requires Safe(s) && HandsOut(s, e, t)
    ensures s.st.tasks[t].state.Queued?
    ensures t in Step(s, e).st.tasks && Step(s, e).st.tasks[t].state.Running?
  {
    hide Safe, Step;
    assert t in s.co.queue;
    QueuedFacts(s, t);
    AssignForm(s, e.worker, e.execution);
  }

  /** A SKIPPED task still handed out was cancelled while RUNNING. */
  lemma {:induction false} HeldSkippedOrigin(ss: seq<Sys>, es: seq<Event>, i: nat, t: string)
    requires IsRun(ss, es) && i < |ss|
    requires t in ss[i].st.tasks && ss[i].st.tasks[t].state.Skipped? && t in ss[i].co.executions
    ensures exists k :: 0 <= k < i && CancelledWhileRunning(ss, es, k, t)
  {
    hide Safe, Enabled, Step;
    if i > 0 {
      var s, e := ss[i - 1], es[i - 1];
      RunSafe(ss, es, i - 1);
      StepExecutions(s, e, t);
      if HandsOut(s, e, t) {
        HandsOutRunning(s, e, t);
      } else {
        HeldFacts(s, t);
        TransitionTable(ss, es, i - 1, t);
        if s.st.tasks[t].state.Skipped? {
          HeldSkippedOrigin(ss, es, i - 1, t);
        } else {
          assert CancelledWhileRunning(ss, es, i - 1, t);
        }
      }
    }
  }

  /** COMPLETE and FAILED are never left; SKIPPED is left only by a task that was
      RUNNING when its workflow was cancelled. */
  lemma Finality(ss: seq<Sys>, es: seq<Event>, i: nat, t: string)
    requires IsRun(ss, es) && i < |es| && t in ss[i].st.tasks
    ensures t in ss[i + 1].st.tasks
    ensures ss[i].st.tasks[t].state.Complete? ==> ss[i + 1].st.tasks[t].state.Complete?
    ensures ss[i].st.tasks[t].state.Failed? ==> ss[i + 1].st.tasks[t].state.Failed?
    ensures ss[i].st.tasks[t].state.Skipped? && !ss[i + 1].st.tasks[t].state.Skipped? ==>
              exists k :: 0 <= k < i && CancelledWhileRunning(ss, es, k, t)
  {
    TransitionTable(ss, es, i, t);
    if ss[i].st.tasks[t].state.Skipped? && !ss[i + 1].st.tasks[t].state.Skipped? {
      HeldSkippedOrigin(ss, es, i, t);
    }
  }

  /** Without cancellation and without FAIL_FAST workflows every terminal state is final. */
  lemma TerminalIsFinal(ss: seq<Sys>, es: seq<Event>, i: nat, t: string)
    requires IsRun(ss, es) && i < |es| && t in ss[i].st.tasks && ss[i].st.tasks[t].state.Terminal()
    requires forall k | 0 <= k < |es| :: !es[k].Cancel?
    requires forall k | 0 <= k < |es| :: es[k].Submit? ==> !es[k].spec.failurePolicy.FailFast?
    ensures t in ss[i + 1].st.tasks && ss[i + 1].st.tasks[t].state == ss[i].st.tasks[t].state
  {
    Finality(ss, es, i, t);
    if k :| 0 <= k < i && CancelledWhileRunning(ss, es, k, t) {
      NoFailFast(ss, es, k);
      RunSafe(ss, es, k);
      GiveUpPolicy(ss[k], es[k]);
      assert false;
    }
  }

  /** A call stores at most the specification it submits. */
  lemma StepSpecs(s: Sys, e: Event)
    requires Safe(s) && Enabled(s, e)
    ensures Step(s, e).st.specs ==
            if e.Submit? && Admitted(e.spec) then s.st.specs[e.spec.workflowId := e.spec] else s.st.specs
  {
    hide Safe, Step;
    if e.Submit? && Admitted(e.spec) {
      SubmitForm(s, e.spec, e.down, e.roots);
    } else {
      StepShape(s, e);
    }
  }

  lemma KeepsWorkflow(s: Sys, e: Event, t: string)
    requires Safe(s) && Enabled(s, e) && t in s.st.tasks
    ensures t in Step(s, e).st.tasks && Step(s, e).st.tasks[t].workflowId == s.st.tasks[t].workflowId
  {
    hide Safe;
    if e.Submit? && Admitted(e.spec) {
      SubmitForm(s, e.spec, e.down, e.roots);
      SubmitFrame(s.st.tasks, e.spec, e.down, e.roots);
    } else {
      StepShape(s, e);
    }
  }

  lemma RecordedWorkflow(s: Sys, t: string)
    requires Safe(s) && t in s.st.tasks
    ensures s.st.tasks[t].workflowId in s.st.specs
  {
    hide CoordSafe;
  }

  lemma {:induction false} NoFailFast(ss: seq<Sys>, es: seq<Event>, i: nat)
    requires IsRun(ss, es) && i < |ss|
    requires forall k | 0 <= k < |es| :: es[k].Submit? ==> !es[k].spec.failurePolicy.FailFast?
    ensures forall w | w in ss[i].st.specs :: !ss[i].st.specs[w].failurePolicy.FailFast?
  {
    hide Safe, Enabled, Step;
    if i > 0 {
      NoFailFast(ss, es, i - 1);
      RunSafe(ss, es, i - 1);
      assert Enabled(ss[i - 1], es[i - 1]) && ss[i] == Step(ss[i - 1], es[i - 1]);
      StepSpecs(ss[i - 1], es[i - 1]);
    }
  }

  /** A failing call finds the policy of the task's stored workflow in its cache. */
  lemma GiveUpPolicy(s: Sys, e: Event)
    requires Safe(s) && GivesUp(s, e)
    ensures var w := s.st.tasks[e.task].workflowId;
            w in s.st.specs && Owner(s.co, e.task) == w && Policy(s.co, w) == s.st.specs[w].failurePolicy
  {
    hide StoreSafe;
    SafeSpecs(s.st);
    HeldFacts(s, e.task);
  }

  // ---- At most once ----------------------------------------------------------------------------------

  /** Execution ids are never drawn twice. */
  ghost predicate FreshIds(es: seq<Event>) {
    forall i, j | 0 <= i < j < |es| && es[i].Assign? && es[j].Assign? :: es[i].execution != es[j].execution
  }

  /** The call draws the id `x`, for an assignment or for a task it requeues. */
  predicate Draws(e: Event, x: string) {
    match e
    case Assign(_, y) => y == x
    case Fail(_, _, _, y, _) => y == x
    case WorkerDied(_, _, ids) => x in ids.Values
    case Restart(_, _, _, ids) => x in ids.Values
    case _ => false
  }

  /** No two calls draw the same id. */
  ghost predicate FreshDraws(es: seq<Event>) {
    forall i, j, x | 0 <= i < j < |es| && Draws(es[i], x) :: !Draws(es[j], x)
  }

  lemma DrawsAreIds(es: seq<Event>)
    requires FreshDraws(es)
    ensures FreshIds(es)
  {
    forall i, j | 0 <= i < j < |es| && es[i].Assign? && es[j].Assign? ensures es[i].execution != es[j].execution {
      assert Draws(es[i], es[i].execution);
    }
  }

  lemma DrawMore(es: seq<Event>, e: Event)
    requires FreshDraws(es) && forall i, x | 0 <= i < |es| && Draws(e, x) :: !Draws(es[i], x)
    ensures FreshDraws(es + [e])
  {
    var es' := es + [e];
    forall i, j, x | 0 <= i < j < |es'| && Draws(es'[i], x) ensures !Draws(es'[j], x) {
      assert es'[i] == es[i] && (j < |es| ==> es'[j] == es[j]);
    }
  }

  ghost predicate IsResult(e: Event, t: string, x: string) {
    (e.Succeed? || e.Fail?) && e.task == t && e.execution == x
  }

  /** Step `i` is the latest assignment of `t` before `j`, and drew the id `x`. */
  ghost predicate LatestDraw(ss: seq<Sys>, es: seq<Event>, i: int, j: int, t: string, x: string) {
    && 0 <= i < j <= |es| < |ss|
    && HandsOut(ss[i], es[i], t) && es[i].execution == x
    && forall k | i < k < j :: !HandsOut(ss[k], es[k], t)
  }

  /** The current id of a handed-out task is the one drawn at its latest assignment. */
  lemma {:induction false} CurrentIsLatest(ss: seq<Sys>, es: seq<Event>, j: nat, t: string)
    requires IsRun(ss, es) && j < |ss| && t in ss[j].co.executions
    ensures exists i :: LatestDraw(ss, es, i, j, t, ss[j].co.executions[t])
  {
    hide Enabled, Step;
    if j > 0 {
      StepExecutions(ss[j - 1], es[j - 1], t);
      if HandsOut(ss[j - 1], es[j - 1], t) {
        assert LatestDraw(ss, es, j - 1, j, t, ss[j].co.executions[t]);
      } else {
        CurrentIsLatest(ss, es, j - 1, t);
        var i :| LatestDraw(ss, es, i, j - 1, t, ss[j].co.executions[t]);
        assert LatestDraw(ss, es, i, j, t, ss[j].co.executions[t]);
      }
    }
  }

  /** A task is completed only by a result that carries the id of its latest
      assignment, which is also the id in its record. */
  lemma CompletedByLatest(ss: seq<Sys>, es: seq<Event>, j: nat, t: string)
    requires IsRun(ss, es) && j < |es|
    requires !IsComplete(ss[j].st.tasks, t) && IsComplete(ss[j + 1].st.tasks, t)
    ensures es[j].Succeed? && es[j].task == t && t in ss[j].st.tasks && es[j].execution == ss[j].st.tasks[t].executionId
    ensures exists i :: LatestDraw(ss, es, i, j, t, es[j].execution)
  {
    hide Safe, Enabled;
    RunSafe(ss, es, j);
    if t in ss[j].st.tasks {
      TransitionTable(ss, es, j, t);
      HeldFacts(ss[j], t);
      CurrentIsLatest(ss, es, j, t);
    } else {
      NewTaskState(ss[j], es[j], t);
    }
  }

  /** A task's first record is PENDING or QUEUED. */
  lemma NewTaskState(s: Sys, e: Event, t: string)
    requires Safe(s) && Enabled(s, e) && t !in s.st.tasks && t in Step(s, e).st.tasks
    ensures Step(s, e).st.tasks[t].state.Pending? || Step(s, e).st.tasks[t].state.Queued?
    ensures e.Submit? && Admitted(e.spec)
  {
    hide Safe;
    if e.Submit? && Admitted(e.spec) {
      SubmitForm(s, e.spec, e.down, e.roots);
      SubmitFrame(s.st.tasks, e.spec, e.down, e.roots);
    } else {
      StepShape(s, e);
    }
  }

  /** A result whose id is not current changes nothing. */
  lemma StaleIgnored(s: Sys, e: Event, t: string, x: string)
    requires IsResult(e, t, x) && !Accepts(s.co, t, x)
    ensures Step(s, e) == s
  {
  }

  /** Once an id is no longer current, because of a retry, a dead worker, a
      restart or a completion, it never becomes current again: every later result
      that carries it leaves store and coordinator unchanged. */
  lemma {:induction false} StaleForever(ss: seq<Sys>, es: seq<Event>, i: nat, j: nat, k: nat, t: string)
    requires IsRun(ss, es) && FreshIds(es) && i < j <= k < |es|
    requires HandsOut(ss[i], es[i], t) && !Accepts(ss[j].co, t, es[i].execution)
    ensures !Accepts(ss[k].co, t, es[i].execution)
    ensures IsResult(es[k], t, es[i].execution) ==> ss[k + 1] == ss[k]
    decreases k
  {
    hide Enabled, Step;
    if j < k {
      StaleForever(ss, es, i, j, k - 1, t);
      if t in ss[k].co.executions {
        StepExecutions(ss[k - 1], es[k - 1], t);
      }
    }
    if IsResult(es[k], t, es[i].execution) {
      StaleIgnored(ss[k], es[k], t, es[i].execution);
    }
  }
}
