/** What the state of a workflow says about its tasks. */
module Verdicts {
  import opened Types
  import opened Seqs
  import opened Graphs
  import opened Dags
  import opened Stores
  import opened Systems
  import opened StoreSafety
  import opened StepForms
  import opened Safety
  import opened Liveness
  import opened Progress
  import opened History
  import opened Outcomes

  /** How a call can change the state of workflow `w`. */
  ghost predicate WorkflowMove(s: Sys, e: Event, w: string) {
    var W, st' := s.st.workflows, Step(s, e).st;
    || ((w in st'.workflows <==> w in W) && (w in W ==> st'.workflows[w] == W[w]) && (e == Cancel(w) ==> !ValidKey(w)))
    || (e.Submit? && Admitted(e.spec) && e.spec.workflowId == w && IsActive(st', w))
    || (e == Cancel(w) && ValidKey(w) && w in st'.workflows && st'.workflows[w].WorkflowCancelled?)
    || (GivesUp(s, e) && Cancels(s, e, w) && w in st'.workflows && st'.workflows[w].WorkflowFailed?)
    || (Concludes(s, e, w) && w in st'.workflows && AllTerminal(st'.tasks, w) &&
        st'.workflows[w] == Verdict(st'.tasks, w))
  }

  /** The call ends with a completion check of workflow `w`. */
  predicate Concludes(s: Sys, e: Event, w: string) {
    || (e.Succeed? && Accepts(s.co, e.task, e.execution) && Owner(s.co, e.task) == w)
    || Skips(s, e, w)
  }

  lemma StepWorkflows(s: Sys, e: Event, w: string)
    requires Safe(s) && Enabled(s, e)
    ensures WorkflowMove(s, e, w)
  {
    hide Safe, Step, Enabled, Completed, AllTerminal, Verdict;
    if Idle(s, e) {
      IdleForm(s, e);
    } else {
      match e
      case Submit(spec, down, roots) => SubmitForm(s, spec, down, roots);
      case Assign(worker, x) => AssignForm(s, worker, x);
      case Succeed(t, x, output) => SucceedForm(s, t, x, output);
      case Fail(t, x, msg, newId, skipped) => FailWorkflows(s, e, w);
      case Cancel(v) => CancelForm(s, v);
      case WorkerDied(worker, tasks, ids) => WorkerDiedForm(s, worker, tasks, ids);
      case Restart(ws, queued, running, ids) =>
        RestartForm(s.st, s.co, ws, queued, running, ids);
        RequeueForm(s.st, running, ids);
    }
  }

  lemma FailWorkflows(s: Sys, e: Event, w: string)
    requires Safe(s) && e.Fail?
    ensures WorkflowMove(s, e, w)
  {
    hide StoreSafe, CoordSafe, SkipAll, Cancelled;
    if Accepts(s.co, e.task, e.execution) {
      HeldFacts(s, e.task);
      if Retries(s, e.task) {
        RetryForm(s, e.task, e.execution, e.message, e.newId, e.skipped);
      } else {
        FailForm(s, e.task, e.execution, e.message, e.newId, e.skipped);
      }
    }
  }

  /** A task of `w` in the given state. */
  ghost predicate HasTask(T: Tasks, w: string, state: TaskState) {
    exists t :: t in T && T[t].workflowId == w && T[t].state == state
  }

  /** The state of a workflow matches its tasks. */
  ghost predicate VerdictOk(st: Store, w: string) {
    && (!AllTerminal(st.tasks, w) ==> IsActive(st, w))
    && (w in st.workflows && st.workflows[w].WorkflowComplete? ==>
          forall t | t in st.tasks && st.tasks[t].workflowId == w :: st.tasks[t].state.Complete?)
    && (w in st.workflows && st.workflows[w].WorkflowFailed? ==> HasTask(st.tasks, w, Failed))
    && (IsActive(st, w) && HasTask(st.tasks, w, Skipped) ==> HasTask(st.tasks, w, Failed))
  }

  /** No handed-out task is SKIPPED. */
  ghost predicate NoneCancelled(s: Sys) {
    forall t | t in s.co.executions && t in s.st.tasks :: !s.st.tasks[t].state.Skipped?
  }

  /** How one task of `w` moves when no cancelled task is handed out. */
  lemma CleanMove(s: Sys, e: Event, t: string)
    requires Safe(s) && Enabled(s, e) && NoneCancelled(s) && t in s.st.tasks
    ensures t in Step(s, e).st.tasks && Step(s, e).st.tasks[t].workflowId == s.st.tasks[t].workflowId
    ensures var a, b, w := s.st.tasks[t].state, Step(s, e).st.tasks[t].state, s.st.tasks[t].workflowId;
            && (a.Terminal() ==> b == a)
            && (b.Skipped? && !a.Skipped? ==> Cancels(s, e, w) || Skips(s, e, w))
  {
    hide Safe, Enabled, Step, Cancels, Skips;
    StepMoves(s, e, t);
    KeepsWorkflow(s, e, t);
  }

  /** The task a concluding or cancelling call works on is unfinished, so its workflow is active. */
  lemma ConcludedIsActive(s: Sys, e: Event, w: string)
    requires Safe(s) && NoneCancelled(s) && VerdictOk(s.st, w) &&
             (Concludes(s, e, w) || (GivesUp(s, e) && Cancels(s, e, w)))
    ensures IsActive(s.st, w)
  {
    hide Safe;
    HeldFacts(s, e.task);
    assert !AllTerminal(s.st.tasks, w);
  }

  lemma SomeStays(s: Sys, e: Event, w: string, state: TaskState)
    requires Safe(s) && Enabled(s, e) && NoneCancelled(s) && HasTask(s.st.tasks, w, state) && state.Terminal()
    ensures HasTask(Step(s, e).st.tasks, w, state)
  {
    hide Safe, Enabled, Step, Cancels, Skips;
    var t :| t in s.st.tasks && s.st.tasks[t].workflowId == w && s.st.tasks[t].state == state;
    CleanMove(s, e, t);
  }

  lemma GivesUpLeavesFailed(s: Sys, e: Event, w: string)
    requires Safe(s) && Enabled(s, e) && NoneCancelled(s) && GivesUp(s, e) && Owner(s.co, e.task) == w
    ensures HasTask(Step(s, e).st.tasks, w, Failed)
  {
    hide Safe, Enabled, Step, Cancels, Skips;
    HeldFacts(s, e.task);
    CleanMove(s, e, e.task);
    GivenUpIsFailed(s, e);
  }

  /** After the call, a SKIPPED task of `w` is accompanied by a FAILED one, unless `w` was cancelled. */
  lemma SkippedHasFailed(s: Sys, e: Event, w: string)
    requires Safe(s) && Enabled(s, e) && NoneCancelled(s) && VerdictOk(s.st, w)
    requires IsActive(s.st, w) && w in s.st.specs && HasTask(Step(s, e).st.tasks, w, Skipped)
    ensures HasTask(Step(s, e).st.tasks, w, Failed) || Cancels(s, e, w)
  {
    hide Safe, Enabled, Step, Cancels, Skips;
    var t :| t in Step(s, e).st.tasks && Step(s, e).st.tasks[t].workflowId == w &&
      Step(s, e).st.tasks[t].state == Skipped;
    if t !in s.st.tasks {
      NewTaskState(s, e, t);
    } else {
      CleanMove(s, e, t);
      if s.st.tasks[t].state.Skipped? {
        assert HasTask(s.st.tasks, w, Skipped);
        SomeStays(s, e, w, Failed);
      } else if Skips(s, e, w) {
        SkipsGivesUp(s, e, w);
        GivesUpLeavesFailed(s, e, w);
      }
    }
  }

  lemma SkipsGivesUp(s: Sys, e: Event, w: string)
    requires Skips(s, e, w)
    ensures GivesUp(s, e) && Owner(s.co, e.task) == w
  {
  }

  /** A stored workflow gets no further tasks. */
  lemma NoNewTasks(s: Sys, e: Event, t: string)
    requires Safe(s) && Enabled(s, e) && t in Step(s, e).st.tasks && t !in s.st.tasks
    ensures e.Submit? && Admitted(e.spec) && Step(s, e).st.tasks[t].workflowId == e.spec.workflowId
    ensures e.spec.workflowId !in s.st.specs
  {
    hide Safe;
    NewTaskState(s, e, t);
    SubmitForm(s, e.spec, e.down, e.roots);
    SubmitFrame(s.st.tasks, e.spec, e.down, e.roots);
  }

  lemma OldWorkflowTask(s: Sys, e: Event, w: string, t: string)
    requires Safe(s) && Enabled(s, e) && w in s.st.specs
    requires t in Step(s, e).st.tasks && Step(s, e).st.tasks[t].workflowId == w
    ensures t in s.st.tasks && s.st.tasks[t].workflowId == w
  {
    hide Safe, Enabled, Step;
    if t !in s.st.tasks {
      NoNewTasks(s, e, t);
    } else {
      KeepsWorkflow(s, e, t);
    }
  }

  /** Nothing unfinished appears in a workflow that had nothing unfinished. */
  lemma StaysTerminal(s: Sys, e: Event, w: string)
    requires Safe(s) && Enabled(s, e) && NoneCancelled(s) && w in s.st.specs && AllTerminal(s.st.tasks, w)
    ensures AllTerminal(Step(s, e).st.tasks, w)
    ensures (forall t | t in s.st.tasks && s.st.tasks[t].workflowId == w :: s.st.tasks[t].state.Complete?) ==>
            (forall t | t in Step(s, e).st.tasks && Step(s, e).st.tasks[t].workflowId == w ::
             Step(s, e).st.tasks[t].state.Complete?)
  {
    hide Safe, Enabled, Step, Cancels, Skips;
    forall t | t in Step(s, e).st.tasks && Step(s, e).st.tasks[t].workflowId == w
      ensures t in s.st.tasks && s.st.tasks[t].workflowId == w && Step(s, e).st.tasks[t].state == s.st.tasks[t].state
    {
      OldWorkflowTask(s, e, w, t);
      CleanMove(s, e, t);
    }
  }

  /** A workflow whose state is left alone. */
  lemma UnchangedVerdict(s: Sys, e: Event, w: string)
    requires Safe(s) && Enabled(s, e) && NoneCancelled(s) && w in s.st.specs && VerdictOk(s.st, w) && !Cancels(s, e, w)
    requires var W, W' := s.st.workflows, Step(s, e).st.workflows; (w in W' <==> w in W) && (w in W ==> W'[w] == W[w])
    ensures VerdictOk(Step(s, e).st, w)
  {
    hide Safe, Enabled, Step, Cancels, Skips;
    if !IsActive(s.st, w) {
      StaysTerminal(s, e, w);
    }
    if HasTask(s.st.tasks, w, Failed) {
      SomeStays(s, e, w, Failed);
    }
    if IsActive(s.st, w) && HasTask(Step(s, e).st.tasks, w, Skipped) {
      SkippedHasFailed(s, e, w);
    }
  }

  lemma CancelledVerdict(s: Sys, e: Event, w: string)
    requires Safe(s) && Enabled(s, e) && Cancels(s, e, w) && ValidKey(w)
    ensures AllTerminal(Step(s, e).st.tasks, w)
    ensures w in Step(s, e).st.workflows
    ensures Step(s, e).st.workflows[w] == if e.Cancel? then WorkflowCancelled else WorkflowFailed
  {
    hide Safe;
    if e.Cancel? {
      CancelForm(s, w);
    } else {
      FailForm(s, e.task, e.execution, e.message, e.newId, e.skipped);
    }
  }

  /** A completion check that finds everything finished. */
  lemma ConcludedVerdict(s: Sys, e: Event, w: string)
    requires Safe(s) && Enabled(s, e) && NoneCancelled(s) && w in s.st.specs && VerdictOk(s.st, w)
    requires Concludes(s, e, w) && !Cancels(s, e, w) && AllTerminal(Step(s, e).st.tasks, w)
    requires w in Step(s, e).st.workflows && Step(s, e).st.workflows[w] == Verdict(Step(s, e).st.tasks, w)
    ensures VerdictOk(Step(s, e).st, w)
  {
    hide Safe, Enabled, Step, Cancels, Skips, Concludes;
    ConcludedIsActive(s, e, w);
    if HasTask(Step(s, e).st.tasks, w, Skipped) {
      SkippedHasFailed(s, e, w);
    }
  }

  lemma NewVerdict(s: Sys, e: Event, w: string)
    requires Safe(s) && Enabled(s, e) && w !in s.st.specs && w in Step(s, e).st.specs
    ensures VerdictOk(Step(s, e).st, w)
  {
    hide Safe, VerdictOk;
    if e.Submit? && Admitted(e.spec) {
      SubmitForm(s, e.spec, e.down, e.roots);
      hide IsDag, Step;
      forall t | t in Step(s, e).st.tasks && Step(s, e).st.tasks[t].workflowId == w
        ensures Step(s, e).st.tasks[t].state.Pending? || Step(s, e).st.tasks[t].state.Queued?
      {
        if t in s.st.tasks {
          KeepsWorkflow(s, e, t);
          RecordedWorkflow(s, t);
        } else {
          NewTaskState(s, e, t);
        }
      }
      FreshVerdict(Step(s, e).st, w);
    } else {
      StepShape(s, e);
    }
  }

  lemma FreshVerdict(st: Store, w: string)
    requires IsActive(st, w)
    requires forall t | t in st.tasks && st.tasks[t].workflowId == w ::
             st.tasks[t].state.Pending? || st.tasks[t].state.Queued?
    ensures VerdictOk(st, w)
  {
  }

  lemma StoredKey(s: Sys, w: string)
    requires Safe(s) && w in s.st.specs
    ensures ValidKey(w)
  {
    hide Registered, Linked, DepSafe, InDegreeExact, CoordSafe;
  }

  lemma StepVerdict(s: Sys, e: Event, w: string)
    requires Safe(s) && Enabled(s, e) && NoneCancelled(s) && w in Step(s, e).st.specs
    requires w in s.st.specs ==> VerdictOk(s.st, w)
    ensures VerdictOk(Step(s, e).st, w)
  {
    hide Safe, NoneCancelled, Step, VerdictOk, Skips;
    if w !in s.st.specs {
      NewVerdict(s, e, w);
    } else {
      StepWorkflows(s, e, w);
      StoredKey(s, w);
      if Cancels(s, e, w) {
        CancelledVerdict(s, e, w);
        if !e.Cancel? {
          GivesUpLeavesFailed(s, e, w);
        }
        FinalVerdict(Step(s, e).st, w);
      } else if w in Step(s, e).st.workflows && AllTerminal(Step(s, e).st.tasks, w) && Concludes(s, e, w) &&
                Step(s, e).st.workflows[w] == Verdict(Step(s, e).st.tasks, w) {
        ConcludedVerdict(s, e, w);
      } else {
        assert !(e.Submit? && Admitted(e.spec) && e.spec.workflowId == w);
        UnchangedVerdict(s, e, w);
      }
    }
  }

  lemma FinalVerdict(st: Store, w: string)
    requires AllTerminal(st.tasks, w) && w in st.workflows
    requires st.workflows[w].WorkflowCancelled? || (st.workflows[w].WorkflowFailed? && HasTask(st.tasks, w, Failed))
    ensures VerdictOk(st, w)
  {
  }

  /** No RUNNING task has been cancelled before state `i`. */
  ghost predicate CleanBefore(ss: seq<Sys>, es: seq<Event>, i: int) {
    forall k, t | 0 <= k < i :: !CancelledWhileRunning(ss, es, k, t)
  }

  lemma CleanHasNone(ss: seq<Sys>, es: seq<Event>, i: nat)
    requires IsRun(ss, es) && i < |ss| && CleanBefore(ss, es, i)
    ensures NoneCancelled(ss[i])
  {
    hide Enabled, Step;
    forall t | t in ss[i].co.executions && t in ss[i].st.tasks ensures !ss[i].st.tasks[t].state.Skipped? {
      if ss[i].st.tasks[t].state.Skipped? {
        HeldSkippedOrigin(ss, es, i, t);
      }
    }
  }

  lemma {:induction false} CleanVerdict(ss: seq<Sys>, es: seq<Event>, i: nat, w: string)
    requires IsRun(ss, es) && i < |ss| && CleanBefore(ss, es, i) && w in ss[i].st.specs
    ensures VerdictOk(ss[i].st, w)
  {
    hide Safe, VerdictOk, Step, Enabled;
    if i > 0 {
      var s, e := ss[i - 1], es[i - 1];
      assert Enabled(s, e) && ss[i] == Step(s, e);
      RunSafe(ss, es, i - 1);
      CleanHasNone(ss, es, i - 1);
      if w in s.st.specs {
        CleanVerdict(ss, es, i - 1, w);
      }
      StepVerdict(s, e, w);
    }
  }

  /** As long as no RUNNING task has been cancelled: a workflow that can run is
      active exactly while it has unfinished tasks; COMPLETE means all its tasks
      are, FAILED that one is and none is unfinished. */
  lemma WorkflowVerdict(ss: seq<Sys>, es: seq<Event>, i: nat, w: string)
    requires IsRun(ss, es) && i < |ss| && CleanBefore(ss, es, i) && w in ss[i].st.specs
    ensures w in ss[i].st.workflows
    ensures Runnable(ss[i].st.specs[w]) ==> (IsActive(ss[i].st, w) <==> !AllTerminal(ss[i].st.tasks, w))
    ensures !AllTerminal(ss[i].st.tasks, w) ==> IsActive(ss[i].st, w)
    ensures ss[i].st.workflows[w].WorkflowComplete? ==>
              forall t | t in Ids(ss[i].st.specs[w].tasks) :: IsComplete(ss[i].st.tasks, t)
    ensures ss[i].st.workflows[w].WorkflowFailed? ==>
            HasTask(ss[i].st.tasks, w, Failed) && AllTerminal(ss[i].st.tasks, w)
  {
    hide Safe;
    CleanVerdict(ss, es, i, w);
    RunLive(ss, es, i);
    assert WorkLive(DepGraph(ss[i].st), ss[i].st, w);
    if Runnable(ss[i].st.specs[w]) {
      if IsActive(ss[i].st, w) { ActiveHasWork(ss, es, i, w); }
    } else {
      UnrunnableState(ss, es, i, w);
    }
  }

  /** In every run whatsoever an active workflow has an unfinished task exactly when it can run. */
  lemma ActiveHasWork(ss: seq<Sys>, es: seq<Event>, i: nat, w: string)
    requires IsRun(ss, es) && i < |ss| && IsActive(ss[i].st, w)
    ensures w in ss[i].st.specs && (!AllTerminal(ss[i].st.tasks, w) <==> Runnable(ss[i].st.specs[w]))
  {
    hide StoreSafe, CoordSafe, Listed;
    var st := ss[i].st;
    RunLive(ss, es, i);
    ActiveIsStored(st, w);
    assert WorkLive(DepGraph(st), st, w);
    if Runnable(st.specs[w]) {
      var t :| t in OpenTasks(st.tasks, w);
    } else if !AllTerminal(st.tasks, w) {
      var t :| t in st.tasks && st.tasks[t].workflowId == w;
      RecordedIsRunnable(st, t);
    }
  }

  // ---- Workflows that cannot run --------------------------------------------------------------

  lemma UnrunnableStep(s: Sys, e: Event, w: string)
    requires Safe(s) && Enabled(s, e) && w in s.st.specs && !Runnable(s.st.specs[w])
    ensures var W, W' := s.st.workflows, Step(s, e).st.workflows;
            if e == Cancel(w) then w in W' && W'[w].WorkflowCancelled?
            else (w in W' <==> w in W) && (w in W ==> W'[w] == W[w])
  {
    hide StoreSafe, CoordSafe, Step;
    SafeSpecs(s.st);
    StepWorkflows(s, e, w);
    if GivesUp(s, e) || Concludes(s, e, w) {
      HeldFacts(s, e.task);
      RecordedIsRunnable(s.st, e.task);
    }
  }

  lemma NewWorkflow(s: Sys, e: Event, w: string)
    requires Safe(s) && Enabled(s, e) && w !in s.st.specs && w in Step(s, e).st.specs
    ensures e.Submit? && Admitted(e.spec) && e.spec.workflowId == w && IsActive(Step(s, e).st, w)
  {
    hide Safe, Step;
    if e.Submit? && Admitted(e.spec) {
      SubmitForm(s, e.spec, e.down, e.roots);
    } else {
      StepShape(s, e);
    }
  }

  lemma StepKeepsSpec(s: Sys, e: Event, w: string)
    requires Safe(s) && Enabled(s, e) && w in s.st.specs
    ensures w in Step(s, e).st.specs && Step(s, e).st.specs[w] == s.st.specs[w]
  {
    hide Safe, Step;
    StepSpecs(s, e);
  }

  lemma {:induction false} UnrunnableState(ss: seq<Sys>, es: seq<Event>, i: nat, w: string)
    requires IsRun(ss, es) && i < |ss| && w in ss[i].st.specs && !Runnable(ss[i].st.specs[w])
    ensures w in ss[i].st.workflows
    ensures ss[i].st.workflows[w].WorkflowRunning? || ss[i].st.workflows[w].WorkflowCancelled?
  {
    hide Safe, Step, Enabled;
    if i > 0 {
      var s, e := ss[i - 1], es[i - 1];
      assert Enabled(s, e) && ss[i] == Step(s, e);
      RunSafe(ss, es, i - 1);
      if w in s.st.specs {
        StepKeepsSpec(s, e, w);
        UnrunnableState(ss, es, i - 1, w);
        UnrunnableStep(s, e, w);
      } else {
        NewWorkflow(s, e, w);
      }
    }
  }

  /** From its submission until it is cancelled, a workflow that has no tasks, or a
      task id that is no key, is active and has nothing to run, in every run. */
  lemma {:induction false} UnrunnableStuck(ss: seq<Sys>, es: seq<Event>, i: nat, j: nat)
    requires IsRun(ss, es) && i < j < |ss|
    requires es[i].Submit? && Admitted(es[i].spec) && !Runnable(es[i].spec)
    requires forall k | i < k < j :: es[k] != Cancel(es[i].spec.workflowId)
    ensures var w := es[i].spec.workflowId;
            && w in ss[j].st.specs && ss[j].st.specs[w] == es[i].spec
            && IsActive(ss[j].st, w) && !CanProgress(ss[j], w)
    decreases j
  {
    hide Safe, Step, Enabled, CanProgress;
    var s, e, w := ss[j - 1], es[j - 1], es[i].spec.workflowId;
    assert Enabled(s, e) && ss[j] == Step(s, e);
    RunSafe(ss, es, j - 1);
    if j == i + 1 {
      SubmitForm(s, e.spec, e.down, e.roots);
    } else {
      UnrunnableStuck(ss, es, i, j - 1);
      StepKeepsSpec(s, e, w);
      UnrunnableStep(s, e, w);
    }
    DeadlockFreedom(ss, es, j, w);
  }

  // ---- The condition is needed ----------------------------------------------------------------------------

  /** A call that cancels a RUNNING task still has it handed out afterwards. */
  lemma CancelledStaysHeld(s: Sys, e: Event, t: string)
    requires Safe(s) && Enabled(s, e) && t in s.st.tasks && s.st.tasks[t].state.Running?
    requires t in Step(s, e).st.tasks && Step(s, e).st.tasks[t].state.Skipped?
    requires Cancels(s, e, s.st.tasks[t].workflowId)
    ensures t in Step(s, e).co.executions
  {
    hide Safe, Txns, Fold;
    RunningIsHeld(s, t);
    if !e.Cancel? && e.task == t {
      GivenUpIsFailed(s, e);
    }
  }

  lemma ReturningWorker(s: Sys, t: string, ids: map<string, string>) returns (e: Event)
    requires Safe(s) && t in s.co.executions && t in s.st.tasks && s.st.tasks[t].state.Skipped?
    ensures Enabled(s, e) && e.WorkerDied? && e.ids == ids
    ensures var st := Step(s, e).st;
            && t in st.tasks && st.tasks[t].state.Queued?
            && !IsActive(st, st.tasks[t].workflowId) && !AllTerminal(st.tasks, st.tasks[t].workflowId)
  {
    hide StoreSafe;
    SameHeldKeys(s);
    var tasks := EnumerationExists(HeldBy(s.co, s.co.running[t]));
    e := WorkerDied(s.co.running[t], tasks, ids);
    RequeueForm(s.st, tasks, ids);
  }

  /** Whenever a RUNNING task is cancelled, the run can go on so that the verdict
      no longer fits: the task's worker dies and the task is QUEUED again in a
      workflow that is not active. */
  lemma CancelledRunningReturns(ss: seq<Sys>, es: seq<Event>, t: string, ids: map<string, string>) returns (e: Event)
    requires IsRun(ss, es) && |es| > 0 && CancelledWhileRunning(ss, es, |es| - 1, t)
    ensures IsRun(ss + [Step(ss[|es|], e)], es + [e]) && e.WorkerDied? && e.ids == ids
    ensures var st := Step(ss[|es|], e).st;
            && t in st.tasks && st.tasks[t].state.Queued?
            && !IsActive(st, st.tasks[t].workflowId) && !AllTerminal(st.tasks, st.tasks[t].workflowId)
  {
    hide Safe, Txns, Fold, Enabled;
    var s := ss[|es|];
    assert Enabled(ss[|es| - 1], es[|es| - 1]) && s == Step(ss[|es| - 1], es[|es| - 1]);
    RunSafe(ss, es, |es| - 1);
    RunSafe(ss, es, |es|);
    CancelledStaysHeld(ss[|es| - 1], es[|es| - 1], t);
    e := ReturningWorker(s, t, ids);
    ExtendRun(ss, es, e);
  }

  // ---- Late results -----------------------------------------------------------------------------

  predicate OthersTerminal(T: Tasks, w: string, t: string) {
    forall u | u in T && T[u].workflowId == w && u != t :: T[u].state.Terminal()
  }

  /** Every task of `w` other than `t` is terminal, or will be skipped because `t` has failed. */
  ghost predicate OthersSettled(g: Graph, T: Tasks, w: string, t: string) {
    forall u | u in T && T[u].workflowId == w && u != t ::
      T[u].state.Terminal() || (T[u].state.Pending? && Reaches(g, u, t))
  }

  lemma CompletionSettles(T: Tasks, T': Tasks, ready: seq<string>, t: string, w: string)
    requires CompletionEffect(T, T', ready, t) && SameShape(T, T') && T[t].workflowId == w && !T[t].state.Failed?
    ensures AllTerminal(T', w) <==> OthersTerminal(T, w, t)
    ensures Verdict(T', w) == Verdict(T, w)
    ensures OthersTerminal(T, w, t) ==> forall u | u in T && T[u].workflowId == w && u != t :: T'[u] == T[u]
  {
  }

  /** An accepted success overwrites the state of its workflow, whatever it was,
      exactly when every other task is terminal; those tasks keep their states. */
  lemma LateSuccess(ss: seq<Sys>, es: seq<Event>, i: nat)
    requires IsRun(ss, es) && i < |es| && es[i].Succeed? && Accepts(ss[i].co, es[i].task, es[i].execution)
    ensures es[i].task in ss[i].st.tasks && IsComplete(ss[i + 1].st.tasks, es[i].task)
    ensures var st, st', t := ss[i].st, ss[i + 1].st, es[i].task;
            var w := st.tasks[t].workflowId;
            && st'.workflows == (if OthersTerminal(st.tasks, w, t) then st.workflows[w := Verdict(st.tasks, w)]
                                 else st.workflows)
            && (OthersTerminal(st.tasks, w, t) ==>
                  forall u | u in st.tasks && st.tasks[u].workflowId == w && u != t ::
                    u in st'.tasks && st'.tasks[u] == st.tasks[u])
  {
    hide StoreSafe, CoordSafe, Enabled, OthersTerminal, Verdict, AllTerminal;
    var s, e := ss[i], es[i];
    assert ss[i + 1] == Step(s, e);
    RunSafe(ss, es, i);
    HeldFacts(s, e.task);
    SafeLinks(s.st);
    SucceedForm(s, e.task, e.execution, e.output);
    CompletionFrame(DepGraph(s.st), s.st.tasks, e.task, e.execution, e.output);
    hide Completed, Linked, Step;
    var c := Completed(s.st.tasks, e.task, e.execution, e.output);
    CompletionSettles(s.st.tasks, c.tasks, c.ready, e.task, s.st.tasks[e.task].workflowId);
  }

  lemma SkipSettles(g: Graph, T: Tasks, T': Tasks, w: string, t: string)
    requires T'.Keys == T.Keys && t in T && T'[t].state.Failed? && T'[t].workflowId == T[t].workflowId == w
    requires forall u | u in T && u != t ::
               T'[u] == if T[u].state.Pending? && Reaches(g, u, t) then T[u].(state := Skipped) else T[u]
    ensures AllTerminal(T', w) <==> OthersSettled(g, T, w, t)
    ensures Verdict(T', w).WorkflowFailed?
  {
    hide Reaches;
    assert t in T' && T'[t].workflowId == w && T'[t].state.Failed?;
  }

  /** Giving up on a task marks its workflow FAILED, whatever its state was, exactly
      when the policy is FAIL_FAST or every other task is terminal or skipped by it. */
  lemma LateFailure(ss: seq<Sys>, es: seq<Event>, i: nat)
    requires IsRun(ss, es) && i < |es| && GivesUp(ss[i], es[i])
    ensures var st, t := ss[i].st, es[i].task;
            var w := st.tasks[t].workflowId;
            && w in st.specs
            && ss[i + 1].st.workflows ==
               if st.specs[w].failurePolicy.FailFast? || OthersSettled(DepGraph(st), st.tasks, w, t)
               then st.workflows[w := WorkflowFailed] else st.workflows
  {
    hide Safe, Enabled, OthersSettled, Verdict, AllTerminal, SkipAll, Cancelled, Step;
    var s, e := ss[i], es[i];
    assert Enabled(s, e) && ss[i + 1] == Step(s, e);
    RunSafe(ss, es, i);
    HeldFacts(s, e.task);
    GiveUpPolicy(s, e);
    FailForm(s, e.task, e.execution, e.message, e.newId, e.skipped);
    if !Policy(s.co, Owner(s.co, e.task)).FailFast? {
      GivenUpIsFailed(s, e);
      StepShape(s, e);
      forall u | u in s.st.tasks && u != e.task
        ensures ss[i + 1].st.tasks[u] == if s.st.tasks[u].state.Pending? && Reaches(DepGraph(s.st), u, e.task)
                                         then s.st.tasks[u].(state := Skipped) else s.st.tasks[u]
      {
        SkipsExactlyDependents(ss, es, i, u);
      }
      SkipSettles(DepGraph(s.st), s.st.tasks, ss[i + 1].st.tasks, Owner(s.co, e.task), e.task);
    }
  }

  /** The result that takes a stored workflow out of WORKFLOW_CANCELLED, and where it goes. */
  ghost function Revived(s: Sys, e: Event, w: string): WorkflowState {
    if e.Succeed? && Accepts(s.co, e.task, e.execution) && Owner(s.co, e.task) == w &&
      OthersTerminal(s.st.tasks, w, e.task)
    then Verdict(s.st.tasks, w)
    else if GivesUp(s, e) && Owner(s.co, e.task) == w &&
            (Policy(s.co, w).FailFast? || OthersSettled(DepGraph(s.st), s.st.tasks, w, e.task))
    then WorkflowFailed
    else WorkflowCancelled
  }

  /** WORKFLOW_CANCELLED is left exactly by a result for a task that was RUNNING when
      the workflow was cancelled, once no other task is unfinished: a success then
      turns it COMPLETE although tasks are SKIPPED, a final failure FAILED. */
  lemma CancelledLeft(ss: seq<Sys>, es: seq<Event>, i: nat, w: string)
    requires IsRun(ss, es) && i < |es| && w in ss[i].st.specs
    requires w in ss[i].st.workflows && ss[i].st.workflows[w].WorkflowCancelled?
    ensures w in ss[i + 1].st.workflows && ss[i + 1].st.workflows[w] == Revived(ss[i], es[i], w)
  {
    hide Safe, Step, OthersTerminal, OthersSettled, Verdict, AllTerminal;
    var s, e := ss[i], es[i];
    assert Enabled(s, e) && ss[i + 1] == Step(s, e);
    RunSafe(ss, es, i);
    if e.Succeed? && Accepts(s.co, e.task, e.execution) {
      HeldFacts(s, e.task);
      LateSuccess(ss, es, i);
    } else if GivesUp(s, e) {
      HeldFacts(s, e.task);
      GiveUpPolicy(s, e);
      LateFailure(ss, es, i);
    } else {
      StepWorkflows(s, e, w);
      assert !Skips(s, e, w);
    }
  }
}
