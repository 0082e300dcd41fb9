/** What each call achieves in a reachable state: which tasks a completion
    releases, what a failure skips, what cancellation and recovery leave, and how
    retries are counted. */
module Outcomes {
  import opened Types
  import opened Seqs
  import opened Graphs
  import opened Stores
  import opened Systems
  import opened StoreSafety
  import opened StepForms
  import opened Safety
  import opened Liveness
  import opened History

  // ---- Completion -----------------------------------------------------------------------------

  /** A completion queues exactly the PENDING tasks that were waiting for this one
      task alone, each once however often it lists the dependency, and appends
      them to the ready queue. */
  lemma CompletionReleasesWaiting(ss: seq<Sys>, es: seq<Event>, i: nat) returns (ready: seq<string>)
    requires IsRun(ss, es) && i < |es| && es[i].Succeed? && Accepts(ss[i].co, es[i].task, es[i].execution)
    ensures ss[i + 1].co.queue == ss[i].co.queue + ready && NoDup(ready)
    ensures forall d :: d in ready <==>
              && d in ss[i].st.tasks && ss[i].st.tasks[d].state.Pending?
              && WaitsOnlyFor(DepGraph(ss[i].st), ss[i].st.tasks, d, es[i].task)
    ensures forall d | d in ready :: d in ss[i + 1].st.tasks && ss[i + 1].st.tasks[d].state.Queued?
  {
    hide StoreSafe, CoordSafe;
    var s, t, x, output := ss[i], es[i].task, es[i].execution, es[i].output;
    RunSafe(ss, es, i);
    HeldFacts(s, t);
    ready := Completed(s.st.tasks, t, x, output).ready;
    SucceedForm(s, t, x, output);
    SafeLinks(s.st);
    SafeCounts(s.st);
    CompletionFrame(DepGraph(s.st), s.st.tasks, t, x, output);
    ReadyIsQueued(DepGraph(s.st), s.st.tasks, t, x, output);
    hide Completed, Linked, InDegreeExact, DepSafe, DepGraph;
    forall d | d in s.st.tasks && s.st.tasks[d].state.Pending?
      ensures UsedUp(s.st.tasks[d], Times(DepGraph(s.st)[d], t)) <==> WaitsOnlyFor(DepGraph(s.st), s.st.tasks, d, t)
    {
      ReadyWaited(DepGraph(s.st), s.st.tasks, d, t);
    }
  }

  // ---- Failure ------------------------------------------------------------------------------------

  /** Giving up under a skipping policy turns exactly the PENDING tasks that
      transitively depend on the failed one SKIPPED, and takes nothing out of the queue. */
  lemma SkipsExactlyDependents(ss: seq<Sys>, es: seq<Event>, i: nat, u: string)
    requires IsRun(ss, es) && i < |es| && u in ss[i].st.tasks
    requires GivesUp(ss[i], es[i]) && SkipsDownstream(ss[i], es[i].task, es[i].execution)
    ensures u in ss[i + 1].st.tasks
    ensures u != es[i].task ==>
              ss[i + 1].st.tasks[u] ==
                if ss[i].st.tasks[u].state.Pending? && Reaches(DepGraph(ss[i].st), u, es[i].task)
                then ss[i].st.tasks[u].(state := Skipped) else ss[i].st.tasks[u]
    ensures ss[i + 1].co.queue == ss[i].co.queue
  {
    hide Safe, Enabled;
    var s, e := ss[i], es[i];
    RunSafe(ss, es, i);
    assert Enabled(s, e) && ss[i + 1] == Step(s, e);
    SkipRecords(s, e, u);
  }

  lemma SkipRecords(s: Sys, e: Event, u: string)
    requires Safe(s) && Enabled(s, e) && u in s.st.tasks && GivesUp(s, e) && SkipsDownstream(s, e.task, e.execution)
    ensures var s' := Step(s, e);
            && u in s'.st.tasks
            && (u != e.task ==>
                  s'.st.tasks[u] ==
                    if s.st.tasks[u].state.Pending? && Reaches(DepGraph(s.st), u, e.task)
                    then s.st.tasks[u].(state := Skipped) else s.st.tasks[u])
            && s'.co.queue == s.co.queue
  {
    hide Safe, Linked, DepGraph, FailedForm;
    var t, T1 := e.task, FailureRecords(s, e.task, e.message);
    FailForm(s, t, e.execution, e.message, e.newId, e.skipped);
    AfterFailTxn(s, t, e.message);
    assert Elems(e.skipped) == SkipSet(T1, t);
    LinkedReaches(DepGraph(s.st), T1, t, u);
    QueueNotPending(s, s.st.(tasks := T1), t, SkipSet(T1, t));
    hide SkipSet;
    SkippedRecord(s, Step(s, e).st, e, u);
  }

  lemma SkippedRecord(s: Sys, st': Store, e: Event, u: string)
    requires GivesUp(s, e) && SkipsDownstream(s, e.task, e.execution) && u in s.st.tasks
    requires FailedForm(s, st', e.task, e.message, e.skipped)
    ensures u in st'.tasks
    ensures u != e.task ==>
              st'.tasks[u] == if u in e.skipped then s.st.tasks[u].(state := Skipped) else s.st.tasks[u]
  {
  }

  lemma LinkedReaches(g: Graph, T: Tasks, t: string, u: string)
    requires Linked(g, T)
    ensures Reaches(DownGraph(T), t, u) <==> Reaches(g, u, t)
  {
    TransposeReaches(g, DownGraph(T), t, u);
  }

  // ---- Retries ----------------------------------------------------------------------------------------

  /** The task's stored specification allows `n` attempts. */
  ghost predicate DeclaresRetries(st: Store, t: string, n: int)
    requires t in st.tasks
  {
    exists w, sp :: w in st.specs && w == st.tasks[t].workflowId && sp in st.specs[w].tasks && sp.taskId == t &&
      sp.maxRetries == n
  }

  /** The stored attempt count is 1 for a FAILED task, whose specification then
      allows a single attempt, and 0 for every other task. */
  ghost predicate AttemptsOk(st: Store) {
    forall t | t in st.tasks ::
      if st.tasks[t].state.Failed? then st.tasks[t].attemptCount == 1 && DeclaresRetries(st, t, 1)
      else st.tasks[t].attemptCount == 0
  }

  lemma CachedSpec(s: Sys, t: string)
    requires Safe(s) && t in s.co.specCache
    ensures var w := Owner(s.co, t);
            w in s.st.specs && s.co.specCache[t] in s.st.specs[w].tasks && s.co.specCache[t].taskId == t
  {
    hide StoreSafe, QueueOk, HeldOk, RunningHeld, CancelledHeld;
  }

  lemma CachedRetries(s: Sys, t: string)
    requires Safe(s) && t in s.co.executions && t in s.st.tasks
    ensures exists n :: DeclaresRetries(s.st, t, n) && MaxRetries(s.co, t) == if n > 0 then n else 3
  {
    hide Safe;
    HeldFacts(s, t);
    CachedSpec(s, t);
    assert DeclaresRetries(s.st, t, s.co.specCache[t].maxRetries);
  }

  /** Only giving up touches the attempt count, and only of its task. */
  lemma AttemptSteps(s: Sys, e: Event, t: string)
    requires Safe(s) && Enabled(s, e) && t in s.st.tasks
    ensures t in Step(s, e).st.tasks
    ensures var a, a' := s.st.tasks[t].attemptCount, Step(s, e).st.tasks[t].attemptCount;
            a' == if GivesUp(s, e) && e.task == t then a + 1 else a
  {
    hide StoreSafe, CoordSafe;
    match e
    case Submit(spec, down, roots) =>
      if Admitted(spec) {
        SubmitForm(s, spec, down, roots);
        SubmitFrame(s.st.tasks, spec, down, roots);
      }
    case Assign(worker, x) =>
      if s.co.queue != [] && s.co.queue[0] in s.co.specCache { AssignForm(s, worker, x); }
    case Succeed(f, x, output) => SucceedAttempts(s, f, x, output, t);
    case Fail(f, x, msg, newId, skipped) => FailAttempts(s, f, x, msg, newId, skipped, t);
    case Cancel(w) => CancelForm(s, w);
    case WorkerDied(worker, tasks, ids) => RequeueForm(s.st, tasks, ids);
    case Restart(ws, queued, running, ids) => RequeueForm(s.st, running, ids);
  }

  lemma SucceedAttempts(s: Sys, f: string, x: string, output: string, t: string)
    requires Safe(s) && t in s.st.tasks
    ensures var T' := Step(s, Succeed(f, x, output)).st.tasks;
            t in T' && T'[t].attemptCount == s.st.tasks[t].attemptCount
  {
    hide StoreSafe, CoordSafe, Linked, DepSafe;
    if Accepts(s.co, f, x) {
      HeldFacts(s, f);
      SafeLinks(s.st);
      SucceedForm(s, f, x, output);
      CompletedRecords(DepGraph(s.st), s.st.tasks, f, x, output);
    }
  }

  lemma FailAttempts(s: Sys, f: string, x: string, msg: string, newId: string, skipped: seq<string>, t: string)
    requires Safe(s) && t in s.st.tasks
    ensures var e := Fail(f, x, msg, newId, skipped);
            var T, T' := s.st.tasks, Step(s, e).st.tasks;
            t in T' && T'[t].attemptCount ==
                       if GivesUp(s, e) && f == t then T[t].attemptCount + 1 else T[t].attemptCount
  {
    hide Safe, Step;
    if Accepts(s.co, f, x) {
      HeldFacts(s, f);
      if Retries(s, f) {
        RetryForm(s, f, x, msg, newId, skipped);
      } else {
        FailForm(s, f, x, msg, newId, skipped);
      }
    } else {
      IdleForm(s, Fail(f, x, msg, newId, skipped));
    }
  }

  /** What a specification declares stays declared. */
  lemma RetriesStay(s: Sys, e: Event, t: string, n: int)
    requires Safe(s) && Enabled(s, e) && t in s.st.tasks && DeclaresRetries(s.st, t, n) && t in Step(s, e).st.tasks
    ensures DeclaresRetries(Step(s, e).st, t, n)
  {
    hide Safe, Step;
    KeepsWorkflow(s, e, t);
    StepSpecs(s, e);
    RecordedWorkflow(s, t);
    assert e.Submit? && Admitted(e.spec) ==> e.spec.workflowId !in s.st.specs;
    var w, sp :| w in s.st.specs && w == s.st.tasks[t].workflowId && sp in s.st.specs[w].tasks && sp.taskId == t &&
      sp.maxRetries == n;
    assert sp in Step(s, e).st.specs[w].tasks;
  }

  lemma AttemptsStep(s: Sys, e: Event, t: string)
    requires Safe(s) && Enabled(s, e) && AttemptsOk(s.st) && t in Step(s, e).st.tasks
    ensures var st' := Step(s, e).st;
            if st'.tasks[t].state.Failed? then st'.tasks[t].attemptCount == 1 && DeclaresRetries(st', t, 1)
            else st'.tasks[t].attemptCount == 0
  {
    hide Safe, Enabled, Step, DeclaresRetries;
    if t !in s.st.tasks {
      NewTaskState(s, e, t);
      NewTaskAttempts(s, e, t);
    } else {
      AttemptSteps(s, e, t);
      StepMoves(s, e, t);
      if GivesUp(s, e) && e.task == t {
        CachedRetries(s, t);
        var n :| DeclaresRetries(s.st, t, n) && MaxRetries(s.co, t) == if n > 0 then n else 3;
        HeldFacts(s, t);
        GivenUpIsFailed(s, e);
        RetriesStay(s, e, t, n);
      } else if s.st.tasks[t].state.Failed? {
        RetriesStay(s, e, t, 1);
      }
    }
  }

  lemma NewTaskAttempts(s: Sys, e: Event, t: string)
    requires Safe(s) && Enabled(s, e) && t !in s.st.tasks && t in Step(s, e).st.tasks
    ensures Step(s, e).st.tasks[t].attemptCount == 0
  {
    hide Safe;
    NewTaskState(s, e, t);
    SubmitForm(s, e.spec, e.down, e.roots);
    SubmitFrame(s.st.tasks, e.spec, e.down, e.roots);
  }

  lemma GivenUpIsFailed(s: Sys, e: Event)
    requires Safe(s) && Enabled(s, e) && GivesUp(s, e)
    ensures e.task in Step(s, e).st.tasks && Step(s, e).st.tasks[e.task].state.Failed?
  {
    hide StoreSafe, CoordSafe;
    FailForm(s, e.task, e.execution, e.message, e.newId, e.skipped);
    FailSkipsPendingHere(s, e);
  }

  lemma FailSkipsPendingHere(s: Sys, e: Event)
    requires Safe(s) && GivesUp(s, e)
    ensures e.task !in SkipSet(FailureRecords(s, e.task, e.message), e.task)
  {
  }

  lemma {:induction false} RetryAccounting(ss: seq<Sys>, es: seq<Event>, i: nat)
    requires IsRun(ss, es) && i < |ss|
    ensures AttemptsOk(ss[i].st)
  {
    hide Safe, Enabled, Step, AttemptsOk;
    if i == 0 {
      InitialAttempts();
    } else {
      RetryAccounting(ss, es, i - 1);
      RunSafe(ss, es, i - 1);
      assert Enabled(ss[i - 1], es[i - 1]) && ss[i] == Step(ss[i - 1], es[i - 1]);
      AttemptsKept(ss[i - 1], es[i - 1]);
    }
  }

  lemma InitialAttempts()
    ensures AttemptsOk(INITIAL.st)
  {
  }

  lemma AttemptsKept(s: Sys, e: Event)
    requires Safe(s) && Enabled(s, e) && AttemptsOk(s.st)
    ensures AttemptsOk(Step(s, e).st)
  {
    hide Safe, Enabled, Step, DeclaresRetries;
    var st' := Step(s, e).st;
    forall t | t in st'.tasks
      ensures if st'.tasks[t].state.Failed? then st'.tasks[t].attemptCount == 1 && DeclaresRetries(st', t, 1)
              else st'.tasks[t].attemptCount == 0
    {
      AttemptsStep(s, e, t);
    }
  }

  /** A reported failure ends in FAILED exactly when the task's specification
      allows one attempt; otherwise the task is queued again, however often it has failed. */
  lemma FailureEndsOrRetries(ss: seq<Sys>, es: seq<Event>, i: nat)
    requires IsRun(ss, es) && i < |es| && es[i].Fail? && Accepts(ss[i].co, es[i].task, es[i].execution)
    ensures es[i].task in ss[i].st.tasks && es[i].task in ss[i + 1].st.tasks
    ensures var r := ss[i + 1].st.tasks[es[i].task];
            if DeclaresRetries(ss[i].st, es[i].task, 1) then r.state.Failed?
            else r.state.Queued? && ss[i + 1].co.queue == ss[i].co.queue + [es[i].task]
  {
    hide Safe, Enabled, DeclaresRetries;
    var s, e := ss[i], es[i];
    assert Enabled(s, e) && ss[i + 1] == Step(s, e);
    RunSafe(ss, es, i);
    HeldFacts(s, e.task);
    RetryAccounting(ss, es, i);
    CachedRetries(s, e.task);
    var n :| DeclaresRetries(s.st, e.task, n) && MaxRetries(s.co, e.task) == if n > 0 then n else 3;
    if DeclaresRetries(s.st, e.task, 1) {
      UniqueRetries(s, e.task, n, 1);
    }
    if Retries(s, e.task) {
      RetryForm(s, e.task, e.execution, e.message, e.newId, e.skipped);
    } else {
      GivenUpIsFailed(s, e);
    }
  }

  lemma UniqueRetries(s: Sys, t: string, m: int, n: int)
    requires Safe(s) && t in s.st.tasks && DeclaresRetries(s.st, t, m) && DeclaresRetries(s.st, t, n)
    ensures m == n
  {
    hide StoreSafe, CoordSafe;
    SafeSpecs(s.st);
    var v, sp :| v in s.st.specs && v == s.st.tasks[t].workflowId && sp in s.st.specs[v].tasks && sp.taskId == t &&
      sp.maxRetries == m;
    var w, sq :| w in s.st.specs && w == s.st.tasks[t].workflowId && sq in s.st.specs[w].tasks && sq.taskId == t &&
      sq.maxRetries == n;
    assert DistinctIds(s.st.specs[v].tasks);
  }

  /** Task `t` is the whole queue, and its specification does not limit it to one attempt. */
  ghost predicate Retriable(s: Sys, t: string) {
    s.co.queue == [t] && t in s.co.specCache && t in s.st.tasks && !DeclaresRetries(s.st, t, 1)
  }

  /** Step `i` takes a failure of `t` and queues `t` again. */
  ghost predicate FailsAt(ss: seq<Sys>, es: seq<Event>, i: int, t: string) {
    && 0 <= i < |es| < |ss|
    && es[i].Fail? && es[i].task == t && Accepts(ss[i].co, t, es[i].execution)
    && t in ss[i + 1].st.tasks && ss[i + 1].st.tasks[t].state.Queued?
  }

  predicate NotFailed(s: Sys, t: string) {
    t in s.st.tasks && !s.st.tasks[t].state.Failed?
  }

  /** The run can hand out the task once more, under id `x`, and have it fail once
      more, which draws `y`. */
  lemma OneMoreFailure(ss: seq<Sys>, es: seq<Event>, t: string, worker: string, x: string, y: string)
    returns (ss': seq<Sys>, es': seq<Event>)
    requires IsRun(ss, es) && Retriable(ss[|es|], t)
    ensures IsRun(ss', es') && es' == es + [Assign(worker, x), Fail(t, x, "", y, [])] && ss'[..|ss|] == ss
    ensures FailsAt(ss', es', |es| + 1, t) && Retriable(ss'[|es'|], t)
    ensures NotFailed(ss'[|es|], t) && NotFailed(ss'[|es| + 1], t) && NotFailed(ss'[|es| + 2], t)
  {
    hide Safe, Txns, Fold, DeclaresRetries;
    var n, s := |es|, ss[|es|];
    var a := Assign(worker, x);
    RunSafe(ss, es, n);
    QueuedFacts(s, t);
    ExtendRun(ss, es, a);
    var ss1, es1 := ss + [Step(s, a)], es + [a];
    var s1 := Step(s, a);
    AssignForm(s, worker, x);
    SameDeclaredRetries(s.st, s1.st, t, 1);
    NotGivenUp(ss1, es1, t);
    var f := Fail(t, x, "", y, []);
    ExtendRun(ss1, es1, f);
    ss', es' := ss1 + [Step(s1, f)], es1 + [f];
    RetryForm(s1, t, x, "", y, []);
    SameDeclaredRetries(s1.st, Step(s1, f).st, t, 1);
  }

  /** A held task whose specification allows more than one attempt is retried. */
  lemma NotGivenUp(ss: seq<Sys>, es: seq<Event>, t: string)
    requires IsRun(ss, es) && t in ss[|es|].co.executions && t in ss[|es|].st.tasks
    requires !DeclaresRetries(ss[|es|].st, t, 1)
    ensures Retries(ss[|es|], t)
  {
    hide Safe, Enabled, Step, DeclaresRetries;
    var s := ss[|es|];
    RunSafe(ss, es, |es|);
    HeldFacts(s, t);
    RetryAccounting(ss, es, |es|);
    CachedRetries(s, t);
  }

  lemma SameDeclaredRetries(st: Store, st': Store, t: string, n: int)
    requires st'.specs == st.specs && t in st.tasks && t in st'.tasks &&
             st'.tasks[t].workflowId == st.tasks[t].workflowId
    ensures DeclaresRetries(st, t, n) <==> DeclaresRetries(st', t, n)
  {
  }

  /** Failed attempts one after another, under the ids `xs`, each drawing the next of `ys`. */
  function Attempts(t: string, worker: string, xs: seq<string>, ys: seq<string>): seq<Event>
    requires |xs| == |ys|
  {
    if xs == [] then []
    else
      var n := |xs| - 1;
      Attempts(t, worker, xs[..n], ys[..n]) + [Assign(worker, xs[n]), Fail(t, xs[n], "", ys[n], [])]
  }

  /** There is no bound on the failures of a task that allows more than one attempt:
      any run with such a task at hand extends to any number of further attempts,
      each of which is accepted, fails and queues the task again, and the task is
      never FAILED. */
  lemma {:induction false} FailuresUnbounded(ss: seq<Sys>, es: seq<Event>, t: string, worker: string, xs: seq<string>,
                                             ys: seq<string>)
    returns (ss': seq<Sys>, es': seq<Event>)
    requires IsRun(ss, es) && Retriable(ss[|es|], t) && |xs| == |ys|
    ensures IsRun(ss', es') && es' == es + Attempts(t, worker, xs, ys) && |es'| == |es| + 2 * |xs| && ss'[..|ss|] == ss
    ensures forall k | 0 <= k < |xs| :: FailsAt(ss', es', |es| + 2 * k + 1, t)
    ensures forall j | |es| <= j < |ss'| :: NotFailed(ss'[j], t)
    ensures Retriable(ss'[|es'|], t)
    decreases |xs|
  {
    hide IsRun, Retriable, FailsAt, NotFailed;
    RunLength(ss, es);
    if xs == [] {
      ss', es' := ss, es;
      RetriableNotFailed(ss, es, t);
    } else {
      var n := |xs| - 1;
      var ss1, es1 := FailuresUnbounded(ss, es, t, worker, xs[..n], ys[..n]);
      RunLength(ss1, es1);
      ss', es' := OneMoreFailure(ss1, es1, t, worker, xs[n], ys[n]);
      RunLength(ss', es');
      assert ss'[..|ss|] == ss'[..|ss1|][..|ss|] && es'[..|es1|] == es1;
      forall k | 0 <= k < |xs| ensures FailsAt(ss', es', |es| + 2 * k + 1, t) {
        if k < n { SameFailure(ss1, es1, ss', es', |es| + 2 * k + 1, t); }
      }
      forall j | |es| <= j < |ss'| ensures NotFailed(ss'[j], t) {
        if j < |ss1| { assert ss'[j] == ss'[..|ss1|][j]; }
      }
    }
  }

  /** Attempts that draw ids nobody has drawn keep all draws distinct. */
  lemma {:induction false} AttemptsFresh(es: seq<Event>, t: string, worker: string, xs: seq<string>, ys: seq<string>)
    requires FreshDraws(es) && |xs| == |ys| && Distinct(xs, ys)
    requires forall i, z | 0 <= i < |es| && Draws(es[i], z) :: z !in xs && z !in ys
    ensures FreshDraws(es + Attempts(t, worker, xs, ys))
    decreases |xs|
  {
    if xs == [] {
      assert es + [] == es;
    } else {
      var n := |xs| - 1;
      var x, y, a, f := xs[n], ys[n], Assign(worker, xs[n]), Fail(t, xs[n], "", ys[n], []);
      var es1 := es + Attempts(t, worker, xs[..n], ys[..n]);
      DistinctFront(xs, ys);
      AttemptsFresh(es, t, worker, xs[..n], ys[..n]);
      forall i, z | 0 <= i < |es1| && Draws(es1[i], z) ensures z != x && z != y {
        if i < |es| {
          assert Draws(es[i], z) && x in xs && y in ys;
        } else {
          AttemptsDraw(t, worker, xs[..n], ys[..n], i - |es|, z);
        }
      }
      hide Attempts;
      DrawMore(es1, a);
      DrawMore(es1 + [a], f);
      assert es1 + [a] + [f] == es + (Attempts(t, worker, xs[..n], ys[..n]) + [a, f]);
      assert Attempts(t, worker, xs, ys) ==
        Attempts(t, worker, xs[..n], ys[..n]) + [a, f] by { LastAttempt(t, worker, xs, ys); }
    }
  }

  lemma LastAttempt(t: string, worker: string, xs: seq<string>, ys: seq<string>)
    requires |xs| == |ys| > 0
    ensures var n := |xs| - 1;
            Attempts(t, worker, xs, ys) ==
            Attempts(t, worker, xs[..n], ys[..n]) + [Assign(worker, xs[n]), Fail(t, xs[n], "", ys[n], [])]
  {
  }

  /** No id occurs twice in the two lists. */
  ghost predicate Distinct(xs: seq<string>, ys: seq<string>) {
    NoDup(xs) && NoDup(ys) && forall i, j | 0 <= i < |xs| && 0 <= j < |ys| :: xs[i] != ys[j]
  }

  lemma DistinctFront(xs: seq<string>, ys: seq<string>)
    requires |xs| == |ys| > 0 && Distinct(xs, ys)
    ensures var n := |xs| - 1;
            && Distinct(xs[..n], ys[..n]) && xs[n] != ys[n]
            && xs[n] !in xs[..n] && xs[n] !in ys[..n] && ys[n] !in xs[..n] && ys[n] !in ys[..n]
            && (forall z | z in xs[..n] :: z in xs) && (forall z | z in ys[..n] :: z in ys)
  {
  }

  lemma {:induction false} AttemptsDraw(t: string, worker: string, xs: seq<string>, ys: seq<string>, i: nat, z: string)
    requires |xs| == |ys| && i < |Attempts(t, worker, xs, ys)| && Draws(Attempts(t, worker, xs, ys)[i], z)
    ensures z in xs || z in ys
    decreases |xs|
  {
    var n := |xs| - 1;
    if i < |Attempts(t, worker, xs[..n], ys[..n])| {
      AttemptsDraw(t, worker, xs[..n], ys[..n], i, z);
    }
  }

  lemma RetriableNotFailed(ss: seq<Sys>, es: seq<Event>, t: string)
    requires IsRun(ss, es) && Retriable(ss[|es|], t)
    ensures NotFailed(ss[|es|], t)
  {
    hide DeclaresRetries, Safe;
    RunSafe(ss, es, |es|);
    QueuedFacts(ss[|es|], t);
  }

  lemma RunLength(ss: seq<Sys>, es: seq<Event>)
    requires IsRun(ss, es)
    ensures |ss| == |es| + 1
  {
  }

  lemma SameFailure(ss: seq<Sys>, es: seq<Event>, ss': seq<Sys>, es': seq<Event>, i: int, t: string)
    requires FailsAt(ss, es, i, t) && |es| <= |es'| < |ss'| && |ss| <= |ss'| && es'[..|es|] == es && ss'[..|ss|] == ss
    ensures FailsAt(ss', es', i, t)
  {
    assert es'[i] == es'[..|es|][i] && ss'[i] == ss'[..|ss|][i] && ss'[i + 1] == ss'[..|ss|][i + 1];
  }

  // ---- Cancellation ------------------------------------------------------------------------------------------

  /** Cancelling a workflow leaves it without unfinished tasks and without queue
      entries, and touches neither other workflows nor the order of their entries. */
  lemma CancellationSettles(ss: seq<Sys>, es: seq<Event>, i: nat, w: string)
    requires IsRun(ss, es) && i < |es| && es[i] == Cancel(w)
    ensures var T, T' := ss[i].st.tasks, ss[i + 1].st.tasks;
            && T'.Keys == T.Keys
            && (forall t | t in T && T[t].workflowId != w :: T'[t] == T[t])
            && (forall t | t in T && T[t].state.Terminal() :: T'[t] == T[t])
            && (forall t | t in T' && T'[t].workflowId == w :: T'[t].state.Terminal())
            && ss[i + 1].co.queue == Without(ss[i].co.queue, set t | t in T && T[t].workflowId == w)
    ensures forall t | t in ss[i + 1].co.queue :: t in ss[i].st.tasks && ss[i].st.tasks[t].workflowId != w
    ensures ss[i + 1].st.workflows == WithWorkflow(ss[i].st.workflows, w, WorkflowCancelled)
  {
    hide Safe, Enabled;
    var s := ss[i];
    assert ss[i + 1] == Step(s, es[i]);
    RunSafe(ss, es, i);
    CancelForm(s, w);
    var W := set t | t in s.st.tasks && s.st.tasks[t].workflowId == w;
    forall t | t in s.co.queue ensures t in s.st.tasks && (t in OpenTasks(s.st.tasks, w) <==> t in W) {
      QueuedFacts(s, t);
    }
    WithoutSame(s.co.queue, OpenTasks(s.st.tasks, w), W);
    WithoutMembers(s.co.queue, W);
  }

  // ---- Recovery -------------------------------------------------------------------------------------------------

  /** What LoadStateFromDB and PrepareRecovery leave, from any safe store. */
  ghost predicate Recovered(st: Store, s': Sys) {
    && (forall t | t in s'.st.tasks :: !s'.st.tasks[t].state.Running?)
    && NoDup(s'.co.queue)
    && (forall t :: t in s'.co.queue <==> t in s'.st.tasks && s'.st.tasks[t].state.Queued?)
    && s'.co.running == map[] && s'.co.executions == map[]
    && s'.st.tasks.Keys == st.tasks.Keys && s'.st.workflows == st.workflows && s'.st.specs == st.specs
    && (forall t | t in st.tasks && !st.tasks[t].state.Running? :: s'.st.tasks[t] == st.tasks[t])
    && (forall t | t in st.tasks && st.tasks[t].state.Running? :: s'.st.tasks[t].state.Queued?)
    && (forall t | t in st.tasks && IsActive(st, st.tasks[t].workflowId) ::
          && t in s'.co.specCache && s'.co.specCache[t].taskId == t && st.tasks[t].workflowId in st.specs
          && s'.co.specCache[t] in st.specs[st.tasks[t].workflowId].tasks)
  }

  lemma RecoveryRestores(st: Store, ws: seq<string>, queued: seq<string>, running: seq<string>,
                         ids: map<string, string>)
    requires StoreSafe(st) && RestartOrders(st, ws, queued, running)
    ensures Recovered(st, Step(Sys(st, EMPTY_COORD), Restart(ws, queued, running, ids)))
  {
    hide StoreSafe, CoordSafe, SpecsOk, Registered, LoadAll, Fold, Enumerates, IsActive;
    var s' := Step(Sys(st, EMPTY_COORD), Restart(ws, queued, running, ids));
    RequeueForm(st, running, ids);
    RecoveredRecords(st.tasks, queued, running, ids);
    SafeSpecs(st);
    LoadAllHeld(st, ws);
    RecoveredSpecs(st, ws, s'.co);
  }

  lemma RecoveredRecords(T: Tasks, queued: seq<string>, running: seq<string>, ids: map<string, string>)
    requires Enumerates(queued, InState(T, Queued)) && Enumerates(running, InState(T, Running))
    ensures var T' := RequeueAll(T, Elems(running), ids);
            var queue := queued + Present(T, running);
            && (forall t | t in T' :: !T'[t].state.Running?)
            && NoDup(queue) && (forall t :: t in queue <==> t in T' && T'[t].state.Queued?)
            && T'.Keys == T.Keys
            && (forall t | t in T && !T[t].state.Running? :: T'[t] == T[t])
            && (forall t | t in T && T[t].state.Running? :: T'[t].state.Queued?)
  {
    PresentAll(T, running);
    NoDupConcat(queued, running);
  }

  lemma RecoveredSpecs(st: Store, ws: seq<string>, co: Coord)
    requires SpecsOk(st.specs) && Registered(st) && Enumerates(ws, st.workflows.Keys)
    requires co.specCache == LoadAll(st, ws).specCache && co.workflowOf == LoadAll(st, ws).workflowOf
    ensures forall t | t in st.tasks && IsActive(st, st.tasks[t].workflowId) ::
              && t in co.specCache && co.specCache[t].taskId == t && st.tasks[t].workflowId in st.specs
              && co.specCache[t] in st.specs[st.tasks[t].workflowId].tasks
  {
    LoadAllCaches(st, ws);
    LoadAllCacheOk(st, ws);
    forall t | t in st.tasks && IsActive(st, st.tasks[t].workflowId)
      ensures t in co.specCache && co.specCache[t] in st.specs[st.tasks[t].workflowId].tasks
    {
      OwnerIsRecorded(st, LoadAll(st, ws), t);
    }
  }

  /** Recovery from any state of any run. */
  lemma RecoveryInRuns(ss: seq<Sys>, es: seq<Event>, i: nat)
    requires IsRun(ss, es) && i < |es| && es[i].Restart?
    ensures Recovered(ss[i].st, ss[i + 1])
  {
    hide CoordSafe;
    var e := es[i];
    assert Enabled(ss[i], e) && ss[i + 1] == Step(ss[i], e);
    RunSafe(ss, es, i);
    RecoveryRestores(ss[i].st, e.workflows, e.queued, e.running, e.ids);
  }
}
