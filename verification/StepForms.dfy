/** The store after each call in closed form, obtained from its transaction list. */
module StepForms {
  import opened Types
  import opened Seqs
  import opened Graphs
  import opened Stores
  import opened Systems

  /** `ws'` is `ws` except that the completion check may have set a final state for `w`. */
  ghost predicate Checked(ws: map<string, WorkflowState>, ws': map<string, WorkflowState>, T: Tasks, w: string) {
    ws' == if AllTerminal(T, w) then WithWorkflow(ws, w, Verdict(T, w)) else ws
  }

  function RequeueAll(T: Tasks, S: set<string>, ids: map<string, string>): Tasks {
    map t | t in T :: if t in S then T[t].(state := Queued, executionId := Lookup(ids, t, "")) else T[t]
  }

  lemma RequeueOne(T: Tasks, t: string, newId: string)
    ensures Requeued(T, t, newId) == RequeueAll(T, Elems([t]), map[t := newId])
  {
    assert Requeued(T, t, newId) == RequeueAll(T, Elems([t]), map[t := newId]);
  }

  function QueueAll(T: Tasks, S: set<string>): Tasks {
    map t | t in T :: if t in S then T[t].(state := Queued) else T[t]
  }

  lemma FoldCheck(st: Store, T: Tasks, w: string)
    requires T == st.tasks
    ensures var st' := Fold(st, CheckTxns(T, w));
            st'.specs == st.specs && st'.tasks == T && Checked(st.workflows, st'.workflows, T, w)
  {
    if AllTerminal(T, w) {
      FoldOne(st, SetWorkflow(w, Verdict(T, w)));
    }
  }

  /** The call writes nothing: a refused submission or report, or nothing to hand out. */
  ghost predicate Idle(s: Sys, e: Event) {
    match e
    case Submit(spec, _, _) => !Admitted(spec)
    case Assign(_, _) => s.co.queue == [] || s.co.queue[0] !in s.co.specCache
    case Succeed(t, x, _) => !Accepts(s.co, t, x)
    case Fail(t, x, _, _, _) => !Accepts(s.co, t, x)
    case _ => false
  }

  lemma IdleForm(s: Sys, e: Event)
    requires Idle(s, e)
    ensures Step(s, e).st == s.st
  {
  }

  lemma AssignForm(s: Sys, worker: string, x: string)
    requires s.co.queue != [] && s.co.queue[0] in s.co.specCache
    ensures Step(s, Assign(worker, x)).st == s.st.(tasks := Assigned(s.st.tasks, s.co.queue[0], x))
  {
    FoldOne(s.st, AssignTask(s.co.queue[0], x));
  }

  lemma SucceedForm(s: Sys, t: string, x: string, output: string)
    requires Accepts(s.co, t, x)
    ensures var c := Completed(s.st.tasks, t, x, output);
            var st' := Step(s, Succeed(t, x, output)).st;
            && st'.specs == s.st.specs && st'.tasks == c.tasks
            && (if c.err.NoError? then Checked(s.st.workflows, st'.workflows, c.tasks, Owner(s.co, t))
                else st'.workflows == s.st.workflows)
  {
    var c := Completed(s.st.tasks, t, x, output);
    var w := Owner(s.co, t);
    var tx := CompleteTask(t, x, output);
    FoldOne(s.st, tx);
    if c.err.NoError? && w != "" {
      FoldConcat(s.st, [tx], CheckTxns(c.tasks, w));
      FoldCheck(Apply(s.st, tx), c.tasks, w);
    } else {
      assert [tx] + [] == [tx];
    }
  }

  lemma RetryForm(s: Sys, t: string, x: string, msg: string, newId: string, skipped: seq<string>)
    requires Accepts(s.co, t, x) && t in s.st.tasks && Retries(s, t)
    ensures Step(s, Fail(t, x, msg, newId, skipped)).st == s.st.(tasks := Requeued(s.st.tasks, t, newId))
  {
    FoldOne(s.st, RequeueTask(t, newId));
  }

  lemma SkipForm(st: Store, order: seq<string>)
    ensures Fold(st, SetStateTxns(order, Skipped)) == st.(tasks := SkipAll(st.tasks, Elems(order)))
  {
    SetStateEffect(st, order, Skipped);
    assert Fold(st, SetStateTxns(order, Skipped)).tasks == SkipAll(st.tasks, Elems(order));
  }

  lemma QueueForm(st: Store, order: seq<string>)
    ensures Fold(st, SetStateTxns(order, Queued)) == st.(tasks := QueueAll(st.tasks, Elems(order)))
  {
    SetStateEffect(st, order, Queued);
    assert Fold(st, SetStateTxns(order, Queued)).tasks == QueueAll(st.tasks, Elems(order));
  }

  lemma RequeueForm(st: Store, order: seq<string>, ids: map<string, string>)
    ensures Fold(st, RequeueTxns(order, ids)) == st.(tasks := RequeueAll(st.tasks, Elems(order), ids))
  {
    RequeueEffect(st, order, ids);
    assert Fold(st, RequeueTxns(order, ids)).tasks == RequeueAll(st.tasks, Elems(order), ids);
  }

  lemma RestartForm(st: Store, co: Coord, ws: seq<string>, queued: seq<string>, running: seq<string>,
                    ids: map<string, string>)
    ensures Step(Sys(st, co), Restart(ws, queued, running, ids)) ==
            Sys(Fold(st, RequeueTxns(running, ids)), RestartCoord(st, ws, queued, running))
  {
  }

  lemma WorkerDiedForm(s: Sys, worker: string, tasks: seq<string>, ids: map<string, string>)
    ensures Step(s, WorkerDied(worker, tasks, ids)).st == s.st.(tasks := RequeueAll(s.st.tasks, Elems(tasks), ids))
  {
    RequeueForm(s.st, tasks, ids);
  }

  /** The records and the workflow states after a task has failed for good. */
  ghost predicate FailedForm(s: Sys, st': Store, t: string, msg: string, skipped: seq<string>)
    requires t in s.st.tasks
  {
    var T, w := FailureRecords(s, t, msg), Owner(s.co, t);
    && st'.specs == s.st.specs
    && (if w == "" then st'.tasks == T && st'.workflows == s.st.workflows
        else if Policy(s.co, w).FailFast? then
          st'.tasks == Cancelled(T, w) && st'.workflows == WithWorkflow(s.st.workflows, w, WorkflowFailed)
        else
          st'.tasks == SkipAll(T, Elems(skipped)) && Checked(s.st.workflows, st'.workflows, st'.tasks, w))
  }

  lemma FailForm(s: Sys, t: string, x: string, msg: string, newId: string, skipped: seq<string>)
    requires Accepts(s.co, t, x) && t in s.st.tasks && !Retries(s, t)
    ensures FailedForm(s, Step(s, Fail(t, x, msg, newId, skipped)).st, t, msg, skipped)
  {
    var T, w := FailureRecords(s, t, msg), Owner(s.co, t);
    var tx := FailTask(t, msg, s.st.tasks[t].attemptCount + 1);
    var st1 := Apply(s.st, tx);
    FoldOne(s.st, tx);
    FoldConcat(s.st, [tx], PolicyTxns(T, s.co, t, skipped));
    if w != "" {
      if Policy(s.co, w).FailFast? {
        FoldTwo(st1, CancelTasks(w), SetWorkflow(w, WorkflowFailed));
      } else {
        SkipForm(st1, skipped);
        var T2 := SkipAll(T, Elems(skipped));
        FoldConcat(st1, SetStateTxns(skipped, Skipped), CheckTxns(T2, w));
        FoldCheck(st1.(tasks := T2), T2, w);
      }
    }
  }

  lemma CancelForm(s: Sys, w: string)
    ensures Step(s, Cancel(w)).st ==
            s.st.(tasks := Cancelled(s.st.tasks, w), workflows := WithWorkflow(s.st.workflows, w, WorkflowCancelled))
  {
    FoldTwo(s.st, CancelTasks(w), SetWorkflow(w, WorkflowCancelled));
  }

  /** The records of an accepted submission: roots queued, the rest pending. */
  function SubmittedTasks(T: Tasks, spec: WorkflowSpec, down: Graph, roots: seq<string>): Tasks {
    QueueAll(Initialized(T, spec.workflowId, spec.tasks, InDegrees(spec.tasks), down), Elems(roots))
  }

  lemma SubmitHead(st: Store, spec: WorkflowSpec, down: Graph)
    requires ValidKey(spec.workflowId) && ValidIds(spec.tasks)
    ensures Fold(st, [StoreSpec(spec), SetWorkflow(spec.workflowId, WorkflowRunning),
                      InitTasks(spec.workflowId, spec.tasks, InDegrees(spec.tasks), down)]) ==
            Store(st.specs[spec.workflowId := spec], st.workflows[spec.workflowId := WorkflowRunning],
                  Initialized(st.tasks, spec.workflowId, spec.tasks, InDegrees(spec.tasks), down))
  {
    var a, b := StoreSpec(spec), SetWorkflow(spec.workflowId, WorkflowRunning);
    var c := InitTasks(spec.workflowId, spec.tasks, InDegrees(spec.tasks), down);
    FoldTwo(st, a, b);
    assert [a, b, c][..2] == [a, b];
  }

  lemma SubmitForm(s: Sys, spec: WorkflowSpec, down: Graph, roots: seq<string>)
    requires Admitted(spec)
    ensures Step(s, Submit(spec, down, roots)).st ==
            Store(s.st.specs[spec.workflowId := spec], s.st.workflows[spec.workflowId := WorkflowRunning],
                  if ValidIds(spec.tasks) then SubmittedTasks(s.st.tasks, spec, down, roots) else s.st.tasks)
  {
    if !ValidIds(spec.tasks) {
      HaltedForm(s, spec, down, roots);
      return;
    }
    var head := [StoreSpec(spec), SetWorkflow(spec.workflowId, WorkflowRunning),
                 InitTasks(spec.workflowId, spec.tasks, InDegrees(spec.tasks), down)];
    assert SubmitTxns(spec, down, roots) == head + SetStateTxns(roots, Queued);
    SubmitHead(s.st, spec, down);
    FoldConcat(s.st, head, SetStateTxns(roots, Queued));
    QueueForm(Fold(s.st, head), roots);
  }

  /** A submission whose task ids the store refuses leaves an active workflow without records. */
  lemma HaltedForm(s: Sys, spec: WorkflowSpec, down: Graph, roots: seq<string>)
    requires Admitted(spec) && !ValidIds(spec.tasks)
    ensures Step(s, Submit(spec, down, roots)) ==
            Sys(Store(s.st.specs[spec.workflowId := spec], s.st.workflows[spec.workflowId := WorkflowRunning],
                      s.st.tasks), s.co)
  {
    var a, b := StoreSpec(spec), SetWorkflow(spec.workflowId, WorkflowRunning);
    assert SubmitTxns(spec, down, roots) == [a, b];
    FoldTwo(s.st, a, b);
  }

  /** The store after the first `k` transactions of a submission. */
  lemma SubmitPrefix(st: Store, spec: WorkflowSpec, down: Graph, roots: seq<string>, k: nat)
    requires ValidKey(spec.workflowId) && k <= |SubmitTxns(spec, down, roots)|
    ensures var st' := Fold(st, SubmitTxns(spec, down, roots)[..k]);
            && st'.specs == (if k == 0 then st.specs else st.specs[spec.workflowId := spec])
            && st'.workflows == (if k < 2 then st.workflows else st.workflows[spec.workflowId := WorkflowRunning])
            && st'.tasks == if k < 3 then st.tasks else SubmittedTasks(st.tasks, spec, down, roots[..k - 3])
  {
    var txs := SubmitTxns(spec, down, roots);
    var a, b := StoreSpec(spec), SetWorkflow(spec.workflowId, WorkflowRunning);
    if k == 1 {
      assert txs[..k] == [a];
      FoldOne(st, a);
    } else if k == 2 {
      assert txs[..k] == [a, b];
      FoldTwo(st, a, b);
    } else if k >= 3 {
      var head := [a, b, InitTasks(spec.workflowId, spec.tasks, InDegrees(spec.tasks), down)];
      assert txs[..k] == head + SetStateTxns(roots[..k - 3], Queued);
      SubmitHead(st, spec, down);
      FoldConcat(st, head, SetStateTxns(roots[..k - 3], Queued));
      QueueForm(Fold(st, head), roots[..k - 3]);
    }
  }
}
