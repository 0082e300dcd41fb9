/** What a call does to the workflows it is not about: at most it queues or hands
    out their tasks again, after any number of its transactions. */
module Foreign {
  import opened Types
  import opened Graphs
  import opened Stores
  import opened Systems
  import opened StoreSafety
  import opened StepForms
  import opened Permits
  import opened Safety

  /** Workflow `w` keeps its specification, its state and its tasks; only the records
      of tasks in `S` change, and only by becoming QUEUED or RUNNING. */
  ghost predicate Gentle(st: Store, st': Store, w: string, S: set<string>) {
    && (w in st'.specs <==> w in st.specs) && (w in st.specs ==> st'.specs[w] == st.specs[w])
    && (w in st'.workflows <==> w in st.workflows) && (w in st.workflows ==> st'.workflows[w] == st.workflows[w])
    && (forall t | t in st'.tasks && st'.tasks[t].workflowId == w :: t in st.tasks && st.tasks[t].workflowId == w)
    && (forall t | t in st.tasks && st.tasks[t].workflowId == w ::
          && t in st'.tasks && st'.tasks[t].workflowId == w
          && (st'.tasks[t] == st.tasks[t] || (t in S && (st'.tasks[t].state.Queued? || st'.tasks[t].state.Running?))))
  }

  predicate Outside(T: Tasks, t: string, w: string) {
    t in T ==> T[t].workflowId != w
  }

  /** A transaction of a running call that does not settle anything in workflow `w`. */
  predicate Harmless(T: Tasks, tx: Txn, w: string, S: set<string>) {
    match tx
    case StoreSpec(_) => false
    case InitTasks(_, _, _, _) => false
    case SetWorkflow(v, _) => v != w
    case SetState(t, _) => Outside(T, t, w)
    case AssignTask(t, _) => t in S || Outside(T, t, w)
    case CompleteTask(t, _, _) => Outside(T, t, w)
    case FailTask(t, _, _) => Outside(T, t, w)
    case RequeueTask(t, _) => t in S || Outside(T, t, w)
    case CancelTasks(v) => v != w
  }

  lemma CompletionOutside(g: Graph, T: Tasks, t: string, x: string, output: string, d: string)
    requires Linked(g, T) && d in T && (t in T ==> T[d].workflowId != T[t].workflowId)
    ensures d in Completed(T, t, x, output).tasks && Completed(T, t, x, output).tasks[d] == T[d]
  {
    if t in T && T[t].executionId == x && !T[t].state.Complete? {
      hide Completed;
      CompletedRecords(g, T, t, x, output);
      TimesMember(g[d], t);
    }
  }

  lemma CompletionGentle(st: Store, t: string, x: string, output: string, w: string, S: set<string>)
    requires StoreSafe(st) && Outside(st.tasks, t, w)
    ensures Gentle(st, Apply(st, CompleteTask(t, x, output)), w, S)
  {
    hide StoreSafe, Linked, Completed, DepGraph;
    SafeLinks(st);
    CompletedShape(st.tasks, t, x, output);
    forall d | d in st.tasks && st.tasks[d].workflowId == w
      ensures d in Completed(st.tasks, t, x, output).tasks && Completed(st.tasks, t, x, output).tasks[d] == st.tasks[d]
    {
      CompletionOutside(DepGraph(st), st.tasks, t, x, output, d);
    }
  }

  lemma HarmlessIsGentle(st: Store, tx: Txn, w: string, S: set<string>)
    requires StoreSafe(st) && Harmless(st.tasks, tx, w, S)
    ensures Gentle(st, Apply(st, tx), w, S)
  {
    hide StoreSafe;
    if tx.CompleteTask? {
      hide Gentle;
      CompletionGentle(st, tx.task, tx.execution, tx.output, w, S);
    }
  }

  lemma GentleThen(st: Store, st1: Store, st2: Store, w: string, S: set<string>)
    requires Gentle(st, st1, w, S) && Gentle(st1, st2, w, S)
    ensures Gentle(st, st2, w, S)
  {
  }

  lemma SameHarmless(T: Tasks, T': Tasks, tx: Txn, w: string, S: set<string>)
    requires SameShape(T, T') && Harmless(T, tx, w, S)
    ensures Harmless(T', tx, w, S)
  {
  }

  lemma {:induction false} PrefixGentle(st: Store, txs: seq<Txn>, k: nat, w: string, S: set<string>)
    requires StoreSafe(st) && AllPermitted(st, txs) && k <= |txs|
    requires forall j | 0 <= j < |txs| :: Harmless(st.tasks, txs[j], w, S)
    ensures SameShape(st.tasks, Fold(st, txs[..k]).tasks) && Gentle(st, Fold(st, txs[..k]), w, S)
  {
    hide StoreSafe, AllPermitted, Permitted, Fold, Apply, Harmless;
    if k == 0 {
      NoTxn(st, txs);
    } else {
      var st1 := Fold(st, txs[..k - 1]);
      PrefixGentle(st, txs, k - 1, w, S);
      PrefixSafe(st, txs, k - 1);
      NextTxn(st, txs, k - 1);
      SameHarmless(st.tasks, st1.tasks, txs[k - 1], w, S);
      HarmlessIsGentle(st1, txs[k - 1], w, S);
      HarmlessShape(st1, txs[k - 1], w, S);
      hide Gentle;
      GentleThen(st, st1, Fold(st, txs[..k]), w, S);
    }
  }

  lemma HarmlessShape(st: Store, tx: Txn, w: string, S: set<string>)
    requires Harmless(st.tasks, tx, w, S)
    ensures SameShape(st.tasks, Apply(st, tx).tasks)
  {
    TxnShape(st, tx);
  }

  // ---- The calls ------------------------------------------------------------------------------

  /** The tasks that are queued or handed out. */
  ghost function Handled(s: Sys): set<string> {
    Elems(s.co.queue) + s.co.executions.Keys + InState(s.st.tasks, Running)
  }

  /** The call may settle something in workflow `w`. */
  ghost predicate Concerns(s: Sys, e: Event, w: string) {
    match e
    case Submit(spec, _, _) => spec.workflowId == w
    case Succeed(t, x, _) => Accepts(s.co, t, x) && Owner(s.co, t) == w
    case Fail(t, x, _, _, _) => Accepts(s.co, t, x) && Owner(s.co, t) == w
    case Cancel(v) => v == w
    case _ => false
  }

  lemma SucceedHarmless(s: Sys, t: string, x: string, output: string, w: string)
    requires Safe(s) && !Concerns(s, Succeed(t, x, output), w)
    ensures forall tx | tx in SucceedTxns(s, t, x, output) :: Harmless(s.st.tasks, tx, w, Handled(s))
  {
    hide Safe, Completed;
    if Accepts(s.co, t, x) { HeldFacts(s, t); }
  }

  lemma FailHarmless(s: Sys, t: string, x: string, msg: string, newId: string, skipped: seq<string>, w: string)
    requires Safe(s) && !Concerns(s, Fail(t, x, msg, newId, skipped), w) && Resolved(s, Fail(t, x, msg, newId, skipped))
    ensures forall tx | tx in FailTxns(s, t, x, msg, newId, skipped) :: Harmless(s.st.tasks, tx, w, Handled(s))
  {
    hide Safe;
    if Accepts(s.co, t, x) {
      HeldFacts(s, t);
      if SkipsDownstream(s, t, x) {
        forall u | u in skipped ensures Outside(s.st.tasks, u, w) {
          FailSkipsOwn(s, t, msg, u);
        }
      }
    }
  }

  lemma CallHarmless(s: Sys, e: Event, w: string)
    requires Safe(s) && Enabled(s, e) && !Concerns(s, e, w) && !e.Submit?
    ensures forall tx | tx in Txns(s, e) :: Harmless(s.st.tasks, tx, w, Handled(s))
  {
    hide Safe;
    match e
    case Succeed(t, x, output) => SucceedHarmless(s, t, x, output, w);
    case Fail(t, x, msg, newId, skipped) => FailHarmless(s, t, x, msg, newId, skipped, w);
    case Assign(worker, x) => if s.co.queue != [] { assert s.co.queue[0] in Handled(s); }
    case WorkerDied(worker, tasks, ids) =>
      SameHeldKeys(s);
      RequeuesHandled(tasks, ids, Handled(s));
    case Restart(ws, queued, running, ids) => RequeuesHandled(running, ids, Handled(s));
    case _ =>
  }

  lemma RequeuesHandled(order: seq<string>, ids: map<string, string>, S: set<string>)
    requires forall t | t in order :: t in S
    ensures forall tx | tx in RequeueTxns(order, ids) :: tx.RequeueTask? && tx.task in S
  {
  }

  lemma SubmitGentle(s: Sys, spec: WorkflowSpec, down: Graph, roots: seq<string>, k: nat, w: string, S: set<string>)
    requires Admitted(spec) && spec.workflowId != w && k <= |SubmitTxns(spec, down, roots)|
    requires (forall t | t in Ids(spec.tasks) :: t !in s.st.tasks) && forall t | t in roots :: t in Ids(spec.tasks)
    ensures Gentle(s.st, Fold(s.st, SubmitTxns(spec, down, roots)[..k]), w, S)
  {
    SubmitPrefix(s.st, spec, down, roots, k);
    InitializedEffect(s.st.tasks, spec.workflowId, spec.tasks, InDegrees(spec.tasks), down);
  }

  /** After any number of a call's transactions a workflow it does not concern has
      at most had tasks queued or handed out again. */
  lemma ForeignPrefix(s: Sys, e: Event, k: nat, w: string)
    requires Safe(s) && Enabled(s, e) && !Concerns(s, e, w) && k <= |Txns(s, e)| && AllPermitted(s.st, Txns(s, e))
    ensures Gentle(s.st, Fold(s.st, Txns(s, e)[..k]), w, Handled(s))
  {
    hide StoreSafe, CoordSafe, AllPermitted, Gentle;
    if e.Submit? {
      if Admitted(e.spec) {
        SubmitGentle(s, e.spec, e.down, e.roots, k, w, Handled(s));
      } else {
        GentleSelf(s.st, w, Handled(s));
      }
    } else {
      CallHarmless(s, e, w);
      hide Harmless, Txns;
      PrefixGentle(s.st, Txns(s, e), k, w, Handled(s));
    }
  }

  lemma GentleSelf(st: Store, w: string, S: set<string>)
    ensures Gentle(st, st, w, S)
  {
  }
}
