/** Who answers for a workflow while calls interleave: every task that is QUEUED or
    handed out is in the queue, in the running table or in the hands of a call in
    flight, and the caches of its workflow are loaded. */
module Custody {
  import opened Types
  import opened Seqs
  import opened Graphs
  import opened Dags
  import opened Stores
  import opened Systems
  import opened StoreSafety
  import opened Safety
  import opened Interleaving
  import opened Schedules

  // ---- Workflows that nobody is about to end --------------------------------------------------

  /** The call goes on to write the end of workflow `w`. */
  predicate Closes(op: Op, w: string) {
    match op
    case CheckVerdict(x) => x == w
    case CancelMem(_, x, _) => x == w
    case WriteWorkflow(x, _) => x == w
    case _ => false
  }

  predicate Open(s: Fine, w: string) {
    IsActive(s.st, w) && forall i | i in s.ops :: !Closes(s.ops[i], w)
  }

  lemma WorkflowsAfter(st: Store, op: Op, w: string)
    requires SubmitReady(st, op)
    ensures var ws, ws' := st.workflows, After(st, op).workflows;
            || ((w in ws' <==> w in ws) && (w in ws ==> ws'[w] == ws[w]))
            || (op.SubmitState? && op.spec.workflowId == w)
            || (op.WriteWorkflow? && op.workflow == w && w in ws' && ws'[w] == op.verdict)
  {
    hide IsDag, Transposes, Enumerates, Initialized, Completed;
  }

  lemma ClosesNext(st: Store, co: Coord, op: Op, w: string)
    requires Closes(op, w) && !op.WriteWorkflow?
    ensures var next := Continue(st, co, op); next.Some? && Closes(next.value, w)
  {
    hide AllTerminal, Verdict, OpenTasks, MaxRetries, Completed, SkipNext;
  }

  /** A workflow opens only by its own submission. */
  lemma OpenBefore(s: Fine, id: nat, w: string)
    requires FineSafe(s) && id in s.ops && Open(Next(s, Advance(id)), w)
    ensures Open(s, w) || (s.ops[id].SubmitState? && s.ops[id].spec.workflowId == w)
  {
    hide StoreSafe, MemoryOk, Continue, Closes, After, Memory;
    var op, s' := s.ops[id], Next(s, Advance(id));
    assert SubmitReady(s.st, op);
    WorkflowsAfter(s.st, op, w);
    hide SubmitReady;
    if !(op.SubmitState? && op.spec.workflowId == w) {
      assert IsActive(s.st, w) by { if op.WriteWorkflow? && op.workflow == w { NotRunning(s.st, op); } }
      forall i | i in s.ops ensures !Closes(s.ops[i], w) {
        if i != id {
          assert s'.ops[i] == s.ops[i];
        } else if Closes(op, w) {
          ClosedAfter(s, id, w);
        }
      }
    }
  }

  lemma NotRunning(st: Store, op: Op)
    requires SubmitReady(st, op) && op.WriteWorkflow?
    ensures !op.verdict.WorkflowRunning?
  {
  }

  lemma ClosedAfter(s: Fine, id: nat, w: string)
    requires FineSafe(s) && id in s.ops && Closes(s.ops[id], w) && IsActive(s.st, w)
    ensures !Open(Next(s, Advance(id)), w)
  {
    hide StoreSafe, MemoryOk, Continue, Memory;
    var op, s' := s.ops[id], Next(s, Advance(id));
    assert SubmitReady(s.st, op);
    ActiveIsStored(s.st, w);
    if !op.WriteWorkflow? {
      ClosesNext(s.st, s.co, op, w);
      assert Closes(s'.ops[id], w);
    }
  }

  // ---- Records ------------------------------------------------------------------------------

  /** The state `b` of a task in state `a` after the next step of `op`. */
  ghost predicate Becomes(st: Store, op: Op, t: string, a: TaskState, b: TaskState)
    requires t in st.tasks
  {
    match op
    case SubmitRoots(roots) => b == if roots != [] && roots[0] == t then Queued else a
    case GetAssign(x, _, _) => b == if x == t then Running else a
    case CompleteWrite(x, e, o) =>
      || b == a
      || (x == t && b == Complete && Completed(st.tasks, x, e, o).err.NoError?)
      || (a == Pending && b == Queued && DepGraph(st)[t] != [] && t in Completed(st.tasks, x, e, o).ready)
    case RetryWrite(x, _) => b == if x == t then Queued else a
    case FailWrite(x, _, _) => b == if x == t then Failed else a
    case CancelWrite(w, _) => b == if st.tasks[t].workflowId == w && !a.Terminal() then Skipped else a
    case SkipWrite(x, _, _, _, _) => b == if x == t then Skipped else a
    case RequeueList(tasks, _) => b == if tasks != [] && tasks[0] == t then Queued else a
    case _ => b == a
  }

  lemma StateAfter(st: Store, op: Op, t: string)
    requires StoreSafe(st) && SubmitReady(st, op) && t in st.tasks
    ensures var T, T' := st.tasks, After(st, op).tasks;
            t in T' && T'[t].workflowId == T[t].workflowId && T'[t].downstream == T[t].downstream &&
            Becomes(st, op, t, T[t].state, T'[t].state)
  {
    hide StoreSafe, DepGraph;
    if op.CompleteWrite? {
      CompletionBecomes(st, op.task, op.execution, op.output, t);
      hide Completed;
    } else if op.SubmitTasks? {
      InitFacts(st.tasks, op.spec.workflowId, op.spec.tasks, op.down);
      hide Initialized, InitOk, IsDag;
    } else {
      hide Becomes;
      PlainBecomes(st, op, t);
    }
  }

  lemma PlainBecomes(st: Store, op: Op, t: string)
    requires t in st.tasks && !op.CompleteWrite? && !op.SubmitTasks?
    ensures var T, T' := st.tasks, After(st, op).tasks;
            t in T' && T'[t].workflowId == T[t].workflowId && T'[t].downstream == T[t].downstream &&
            T'[t].inDegree == T[t].inDegree && Becomes(st, op, t, T[t].state, T'[t].state)
  {
    hide Completed, Initialized, DepGraph, InDegrees, Lookup, ValidIds, WithWorkflow;
  }

  lemma CompletionBecomes(st: Store, x: string, e: string, o: string, t: string)
    requires StoreSafe(st) && t in st.tasks
    ensures var T, c := st.tasks, Completed(st.tasks, x, e, o);
            t in c.tasks && c.tasks[t].workflowId == T[t].workflowId && c.tasks[t].downstream == T[t].downstream &&
            Becomes(st, CompleteWrite(x, e, o), t, T[t].state, c.tasks[t].state)
  {
    hide StoreSafe, Linked;
    SafeLinks(st);
    CompletedShape(st.tasks, x, e, o);
    if x in st.tasks && st.tasks[x].executionId == e && !st.tasks[x].state.Complete? {
      CompletedRecords(DepGraph(st), st.tasks, x, e, o);
      ReadyIsQueued(DepGraph(st), st.tasks, x, e, o);
      assert Completed(st.tasks, x, e, o).err.NoError?;
      hide Completed;
      TimesMember(DepGraph(st)[t], x);
    }
  }

  /** A record that appears belongs to the submission in flight and is PENDING. */
  lemma NewRecord(st: Store, op: Op, t: string)
    requires SubmitReady(st, op) && t in After(st, op).tasks && t !in st.tasks
    ensures op.SubmitTasks? && ValidIds(op.spec.tasks) && t in Ids(op.spec.tasks) && op.spec.workflowId in st.specs
    ensures DepGraph(After(st, op))[t] == SpecGraph(op.spec.tasks)[t]
    ensures var r := After(st, op).tasks[t];
            r.workflowId == op.spec.workflowId && r.state.Pending? && r.inDegree == |DepGraph(After(st, op))[t]|
  {
    NewKeys(st, op, After(st, op), t);
    InitFacts(st.tasks, op.spec.workflowId, op.spec.tasks, op.down);
    hide Initialized, IsDag, Transposes;
    InitGraph(st, op.spec.workflowId, After(st, op).tasks);
  }

  /** The workflow of an old record was open before if it is open now. */
  lemma RecordOpen(s: Fine, id: nat, t: string)
    requires FineSafe(s) && id in s.ops && t in s.st.tasks && Open(Next(s, Advance(id)), s.st.tasks[t].workflowId)
    ensures Open(s, s.st.tasks[t].workflowId)
  {
    hide StoreSafe, MemoryOk, Open, Next, IsDag, Transposes;
    var op, w := s.ops[id], s.st.tasks[t].workflowId;
    OpenBefore(s, id, w);
    if op.SubmitState? && op.spec.workflowId == w {
      assert SubmitReady(s.st, op);
      SafeSpecs(s.st);
    }
  }

  // ---- What calls in flight remember -----------------------------------------------------------

  /** The caches hold every task of `w`. */
  ghost predicate Loaded(st: Store, co: Coord, w: string) {
    w in st.specs && forall t | t in Ids(st.specs[w].tasks) :: t in co.specCache && Owner(co, t) == w
  }

  /** If the workflow of `t` is open, its caches are loaded. */
  ghost predicate Cached(s: Fine, t: string) {
    t in s.st.tasks && Open(s, s.st.tasks[t].workflowId) ==> Loaded(s.st, s.co, s.st.tasks[t].workflowId)
  }

  /** If the workflow of `t` is open, it is `w`. */
  ghost predicate Right(s: Fine, t: string, w: string) {
    t in s.st.tasks && (Open(s, s.st.tasks[t].workflowId) ==> s.st.tasks[t].workflowId == w)
  }

  predicate Passed(st: Store, t: string) {
    t in st.tasks && !st.tasks[t].state.Pending?
  }

  ghost predicate OpMarked(s: Fine, op: Op) {
    match op
    case SubmitCaches(spec, roots) =>
      && spec.workflowId in s.st.specs && s.st.specs[spec.workflowId].tasks == spec.tasks
      && forall t | t in roots :: t in Ids(spec.tasks)
    case CompleteOwner(t) => t in s.st.tasks && Cached(s, t)
    case CancelMem(dropped, w, _) => forall t | t in dropped :: t in s.st.tasks && s.st.tasks[t].workflowId == w
    case SkipRead(t, w) => Right(s, t, w)
    case SkipLoop(todo, visited, skipped, w) =>
      && (forall u | u in todo :: Right(s, u, w)) && (forall u | u in visited :: Passed(s.st, u))
      && (forall u | u in skipped :: Doomed(s.st, u))
    case SkipWrite(t, todo, visited, skipped, w) =>
      && Right(s, t, w) && (forall u | u in todo :: Right(s, u, w))
      && (forall u | u in visited && u != t :: Passed(s.st, u)) && (forall u | u in skipped :: Doomed(s.st, u))
      && t in s.st.tasks && forall u | u in s.st.tasks[t].downstream :: u in todo
    case SkipMem(skipped, _) => forall u | u in skipped :: Doomed(s.st, u)
    case _ => true
  }

  /** Whoever holds a task holds it with the caches loaded, except a submission about to load them. */
  ghost predicate HoldersCached(s: Fine) {
    && (forall t | t in s.co.queue || t in s.co.executions :: Cached(s, t))
    && (forall i, t | i in s.ops && !s.ops[i].SubmitCaches? && t in Tokens(s.ops[i]) :: Cached(s, t))
  }

  ghost predicate Marked(s: Fine) {
    HoldersCached(s) && forall i | i in s.ops :: OpMarked(s, s.ops[i])
  }

  // ---- They stay -------------------------------------------------------------------------------

  lemma LoadedStays(st: Store, co: Coord, op: Op, st': Store, w: string)
    requires SpecsOk(st.specs) && SpecsStay(st, st') && Loaded(st, co, w)
    requires op.SubmitCaches? ==>
               op.spec.workflowId in st.specs && st.specs[op.spec.workflowId].tasks == op.spec.tasks
    ensures Loaded(st', Memory(co, op), w)
  {
    hide IsDag, Without, Elems;
    if op.SubmitCaches? {
      OthersCached(st, co, op, w);
    } else {
      hide SpecsOk, SubmitCoord;
    }
  }

  /** Loading one workflow leaves the caches of the others. */
  lemma OthersCached(st: Store, co: Coord, op: Op, w: string)
    requires SpecsOk(st.specs) && Loaded(st, co, w) && op.SubmitCaches?
    requires op.spec.workflowId in st.specs && st.specs[op.spec.workflowId].tasks == op.spec.tasks
    ensures Loaded(st, Memory(co, op), w)
  {
    SpecMapFacts(op.spec.tasks);
    hide SpecMap, IsDag;
    var co' := Memory(co, op);
    assert co'.specCache.Keys == co.specCache.Keys + Ids(op.spec.tasks);
    forall t | t in Ids(st.specs[w].tasks) ensures Owner(co', t) == w {
      assert t in Ids(op.spec.tasks) ==> op.spec.workflowId == w;
    }
  }

  lemma CachedStays(s: Fine, id: nat, t: string)
    requires FineSafe(s) && id in s.ops && OpMarked(s, s.ops[id]) && SpecsStay(s.st, After(s.st, s.ops[id]))
    requires t in s.st.tasks && Cached(s, t)
    ensures Cached(Next(s, Advance(id)), t)
  {
    hide StoreSafe, MemoryOk, Open, After, Memory, Continue, Loaded, SpecsStay, SpecsOk;
    var op, w := s.ops[id], s.st.tasks[t].workflowId;
    assert SubmitReady(s.st, op);
    StateAfter(s.st, op, t);
    if Open(Next(s, Advance(id)), w) {
      RecordOpen(s, id, t);
      SafeSpecs(s.st);
      LoadedStays(s.st, s.co, op, After(s.st, op), w);
    }
  }

  lemma PassedStays(st: Store, op: Op, t: string)
    requires StoreSafe(st) && SubmitReady(st, op) && Passed(st, t)
    ensures Passed(After(st, op), t)
  {
    hide StoreSafe, SubmitReady, After, Completed;
    StateAfter(st, op, t);
  }

  /** The parts of the state that calls in flight rely on. */
  ghost predicate Survives(s: Fine, s': Fine) {
    && SpecsStay(s.st, s'.st)
    && (forall t | t in s.st.tasks ::
          && t in s'.st.tasks && s'.st.tasks[t].workflowId == s.st.tasks[t].workflowId
          && s'.st.tasks[t].downstream == s.st.tasks[t].downstream
          && (Open(s', s.st.tasks[t].workflowId) ==> Open(s, s.st.tasks[t].workflowId)))
    && (forall t | Passed(s.st, t) :: Passed(s'.st, t))
    && (forall t | Doomed(s.st, t) :: Doomed(s'.st, t))
    && (forall t | t in s.st.tasks && Cached(s, t) :: Cached(s', t))
  }

  lemma ExclusiveParts(s: Fine, id: nat)
    requires Exclusive(s) && id in s.ops
    ensures FineSafe(s) && StoreSafe(s.st) && SubmitReady(s.st, s.ops[id]) && OpSound(s.st, s.ops[id])
    ensures Target(s.ops[id]).Some? ==> !IsFailed(s.st.tasks, Target(s.ops[id]).value)
  {
    hide StoreSafe, MemoryOk, Apart, OpSound;
    TargetNotFailed(s, id);
    assert SubmitReady(s.st, s.ops[id]);
  }

  lemma AdvanceSurvives(s: Fine, id: nat)
    requires Exclusive(s) && id in s.ops && Possible(s, Advance(id)) && OpMarked(s, s.ops[id])
    ensures Survives(s, Next(s, Advance(id))) && Grows(s.st, After(s.st, s.ops[id]))
  {
    hide Exclusive, Cached, Passed, Doomed, Open, Continue, Memory, After, Possible, Grows, SpecsStay, OpMarked;
    var op, s' := s.ops[id], Next(s, Advance(id));
    ExclusiveParts(s, id);
    AdvanceGrows(s, id);
    forall t | t in s.st.tasks
      ensures t in s'.st.tasks && s'.st.tasks[t].workflowId == s.st.tasks[t].workflowId
      ensures s'.st.tasks[t].downstream == s.st.tasks[t].downstream
      ensures Open(s', s.st.tasks[t].workflowId) ==> Open(s, s.st.tasks[t].workflowId)
    {
      StateAfter(s.st, op, t);
      if Open(s', s.st.tasks[t].workflowId) { RecordOpen(s, id, t); }
    }
    forall t | Passed(s.st, t) ensures Passed(s'.st, t) { PassedStays(s.st, op, t); }
    forall t | Doomed(s.st, t) ensures Doomed(s'.st, t) { DoomedStays(s.st, op, t); }
    forall t | t in s.st.tasks && Cached(s, t) ensures Cached(s', t) { CachedStays(s, id, t); }
  }

  lemma AdvanceGrows(s: Fine, id: nat)
    requires Exclusive(s) && Possible(s, Advance(id))
    ensures Grows(s.st, After(s.st, s.ops[id])) && SpecsStay(s.st, After(s.st, s.ops[id]))
  {
    hide StoreSafe, MemoryOk, Apart, Sound, SubmitReady, FreshStart, Apply, Carries;
    var op := s.ops[id];
    NoClobber(s, id);
    if TxnOf(op).Some? {
      OpPermitted(s.st, op);
      TxnGrows(s.st, TxnOf(op).value);
    } else {
      SelfGrows(s.st);
    }
    hide DepGraph;
  }

  /** What a call remembers survives. */
  lemma MarkedSurvives(s: Fine, s': Fine, op: Op)
    requires Survives(s, s') && OpMarked(s, op)
    ensures OpMarked(s', op)
  {
    hide Cached, Passed, Doomed, Open;
  }

  // ---- What the call itself remembers next ------------------------------------------------------

  /** The tasks that depend on a task belong to its workflow. */
  lemma SameWorkflow(st: Store, t: string, u: string)
    requires StoreSafe(st) && t in st.tasks && u in st.tasks[t].downstream
    ensures u in st.tasks && st.tasks[u].workflowId == st.tasks[t].workflowId && t in DepGraph(st)[u]
  {
    SafeLinks(st);
    hide StoreSafe, Acyclic, Closed;
    assert u in DownGraph(st.tasks)[t];
    TimesMember(DownGraph(st.tasks)[t], u);
    TimesMember(DepGraph(st)[u], t);
  }

  lemma RightBelow(s: Fine, t: string, w: string)
    requires StoreSafe(s.st) && Right(s, t, w)
    ensures forall u | u in s.st.tasks[t].downstream :: Right(s, u, w)
  {
    hide StoreSafe, Open;
    forall u | u in s.st.tasks[t].downstream ensures Right(s, u, w) { SameWorkflow(s.st, t, u); }
  }

  /** The breadth-first search moves on, over the records it finds. */
  lemma SearchMarked(s: Fine, todo: seq<string>, visited: set<string>, skipped: seq<string>, w: string)
    requires StoreSafe(s.st) && OpMarked(s, SkipLoop(todo, visited, skipped, w)) && todo != []
    requires OpSound(s.st, SkipLoop(todo, visited, skipped, w))
    ensures OpMarked(s, SkipNext(s.st.tasks, todo, visited, skipped, w))
  {
    hide StoreSafe, Right, Doomed;
    assert todo[0] in todo;
    DoomedUnreleased(s.st, todo[0]);
    RightBelow(s, todo[0], w);
  }

  lemma SkipMarked(s: Fine, op: Op)
    requires StoreSafe(s.st) && OpMarked(s, op) && OpSound(s.st, op) && (op.SkipRead? || op.SkipLoop?)
    ensures Continue(s.st, s.co, op).Some? && OpMarked(s, Continue(s.st, s.co, op).value)
  {
    hide StoreSafe, Right, Doomed, SkipNext;
    if op.SkipRead? {
      RightBelow(s, op.task, op.workflow);
    } else if op.todo != [] {
      SearchMarked(s, op.todo, op.visited, op.skipped, op.workflow);
      hide OpMarked;
    }
  }

  /** The search has marked a task. */
  lemma WriteMarked(s: Fine, s': Fine, t: string, todo: seq<string>, visited: set<string>, skipped: seq<string>,
                    w: string)
    requires OpMarked(s, SkipWrite(t, todo, visited, skipped, w)) &&
             OpSound(s.st, SkipWrite(t, todo, visited, skipped, w))
    requires Survives(s, s') && Passed(s'.st, t)
    ensures OpMarked(s', SkipLoop(todo, visited, skipped + [t], w))
  {
    hide Right, Doomed, Survives;
    MarkedSurvives(s, s', SkipLoop(todo, visited - {t}, skipped + [t], w));
  }

  lemma SkipPasses(s: Fine, id: nat)
    requires id in s.ops && s.ops[id].SkipWrite? && s.ops[id].task in s.st.tasks
    ensures var op := s.ops[id];
            && Continue(s.st, s.co, op) == Some(SkipLoop(op.todo, op.visited, op.skipped + [op.task], op.workflow))
            && Passed(Next(s, Advance(id)).st, op.task)
  {
    hide AllTerminal, Verdict, MaxRetries, Completed, OpenTasks, SkipNext, Memory;
  }

  lemma OwnMarked(s: Fine, id: nat)
    requires Exclusive(s) && id in s.ops && Marked(s) && Survives(s, Next(s, Advance(id)))
    requires Continue(s.st, s.co, s.ops[id]).Some?
    ensures OpMarked(Next(s, Advance(id)), Continue(s.st, s.co, s.ops[id]).value)
  {
    hide Exclusive, Survives, HoldersCached, Next, Continue, Passed, Right, Doomed;
    var op, s' := s.ops[id], Next(s, Advance(id));
    ExclusiveParts(s, id);
    assert OpMarked(s, op);
    if op.SkipWrite? {
      SkipPasses(s, id);
      hide OpMarked, OpSound;
      WriteMarked(s, s', op.task, op.todo, op.visited, op.skipped, op.workflow);
    } else {
      hide OpMarked, OpSound;
      if op.SkipRead? || op.SkipLoop? {
        SkipMarked(s, op);
      } else {
        NextMarked(s, id);
      }
      MarkedSurvives(s, s', Continue(s.st, s.co, op).value);
    }
  }

  /** Apart from the search, the call remembers what it has read before the step. */
  lemma NextMarked(s: Fine, id: nat)
    requires Exclusive(s) && id in s.ops && Marked(s) && Continue(s.st, s.co, s.ops[id]).Some?
    requires !s.ops[id].SkipRead? && !s.ops[id].SkipLoop? && !s.ops[id].SkipWrite?
    ensures OpMarked(s, Continue(s.st, s.co, s.ops[id]).value)
  {
    hide Right, Doomed, Open, Loaded, AllTerminal, Verdict, MaxRetries, Completed, Owner, StoreSafe, MemoryOk, IsDag;
    hide SkipNext, Transposes, Passed, Policy;
    var op := s.ops[id];
    if op.CompleteMem? || op.FailMem? {
      HolderCached(s, id);
      hide Exclusive, Cached;
    } else if op.SubmitTasks? {
      assert SubmitReady(s.st, op);
    } else {
      hide Exclusive, Cached;
    }
  }

  lemma HolderCached(s: Fine, id: nat)
    requires Exclusive(s) && id in s.ops && Marked(s) && (s.ops[id].CompleteMem? || s.ops[id].FailMem?)
    ensures s.ops[id].task in s.st.tasks && Cached(s, s.ops[id].task)
    ensures s.ops[id].FailMem? ==> Right(s, s.ops[id].task, Owner(s.co, s.ops[id].task))
  {
    hide Cached, Right, StoreSafe, MemoryOk, OpsOk, Tidy;
    var op := s.ops[id];
    assert op.task in Claims(op);
    assert op.task in s.co.executions;
    assert OpSound(s.st, op);
    OwnerRight(s, op.task);
  }

  lemma OwnerRight(s: Fine, t: string)
    requires t in s.st.tasks && Cached(s, t) && StoreSafe(s.st)
    ensures Right(s, t, Owner(s.co, t))
  {
    SafeSpecs(s.st);
    hide StoreSafe, Open, SpecsOk;
  }

  // ---- Whoever holds a task next ------------------------------------------------------------------

  /** A task the call holds or has put away was held before, or is brought in. */
  lemma HeldNext(st: Store, co: Coord, op: Op, t: string)
    requires t in Memory(co, op).queue || t in Memory(co, op).executions || t in TokensOf(Continue(st, co, op))
    ensures t in co.queue || t in co.executions || t in Tokens(op) || t in Claims(op) || t in Brought(st, op)
    ensures op.SubmitCaches? ==> t in co.queue || t in co.executions || t in op.roots
  {
    NextTokens(st, co, op);
    MemoryQueue(co, op, t);
    if t in Memory(co, op).executions { MemoryHeld(co, op, t); }
  }

  /** Loading the caches. */
  lemma CachesLoaded(st: Store, co: Coord, op: Op)
    requires op.SubmitCaches? && op.spec.workflowId in st.specs && st.specs[op.spec.workflowId].tasks == op.spec.tasks
    ensures Loaded(st, Memory(co, op), op.spec.workflowId)
  {
    SpecMapFacts(op.spec.tasks);
    hide SpecMap;
  }

  /** Tasks that a completion releases belong to the workflow of the completed task. */
  lemma ReadySameWorkflow(st: Store, t: string, x: string, output: string, d: string)
    requires StoreSafe(st) && d in Completed(st.tasks, t, x, output).ready
    ensures t in st.tasks && d in st.tasks && st.tasks[d].workflowId == st.tasks[t].workflowId
  {
    hide StoreSafe, Linked;
    SafeLinks(st);
    ReadyIsQueued(DepGraph(st), st.tasks, t, x, output);
    hide Completed;
    TimesMember(DepGraph(st)[d], t);
    LinkedWorkflow(DepGraph(st), st.tasks, d, t);
  }

  lemma LinkedWorkflow(g: Graph, T: Tasks, t: string, d: string)
    requires Linked(g, T) && t in g && d in g[t]
    ensures d in T && T[d].workflowId == T[t].workflowId
  {
  }

  /** A task that is held has a record. */
  lemma HolderRecorded(s: Fine, id: nat, t: string)
    requires Exclusive(s) && Marked(s) && id in s.ops
    requires t in s.co.queue || t in s.co.executions || t in Claims(s.ops[id]) ||
             (!s.ops[id].SubmitCaches? && t in Tokens(s.ops[id]))
    ensures t in s.st.tasks && Cached(s, t)
  {
    hide StoreSafe, OpsOk, DepGraph, Tidy, Cached, OpSound, Claims, Tokens, OpMarked;
    if t in Tokens(s.ops[id]) && !s.ops[id].SubmitCaches? {
      assert Alive(s.st, t);
    } else {
      assert t in s.co.queue || t in s.co.executions;
      assert Cleared(s.st, t);
    }
  }

  lemma BroughtCached(s: Fine, id: nat, t: string)
    requires Exclusive(s) && Marked(s) && id in s.ops && s.ops[id].CompleteWrite? && t in Brought(s.st, s.ops[id])
    ensures t in s.st.tasks && Cached(s, t)
  {
    var op := s.ops[id];
    assert op.task in Claims(op);
    HolderRecorded(s, id, op.task);
    hide Exclusive, Marked, Open, Loaded, Completed;
    ExclusiveParts(s, id);
    ReadySameWorkflow(s.st, op.task, op.execution, op.output, t);
  }

  /** The roots of a submission that has just loaded the caches. */
  lemma RootCached(s: Fine, id: nat, t: string)
    requires FineSafe(s) && id in s.ops && s.ops[id].SubmitCaches? && OpMarked(s, s.ops[id]) && t in s.ops[id].roots
    ensures Cached(Next(s, Advance(id)), t)
  {
    hide StoreSafe, MemoryOk, OpsOk, Open, IsDag, SubmitCoord;
    var op := s.ops[id];
    SafeSpecs(s.st);
    CachesLoaded(s.st, s.co, op);
    hide Memory, Continue, Loaded;
  }

  lemma HolderNext(s: Fine, id: nat, t: string)
    requires Exclusive(s) && Marked(s) && id in s.ops && Survives(s, Next(s, Advance(id)))
    requires var op, next := s.ops[id], Continue(s.st, s.co, s.ops[id]);
             t in Memory(s.co, op).queue || t in Memory(s.co, op).executions ||
             (next.Some? && !next.value.SubmitCaches? && t in Tokens(next.value))
    ensures Cached(Next(s, Advance(id)), t)
  {
    var op, s' := s.ops[id], Next(s, Advance(id));
    hide Exclusive, Survives, Cached, Next, Continue, Memory, Tokens, Claims, HoldersCached, OpMarked;
    HeldNext(s.st, s.co, op, t);
    if op.SubmitCaches? && t in op.roots {
      ExclusiveParts(s, id);
      RootCached(s, id, t);
    } else {
      if op.SubmitTasks? {
        TasksNext(s.st, s.co, op);
        HolderRecorded(s, id, t);
      } else if op.CompleteWrite? && t in Brought(s.st, op) {
        BroughtCached(s, id, t);
      } else {
        HolderRecorded(s, id, t);
      }
      SurvivesCached(s, s', t);
    }
  }

  lemma TasksNext(st: Store, co: Coord, op: Op)
    requires op.SubmitTasks?
    ensures Memory(co, op) == co && (Continue(st, co, op).Some? ==> Continue(st, co, op).value.SubmitCaches?)
  {
  }

  lemma SurvivesCached(s: Fine, s': Fine, t: string)
    requires Survives(s, s') && t in s.st.tasks && Cached(s, t)
    ensures Cached(s', t)
  {
    hide Cached, Passed, Doomed, Open;
  }

  /** A step of a call keeps what calls in flight rely on. */
  lemma AdvanceMarked(s: Fine, id: nat)
    requires Exclusive(s) && Marked(s) && id in s.ops && Possible(s, Advance(id))
    ensures Survives(s, Next(s, Advance(id))) && Marked(Next(s, Advance(id)))
  {
    hide Exclusive, Survives, Cached, OpMarked, Continue, Memory, Tokens, HoldersCached, After;
    var op, s' := s.ops[id], Next(s, Advance(id));
    assert OpMarked(s, op);
    AdvanceSurvives(s, id);
    AdvanceHolders(s, id);
    forall i | i in s'.ops ensures OpMarked(s', s'.ops[i]) {
      if i == id {
        OwnMarked(s, id);
      } else {
        assert OpMarked(s, s.ops[i]);
        MarkedSurvives(s, s', s.ops[i]);
      }
    }
  }

  lemma AdvanceHolders(s: Fine, id: nat)
    requires Exclusive(s) && Marked(s) && id in s.ops && Survives(s, Next(s, Advance(id)))
    ensures HoldersCached(Next(s, Advance(id)))
  {
    hide Exclusive, Survives, Cached, OpMarked, Continue, Memory, Tokens, After;
    var op, s' := s.ops[id], Next(s, Advance(id));
    forall t | t in s'.co.queue || t in s'.co.executions ensures Cached(s', t) { HolderNext(s, id, t); }
    forall i, t | i in s'.ops && !s'.ops[i].SubmitCaches? && t in Tokens(s'.ops[i]) ensures Cached(s', t) {
      if i == id {
        HolderNext(s, id, t);
      } else {
        HolderRecorded(s, i, t);
        SurvivesCached(s, s', t);
      }
    }
  }

  // ---- Every released task is held ------------------------------------------------------------------

  predicate Held(co: Coord, ops: map<nat, Op>, t: string) {
    t in co.queue || t in co.executions || exists i :: i in ops && t in Tokens(ops[i])
  }

  predicate Taken(st: Store, t: string) {
    t in st.tasks && (st.tasks[t].state.Queued? || st.tasks[t].state.Running?)
  }

  ghost predicate Guarding(s: Fine) {
    forall t | Taken(s.st, t) && Open(s, s.st.tasks[t].workflowId) :: Held(s.co, s.ops, t)
  }

  /** What a call holds it passes on, as long as the task has a record. */
  lemma TokensPass(st: Store, co: Coord, op: Op, t: string)
    requires t in Tokens(op) && t in st.tasks
    ensures t in Memory(co, op).queue || t in Memory(co, op).executions || t in TokensOf(Continue(st, co, op))
  {
    hide AllTerminal, Verdict, OpenTasks, MaxRetries, Completed, SkipNext;
  }

  /** The queue and the running table let go of a task only when it is given up or has ended. */
  lemma PutAway(co: Coord, op: Op, t: string)
    requires t in co.queue || t in co.executions
    ensures || t in Memory(co, op).queue || t in Memory(co, op).executions || Ends(op, t)
            || (op.CancelMem? && t in op.dropped) || (op.SkipMem? && t in op.skipped)
  {
    if op.CancelMem? {
      WithoutMembers(co.queue, op.dropped);
    } else if op.SkipMem? {
      WithoutMembers(co.queue, Elems(op.skipped));
    }
  }

  /** A task that is QUEUED or RUNNING stays held. */
  lemma HeldStays(s: Fine, id: nat, s': Fine, t: string)
    requires Exclusive(s) && Marked(s) && id in s.ops && s' == Next(s, Advance(id))
    requires Held(s.co, s.ops, t) && t in s.st.tasks && Taken(s'.st, t) && Open(s', s.st.tasks[t].workflowId)
    ensures Held(s'.co, s'.ops, t)
  {
    hide Exclusive, Marked, Open, Memory, Continue, Tokens, Taken, After;
    var op := s.ops[id];
    if t in s.co.queue || t in s.co.executions {
      PutAway(s.co, op, t);
      if t !in s'.co.queue && t !in s'.co.executions { NotLetGo(s, id, s', t); }
    } else {
      var i :| i in s.ops && t in Tokens(s.ops[i]);
      if i == id {
        TokensPass(s.st, s.co, op, t);
        assert t in s'.co.queue || t in s'.co.executions || t in Tokens(s'.ops[id]);
      } else {
        assert t in Tokens(s'.ops[i]);
      }
    }
  }

  /** A call lets go only of tasks that are neither QUEUED nor RUNNING, or whose workflow it ends. */
  lemma NotLetGo(s: Fine, id: nat, s': Fine, t: string)
    requires Exclusive(s) && Marked(s) && id in s.ops && s' == Next(s, Advance(id))
    requires || Ends(s.ops[id], t) || (s.ops[id].CancelMem? && t in s.ops[id].dropped)
             || (s.ops[id].SkipMem? && t in s.ops[id].skipped)
    requires t in s.st.tasks && Taken(s'.st, t)
    ensures !Open(s', s.st.tasks[t].workflowId)
  {
    hide Exclusive, HoldersCached, Memory, Doomed, Next, Continue, Open, FineSafe, StoreSafe, SubmitReady, Target,
         Right, Cached;
    var op := s.ops[id];
    assert OpMarked(s, op);
    ExclusiveParts(s, id);
    LetsGo(s, id, s');
    if op.CancelMem? {
      hide OpSound;
      ClosingNotOpen(s', id, op.workflow);
    } else {
      if op.SkipMem? { DoomedUnreleased(s.st, t); }
      assert false;
    }
  }

  lemma LetsGo(s: Fine, id: nat, s': Fine)
    requires id in s.ops && s' == Next(s, Advance(id))
    requires s.ops[id].CompleteMem? || s.ops[id].FailMem? || s.ops[id].CancelMem? || s.ops[id].SkipMem?
    ensures s'.st == s.st
    ensures s.ops[id].CancelMem? ==> id in s'.ops && s'.ops[id] == WriteWorkflow(s.ops[id].workflow, s.ops[id].verdict)
  {
    hide AllTerminal, Verdict, OpenTasks, MaxRetries, Completed, SkipNext, Owner, Policy, Apply, Memory;
  }

  lemma ClosingNotOpen(s: Fine, id: nat, w: string)
    requires id in s.ops && Closes(s.ops[id], w)
    ensures !Open(s, w)
  {
  }

  /** A task that becomes QUEUED or RUNNING is in the hands of the call that wrote it. */
  lemma NewlyHeld(s: Fine, id: nat, s': Fine, t: string)
    requires Exclusive(s) && Marked(s) && id in s.ops && s' == Next(s, Advance(id))
    requires t in s.st.tasks && Taken(s'.st, t) && !Taken(s.st, t) && Open(s', s.st.tasks[t].workflowId)
    ensures Held(s'.co, s'.ops, t)
  {
    hide Exclusive, Marked, Open, Memory, After, DepGraph, Completed, Continue, Claims;
    hide FineSafe, StoreSafe, SubmitReady, Target, OpSound;
    var op := s.ops[id];
    ExclusiveParts(s, id);
    StateAfter(s.st, op, t);
    if op.CompleteWrite? {
      ReleaseHolds(s, id, s', t);
    } else {
      if op.RetryWrite? { RetryHeld(s, id); } else { assert t in Tokens(op); }
      hide Next, Becomes, Tokens, Taken;
      HeldStays(s, id, s', t);
    }
  }

  lemma ReleaseHolds(s: Fine, id: nat, s': Fine, t: string)
    requires id in s.ops && s' == Next(s, Advance(id)) && s.ops[id].CompleteWrite?
    requires var op := s.ops[id]; t in Completed(s.st.tasks, op.task, op.execution, op.output).ready
    ensures Held(s'.co, s'.ops, t)
  {
    hide AllTerminal, Verdict, OpenTasks, MaxRetries, SkipNext, Owner, Policy, Apply, Memory;
    var op := s.ops[id];
    var c := Completed(s.st.tasks, op.task, op.execution, op.output);
    assert c.err.NoError?;
    hide Completed;
    assert s'.ops[id] == CompleteMem(op.task, c.ready);
    assert t in Tokens(s'.ops[id]);
  }

  lemma RetryHeld(s: Fine, id: nat)
    requires Exclusive(s) && id in s.ops && s.ops[id].RetryWrite?
    ensures s.ops[id].task in s.co.executions
  {
    hide FineSafe, Sound, Tidy, Tokens;
    assert s.ops[id].task in Claims(s.ops[id]);
  }

  lemma AdvanceGuarding(s: Fine, id: nat)
    requires Exclusive(s) && Marked(s) && Guarding(s) && id in s.ops
    ensures Guarding(Next(s, Advance(id)))
  {
    hide Exclusive, Held, Open, Marked, Next, Becomes;
    var s' := Next(s, Advance(id));
    forall t | Taken(s'.st, t) && Open(s', s'.st.tasks[t].workflowId) ensures Held(s'.co, s'.ops, t) {
      if t !in s.st.tasks { NewUntaken(s, id, s', t); }
      OldRecord(s, id, s', t);
      if Taken(s.st, t) {
        HeldStays(s, id, s', t);
      } else {
        NewlyHeld(s, id, s', t);
      }
    }
  }

  lemma NewUntaken(s: Fine, id: nat, s': Fine, t: string)
    requires Exclusive(s) && id in s.ops && s' == Next(s, Advance(id)) && t !in s.st.tasks
    ensures !Taken(s'.st, t)
  {
    hide Exclusive, FineSafe, StoreSafe, SubmitReady, Target, OpSound, After, Memory, Continue;
    ExclusiveParts(s, id);
    if t in s'.st.tasks { NewRecord(s.st, s.ops[id], t); }
  }

  lemma DepKeys(st: Store)
    ensures DepGraph(st).Keys == st.tasks.Keys
  {
  }

  lemma OldRecord(s: Fine, id: nat, s': Fine, t: string)
    requires Exclusive(s) && id in s.ops && s' == Next(s, Advance(id)) && t in s.st.tasks
    ensures t in s'.st.tasks && s'.st.tasks[t].workflowId == s.st.tasks[t].workflowId
    ensures Open(s', s.st.tasks[t].workflowId) ==> Open(s, s.st.tasks[t].workflowId)
    ensures Becomes(s.st, s.ops[id], t, s.st.tasks[t].state, s'.st.tasks[t].state)
  {
    hide Exclusive, FineSafe, StoreSafe, SubmitReady, Target, OpSound, Open, Becomes, Memory, Continue, After;
    ExclusiveParts(s, id);
    StateAfter(s.st, s.ops[id], t);
    if Open(s', s.st.tasks[t].workflowId) { RecordOpen(s, id, t); }
  }
}
