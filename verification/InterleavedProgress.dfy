/** Progress when calls interleave: on an orderly schedule whose crashes fall between
    calls, an active workflow is never stuck while no call is in flight, and whatever
    the crashes, no task that was released is ever dropped. */
module InterleavedProgress {
  import opened Types
  import opened Seqs
  import opened Graphs
  import opened Dags
  import opened Stores
  import opened Systems
  import opened StoreSafety
  import opened Safety
  import opened Liveness
  import opened Progress
  import opened Interleaving
  import opened Schedules
  import opened Custody
  import opened Settling

  /** No released task of an open workflow has been dropped. */
  ghost predicate Keeping(s: Fine) {
    Exclusive(s) && Marked(s) && Guarding(s)
  }

  /** Whatever is still to be done is in the hands of a call in flight. */
  ghost predicate Promised(s: Fine) {
    OrphansCovered(s) && EndsCovered(s) && RecordsComing(s) && RootsCovered(s) && Counting(s.st)
  }

  // ---- A call starts ---------------------------------------------------------------------------

  /** The first step of a call. */
  predicate First(op: Op) {
    op.SubmitStore? || op.GetAssign? || op.CompleteWrite? || op.FailRead? || op.CancelWrite? || op.RequeueList?
  }

  /** A call has started: the store, the caches and the other calls are as they were. */
  ghost predicate Started(s: Fine, id: nat, s': Fine) {
    && s'.st == s.st && s'.co.specCache == s.co.specCache && s'.co.workflowOf == s.co.workflowOf
    && (forall i | i in s.ops :: i in s'.ops && s'.ops[i] == s.ops[i])
    && (forall i | i in s'.ops :: i in s.ops || (i == id && First(s'.ops[id])))
  }

  lemma StartStarted(s: Fine, id: nat, r: Request)
    requires Possible(s, Start(id, r))
    ensures Started(s, id, Next(s, Start(id, r)))
  {
    hide IsDag, Transposes, HeldBy, Roots;
  }

  lemma StartedOpen(s: Fine, id: nat, s': Fine, w: string)
    requires Started(s, id, s')
    ensures Open(s', w) <==> Open(s, w)
  {
    if Open(s', w) {
      forall i | i in s.ops ensures !Closes(s.ops[i], w) { assert s'.ops[i] == s.ops[i]; }
    }
  }

  lemma StartedSurvives(s: Fine, id: nat, s': Fine)
    requires Started(s, id, s')
    ensures Survives(s, s') && forall t | Cached(s, t) :: Cached(s', t)
  {
    hide Started, Open, Passed, Doomed;
    StartedStore(s, id, s');
    forall w ensures Open(s', w) <==> Open(s, w) { StartedOpen(s, id, s', w); }
  }

  lemma StartedStore(s: Fine, id: nat, s': Fine)
    requires Started(s, id, s')
    ensures s'.st == s.st && s'.co.specCache == s.co.specCache && s'.co.workflowOf == s.co.workflowOf
  {
  }

  /** Whoever holds a task after the start took it from the queue or the running table. */
  lemma StartHolds(s: Fine, id: nat, r: Request, s': Fine, t: string)
    requires Possible(s, Start(id, r)) && s.co.running.Keys == s.co.executions.Keys && s' == Next(s, Start(id, r))
    requires t in s'.co.queue || t in s'.co.executions || (id in s'.ops && t in Tokens(s'.ops[id]))
    ensures t in s.co.queue || t in s.co.executions
  {
    hide IsDag, Transposes, Roots;
  }

  /** Nothing is dropped: a task popped from the queue is handed to the call unless its spec is not cached. */
  lemma StartKeeps(s: Fine, id: nat, r: Request, s': Fine, t: string)
    requires Possible(s, Start(id, r)) && s' == Next(s, Start(id, r)) && Held(s.co, s.ops, t) && t in s.co.specCache
    ensures Held(s'.co, s'.ops, t)
  {
    hide IsDag, Transposes, Roots, Tokens, Accepts, HeldBy;
    if t in s.co.queue || t in s.co.executions {
      StartHands(s, id, r, s', t);
    } else {
      var i :| i in s.ops && t in Tokens(s.ops[i]);
      assert t in Tokens(s'.ops[i]);
    }
  }

  lemma StartHands(s: Fine, id: nat, r: Request, s': Fine, t: string)
    requires Possible(s, Start(id, r)) && s' == Next(s, Start(id, r)) && t in s.co.specCache
    requires t in s.co.queue || t in s.co.executions
    ensures t in s'.co.queue || t in s'.co.executions || (id in s'.ops && t in Tokens(s'.ops[id]))
  {
    hide IsDag, Transposes, Roots, Accepts;
  }

  lemma StartMarked(s: Fine, id: nat, r: Request)
    requires Exclusive(s) && Marked(s) && Possible(s, Start(id, r))
    ensures Marked(Next(s, Start(id, r)))
  {
    hide Exclusive, Possible, Next, Cached, Survives, OpMarked, Tokens;
    var s' := Next(s, Start(id, r));
    StartStarted(s, id, r);
    StartedSurvives(s, id, s');
    RunningHeld(s);
    forall t | t in s'.co.queue || t in s'.co.executions ensures Cached(s', t) { StartHolds(s, id, r, s', t); }
    forall i, t | i in s'.ops && !s'.ops[i].SubmitCaches? && t in Tokens(s'.ops[i]) ensures Cached(s', t) {
      if i in s.ops { assert Cached(s, t); } else { StartHolds(s, id, r, s', t); }
    }
    forall i | i in s'.ops ensures OpMarked(s', s'.ops[i]) {
      if i in s.ops {
        MarkedSurvives(s, s', s.ops[i]);
      } else {
        FirstMarked(s', s'.ops[i]);
      }
    }
  }

  lemma FirstMarked(s: Fine, op: Op)
    requires First(op)
    ensures OpMarked(s, op)
  {
  }

  lemma RunningHeld(s: Fine)
    requires Exclusive(s)
    ensures s.co.running.Keys == s.co.executions.Keys
  {
    hide StoreSafe, OpsOk, Apart, Sound, Cleared;
  }

  /** A task that is held has its spec cached. */
  lemma HeldCached(s: Fine, t: string)
    requires Exclusive(s) && Marked(s) && (t in s.co.queue || t in s.co.executions)
    requires t in s.st.tasks && Open(s, s.st.tasks[t].workflowId)
    ensures t in s.co.specCache
  {
    hide Exclusive, Open, OpMarked;
    assert Cached(s, t);
    TaskOfWorkflow(s, t);
  }

  lemma TaskOfWorkflow(s: Fine, t: string)
    requires Exclusive(s) && t in s.st.tasks
    ensures s.st.tasks[t].workflowId in s.st.specs && t in Ids(s.st.specs[s.st.tasks[t].workflowId].tasks)
  {
    hide StoreSafe, MemoryOk, OpsOk, Apart, Sound, SpecsOk;
    SafeSpecs(s.st);
  }

  lemma StartGuarding(s: Fine, id: nat, r: Request)
    requires Keeping(s) && Possible(s, Start(id, r))
    ensures Guarding(Next(s, Start(id, r)))
  {
    hide Exclusive, Marked, Possible, Next, Held, Started, Open;
    var s' := Next(s, Start(id, r));
    StartStarted(s, id, r);
    StartedStore(s, id, s');
    forall t | Taken(s'.st, t) && Open(s', s'.st.tasks[t].workflowId) ensures Held(s'.co, s'.ops, t) {
      StartedOpen(s, id, s', s.st.tasks[t].workflowId);
      HeldPast(s, id, r, s', t);
    }
  }

  lemma HeldPast(s: Fine, id: nat, r: Request, s': Fine, t: string)
    requires Exclusive(s) && Marked(s) && Possible(s, Start(id, r)) && s' == Next(s, Start(id, r))
    requires t in s.st.tasks && Open(s, s.st.tasks[t].workflowId) && Held(s.co, s.ops, t)
    ensures Held(s'.co, s'.ops, t)
  {
    hide Exclusive, Marked, Possible, Next, Started, Open, Tokens;
    if t in s.co.queue || t in s.co.executions {
      HeldCached(s, t);
      StartKeeps(s, id, r, s', t);
    } else {
      var i :| i in s.ops && t in Tokens(s.ops[i]);
      StartStarted(s, id, r);
      StartedOps(s, id, s', i);
    }
  }

  lemma StartedOps(s: Fine, id: nat, s': Fine, i: nat)
    requires Started(s, id, s') && i in s.ops
    ensures i in s'.ops && s'.ops[i] == s.ops[i]
  {
  }

  /** The promises of calls in flight stand. */
  lemma StartPromised(s: Fine, id: nat, r: Request)
    requires Promised(s) && Possible(s, Start(id, r))
    ensures Promised(Next(s, Start(id, r)))
  {
    hide Possible, Next, WillSkip, WillCheck, AllTerminal, Recorded, Rooting, Open, Started, Runnable, DepGraph, Lost;
    var s' := Next(s, Start(id, r));
    StartStarted(s, id, r);
    StartedStore(s, id, s');
    forall w ensures Open(s', w) <==> Open(s, w) { StartedOpen(s, id, s', w); }
    forall t, d | Orphan(s'.st, t, d) && Open(s', s'.st.tasks[t].workflowId)
      ensures SkipCovered(s'.ops, d, t, s'.st.tasks[t].workflowId)
    {
      var i :| i in s.ops && WillSkip(s.ops[i], d, t, s.st.tasks[t].workflowId);
      StartedOps(s, id, s', i);
    }
    forall t | t in s'.st.tasks && Open(s', s'.st.tasks[t].workflowId) &&
               AllTerminal(s'.st.tasks, s'.st.tasks[t].workflowId)
      ensures CheckCovered(s'.st.tasks, s'.ops, s'.st.tasks[t].workflowId)
    {
      var i :| i in s.ops && WillCheck(s.st.tasks, s.ops[i], s.st.tasks[t].workflowId);
      StartedOps(s, id, s', i);
    }
    forall t | IsRoot(s'.st, t) && Open(s', s'.st.tasks[t].workflowId) ensures RootCovered(s'.ops, t) {
      var i :| i in s.ops && t in Rooting(s.ops[i]);
      StartedOps(s, id, s', i);
    }
    StartRecords(s, id, s');
  }

  lemma StartRecords(s: Fine, id: nat, s': Fine)
    requires Started(s, id, s') && RecordsComing(s)
    ensures RecordsComing(s')
  {
    hide Started, Open, Recorded, Runnable;
    StartedStore(s, id, s');
    forall w | w in s'.st.specs && Open(s', w) && Runnable(s'.st.specs[w])
      ensures Recorded(s'.st, w) || exists i :: i in s'.ops && s'.ops[i].SubmitTasks? && s'.ops[i].spec.workflowId == w
    {
      StartedOpen(s, id, s', w);
      if !Recorded(s.st, w) {
        var i :| i in s.ops && s.ops[i].SubmitTasks? && s.ops[i].spec.workflowId == w;
        StartedOps(s, id, s', i);
      }
    }
  }

  // ---- A crash ------------------------------------------------------------------------------------

  /** A restart loads the caches of every active workflow. */
  lemma RestartLoads(st: Store, ws: seq<string>, w: string)
    requires SpecsOk(st.specs) && ActiveStored(st) && Enumerates(ws, st.workflows.Keys) && IsActive(st, w)
    ensures Loaded(st, LoadAll(st, ws), w)
  {
    hide LoadAll, IsDag;
    LoadAllCaches(st, ws);
    LoadAllCacheOk(st, ws);
    var co := LoadAll(st, ws);
    forall t | t in Ids(st.specs[w].tasks) ensures t in co.specCache && Owner(co, t) == w {
      assert co.specCache[t] in st.specs[co.workflowOf[t]].tasks && co.specCache[t].taskId == t;
      SpecIsListed(st.specs[co.workflowOf[t]].tasks, co.specCache[t]);
    }
  }

  lemma SpecIsListed(ts: seq<TaskSpec>, sp: TaskSpec)
    requires sp in ts
    ensures sp.taskId in Ids(ts)
  {
  }

  lemma CrashKeeping(s: Fine, ws: seq<string>, queued: seq<string>, running: seq<string>, ids: map<string, string>)
    requires Exclusive(s) && RestartOrders(s.st, ws, queued, running)
    ensures Keeping(Next(s, Crash(ws, queued, running, ids)))
  {
    hide Exclusive, LoadAll, Marked, Guarding, RestartOrders;
    CrashExclusive(s, ws, queued, running, ids);
    ExclusiveStore(s);
    hide StoreSafe, SpecsOk, ActiveStored;
    RestartMarked(Next(s, Crash(ws, queued, running, ids)), ws, queued, running, ids);
    RestartGuarding(Next(s, Crash(ws, queued, running, ids)), ws, queued, running, ids);
  }

  lemma RestartMarked(s: Fine, ws: seq<string>, queued: seq<string>, running: seq<string>, ids: map<string, string>)
    requires SpecsOk(s.st.specs) && ActiveStored(s.st) && RestartOrders(s.st, ws, queued, running)
    requires s.co == LoadAll(s.st, ws).(queue := queued) && s.ops == map[0 := RequeueList(running, ids)]
    ensures Marked(s)
  {
    hide LoadAll, SpecsOk, ActiveStored, Cached;
    forall t ensures Cached(s, t) { RestartCached(s, ws, t); }
    hide RestartOrders;
  }

  /** A restart picks up every QUEUED and every RUNNING task. */
  lemma RestartGuarding(s: Fine, ws: seq<string>, queued: seq<string>, running: seq<string>, ids: map<string, string>)
    requires RestartOrders(s.st, ws, queued, running)
    requires s.co == LoadAll(s.st, ws).(queue := queued) && s.ops == map[0 := RequeueList(running, ids)]
    ensures Guarding(s)
  {
    hide LoadAll, Open, Held, RestartOrders;
    forall t | Taken(s.st, t) ensures Held(s.co, s.ops, t) { PickedUp(s, ws, queued, running, ids, t); }
  }

  lemma PickedUp(s: Fine, ws: seq<string>, queued: seq<string>, running: seq<string>, ids: map<string, string>,
                 t: string)
    requires RestartOrders(s.st, ws, queued, running) && s.co.queue == queued &&
             s.ops == map[0 := RequeueList(running, ids)]
    requires Taken(s.st, t)
    ensures Held(s.co, s.ops, t)
  {
    if s.st.tasks[t].state.Running? {
      assert t in InState(s.st.tasks, Running);
      assert t in Tokens(s.ops[0]);
    } else {
      assert t in InState(s.st.tasks, Queued);
    }
  }

  lemma RestartCached(s: Fine, ws: seq<string>, t: string)
    requires SpecsOk(s.st.specs) && ActiveStored(s.st) && Enumerates(ws, s.st.workflows.Keys)
    requires s.co.specCache == LoadAll(s.st, ws).specCache && s.co.workflowOf == LoadAll(s.st, ws).workflowOf
    ensures Cached(s, t)
  {
    hide LoadAll, SpecsOk;
    if t in s.st.tasks && Open(s, s.st.tasks[t].workflowId) { RestartLoads(s.st, ws, s.st.tasks[t].workflowId); }
  }

  lemma ExclusiveStore(s: Fine)
    requires Exclusive(s)
    ensures StoreSafe(s.st) && SpecsOk(s.st.specs) && ActiveStored(s.st)
  {
    hide MemoryOk, OpsOk, Apart, Sound;
    SafeSpecs(s.st);
    hide StoreSafe;
  }

  /** With no call in flight nothing is outstanding, so a crash there loses nothing. */
  lemma CrashPromised(s: Fine, ws: seq<string>, queued: seq<string>, running: seq<string>, ids: map<string, string>)
    requires Promised(s) && s.ops == map[]
    ensures Promised(Next(s, Crash(ws, queued, running, ids)))
  {
    hide LoadAll, WillSkip, WillCheck, AllTerminal, Recorded, Rooting, Runnable, DepGraph, Lost;
    var s' := Next(s, Crash(ws, queued, running, ids));
    forall w | Open(s', w) ensures Open(s, w) { }
    hide Open;
  }

  // ---- Every move ---------------------------------------------------------------------------------

  lemma MoveKeeping(s: Fine, m: Move)
    requires Keeping(s) && Possible(s, m) && Orderly(s, m)
    ensures Keeping(Next(s, m))
  {
    hide Exclusive, Marked, Guarding, Orderly, Next;
    MoveExclusive(s, m);
    match m
    case Start(id, r) =>
      StartMarked(s, id, r);
      StartGuarding(s, id, r);
    case Advance(id) =>
      AdvanceMarked(s, id);
      AdvanceGuarding(s, id);
    case Crash(ws, queued, running, ids) =>
      CrashKeeping(s, ws, queued, running, ids);
  }

  lemma MovePromised(s: Fine, m: Move)
    requires Keeping(s) && Promised(s) && Possible(s, m) && (m.Crash? ==> s.ops == map[])
    ensures Promised(Next(s, m))
  {
    hide Exclusive, Marked, Guarding, Next, OrphansCovered, EndsCovered, RecordsComing, RootsCovered, Counting;
    match m
    case Start(id, r) =>
      hide Promised;
      StartPromised(s, id, r);
    case Advance(id) =>
      AdvanceOrphans(s, id);
      AdvanceEnds(s, id);
      AdvanceRecords(s, id);
      AdvanceRoots(s, id);
      AdvanceCounting(s, id);
    case Crash(ws, queued, running, ids) =>
      hide Promised;
      CrashPromised(s, ws, queued, running, ids);
  }

  lemma InitialKeeping()
    ensures Keeping(FINE_INITIAL) && Promised(FINE_INITIAL)
  {
    InitialExclusive();
    hide Exclusive;
    assert DepGraph(FINE_INITIAL.st) == map[];
  }

  lemma {:induction false} OrderlyKeeping(ss: seq<Fine>, ms: seq<Move>, i: nat)
    requires IsInterleaving(ss, ms) && i < |ss| && forall k | 0 <= k < |ms| :: Orderly(ss[k], ms[k])
    ensures Keeping(ss[i])
  {
    hide Possible, Next, Keeping, Orderly, Promised;
    if i == 0 {
      InitialKeeping();
    } else {
      OrderlyKeeping(ss, ms, i - 1);
      assert Possible(ss[i - 1], ms[i - 1]) && ss[i] == Next(ss[i - 1], ms[i - 1]) && Orderly(ss[i - 1], ms[i - 1]);
      MoveKeeping(ss[i - 1], ms[i - 1]);
    }
  }

  lemma {:induction false} OrderlyPromised(ss: seq<Fine>, ms: seq<Move>, i: nat)
    requires IsInterleaving(ss, ms) && i < |ss| && forall k | 0 <= k < |ms| :: Orderly(ss[k], ms[k])
    requires forall k | 0 <= k < |ms| && ms[k].Crash? :: ss[k].ops == map[]
    ensures Promised(ss[i])
  {
    hide Possible, Next, Keeping, Orderly, Promised;
    if i == 0 {
      InitialKeeping();
    } else {
      OrderlyPromised(ss, ms, i - 1);
      OrderlyKeeping(ss, ms, i - 1);
      assert Possible(ss[i - 1], ms[i - 1]) && ss[i] == Next(ss[i - 1], ms[i - 1]);
      MovePromised(ss[i - 1], ms[i - 1]);
    }
  }

  // ---- Progress -------------------------------------------------------------------------------------

  lemma KeepingMoves(s: Fine, t: string)
    requires Keeping(s) && s.ops == map[] && Taken(s.st, t) && IsActive(s.st, s.st.tasks[t].workflowId)
    ensures Moving(Sys(s.st, s.co), t)
  {
    hide Exclusive, Marked;
    RunningHeld(s);
    assert Open(s, s.st.tasks[t].workflowId);
    assert Held(s.co, s.ops, t);
    HeldCached(s, t);
  }

  /** On every orderly interleaving, wherever the coordinator crashes, a QUEUED or RUNNING
      task of an active workflow is at a worker's disposal or with one whenever no call
      is in flight: none is ever dropped. */
  lemma NoneDropped(ss: seq<Fine>, ms: seq<Move>, i: nat, t: string)
    requires IsInterleaving(ss, ms) && i < |ss| && forall k | 0 <= k < |ms| :: Orderly(ss[k], ms[k])
    requires ss[i].ops == map[] && Taken(ss[i].st, t) && IsActive(ss[i].st, ss[i].st.tasks[t].workflowId)
    ensures Moving(Sys(ss[i].st, ss[i].co), t)
  {
    hide IsInterleaving, Orderly, Keeping, Moving;
    OrderlyKeeping(ss, ms, i);
    KeepingMoves(ss[i], t);
  }

  /** With no call in flight, the store's part of progress holds as in the one-step model. */
  lemma QuietLive(s: Fine, w: string)
    requires Promised(s) && s.ops == map[] && IsActive(s.st, w) && w in s.st.specs
    ensures WorkLive(DepGraph(s.st), s.st, w)
  {
    var g, T := DepGraph(s.st), s.st.tasks;
    assert Open(s, w);
    hide Open;
    if Runnable(s.st.specs[w]) {
      assert Recorded(s.st, w);
      forall t | t in T && T[t].workflowId == w && T[t].state.Pending? ensures T[t].inDegree > 0 {
        assert !IsRoot(s.st, t);
      }
      forall t, d | t in T && t in g && T[t].workflowId == w && T[t].state.Pending? && d in g[t] ensures !Lost(T, d) {
        assert !Orphan(s.st, t, d);
      }
      var t := s.st.specs[w].tasks[0].taskId;
      assert t in Ids(s.st.specs[w].tasks);
      assert !AllTerminal(T, w);
      NotAllTerminal(T, w);
    }
  }

  /** On every orderly interleaving whose crashes fall between calls, an active workflow
      has a task ready for a worker or with one, whenever no call is in flight, if and only
      if it has tasks and the store accepts their ids. */
  lemma OrderlyProgress(ss: seq<Fine>, ms: seq<Move>, i: nat, w: string)
    requires IsInterleaving(ss, ms) && i < |ss| && forall k | 0 <= k < |ms| :: Orderly(ss[k], ms[k])
    requires forall k | 0 <= k < |ms| && ms[k].Crash? :: ss[k].ops == map[]
    requires ss[i].ops == map[] && IsActive(ss[i].st, w)
    ensures w in ss[i].st.specs && (CanProgress(Sys(ss[i].st, ss[i].co), w) <==> Runnable(ss[i].st.specs[w]))
  {
    hide IsInterleaving, Orderly, Keeping, Promised, Moving, Runnable, StoreSafe, WorkLive, SpecsOk;
    var s := ss[i];
    OrderlyKeeping(ss, ms, i);
    OrderlyPromised(ss, ms, i);
    KeepingStore(s);
    ActiveIsStored(s.st, w);
    if Runnable(s.st.specs[w]) {
      QuietLive(s, w);
      var t := ReleasedTask(s.st, w);
      KeepingMoves(s, t);
    } else if CanProgress(Sys(s.st, s.co), w) {
      var t :| t in s.st.tasks && s.st.tasks[t].workflowId == w && Moving(Sys(s.st, s.co), t);
      RecordedIsRunnable(s.st, t);
    }
  }

  lemma KeepingStore(s: Fine)
    requires Keeping(s)
    ensures StoreSafe(s.st)
  {
    hide Marked, Guarding, StoreSafe, MemoryOk, OpsOk, Apart, Sound;
  }
}
