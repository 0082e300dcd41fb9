/** What is still to be done about a workflow is in the hands of a call in flight:
    a PENDING task below a lost one is about to be skipped, and a workflow whose
    tasks have all ended is about to be checked. */
module Settling {
  import opened Types
  import opened Graphs
  import opened Dags
  import opened Stores
  import opened Systems
  import opened StoreSafety
  import opened Safety
  import opened Liveness
  import opened Interleaving
  import opened Schedules
  import opened Custody

  // ---- Tasks below a lost one -------------------------------------------------------------------

  /** The PENDING task `t` waits for `d`, which will never complete. */
  ghost predicate Orphan(st: Store, t: string, d: string) {
    t in st.tasks && st.tasks[t].state.Pending? && t in DepGraph(st) && d in DepGraph(st)[t] && Lost(st.tasks, d)
  }

  /** The call goes on to skip `t`, which depends on `d`, or to end their workflow `w`. */
  predicate WillSkip(op: Op, d: string, t: string, w: string) {
    match op
    case FailMem(x) => x == d
    case CancelWrite(x, _) => x == w
    case SkipRead(x, _) => x == d
    case SkipLoop(todo, visited, _, _) => t in todo && t !in visited
    case SkipWrite(x, todo, visited, _, _) => x == t || (t in todo && t !in visited)
    case _ => false
  }

  predicate SkipCovered(ops: map<nat, Op>, d: string, t: string, w: string) {
    exists i :: i in ops && WillSkip(ops[i], d, t, w)
  }

  ghost predicate OrphansCovered(s: Fine) {
    forall t, d | Orphan(s.st, t, d) && Open(s, s.st.tasks[t].workflowId) ::
      SkipCovered(s.ops, d, t, s.st.tasks[t].workflowId)
  }

  /** The search reaches a PENDING task that is on its list. */
  lemma SearchCovers(T: Tasks, todo: seq<string>, visited: set<string>, skipped: seq<string>, v: string, d: string,
                     t: string, w: string)
    requires t in T && T[t].state.Pending? && t in todo && t !in visited
    ensures todo != [] && WillSkip(SkipNext(T, todo, visited, skipped, v), d, t, w)
  {
    assert forall u | u in todo :: u == todo[0] || u in todo[1..];
  }

  lemma CoverNext(s: Fine, id: nat, s': Fine, d: string, t: string)
    requires Exclusive(s) && Marked(s) && id in s.ops && s' == Next(s, Advance(id))
    requires t in s.st.tasks && d in s.st.tasks && t in s.st.tasks[d].downstream && s.st.tasks[t].state.Pending?
    requires s.st.tasks[d].workflowId == s.st.tasks[t].workflowId
    requires t in s'.st.tasks && s'.st.tasks[t].state.Pending? && Open(s, s.st.tasks[t].workflowId)
    requires Open(s', s.st.tasks[t].workflowId) && WillSkip(s.ops[id], d, t, s.st.tasks[t].workflowId)
    ensures SkipCovered(s'.ops, d, t, s.st.tasks[t].workflowId)
  {
    hide Exclusive, Marked, Open, SkipNext, After, Memory;
    var op, w := s.ops[id], s.st.tasks[t].workflowId;
    var next := Continue(s.st, s.co, op);
    if op.FailMem? {
      FailCovers(s, id, w);
      hide Continue;
    } else if op.CancelWrite? {
      CancelCloses(s, id, s');
      assert false;
    } else if op.SkipLoop? {
      SearchCovers(s.st.tasks, op.todo, op.visited, op.skipped, op.workflow, d, t, w);
      hide WillSkip;
      assert next == Some(SkipNext(s.st.tasks, op.todo, op.visited, op.skipped, op.workflow));
    } else if op.SkipWrite? {
      if op.task == t { SkipWritten(s, id, s'); }
    }
    assert next.Some? && WillSkip(next.value, d, t, w);
    hide Continue, WillSkip;
    assert s'.ops[id] == next.value;
  }

  lemma CancelCloses(s: Fine, id: nat, s': Fine)
    requires id in s.ops && s' == Next(s, Advance(id)) && s.ops[id].CancelWrite?
    ensures !Open(s', s.ops[id].workflow)
  {
    hide OpenTasks, Apply, Memory;
    assert Closes(s'.ops[id], s.ops[id].workflow);
  }

  lemma SkipWritten(s: Fine, id: nat, s': Fine)
    requires id in s.ops && s' == Next(s, Advance(id)) && s.ops[id].SkipWrite? && s.ops[id].task in s.st.tasks
    ensures s.ops[id].task in s'.st.tasks && s'.st.tasks[s.ops[id].task].state.Skipped?
  {
    hide Continue, Memory;
  }

  /** After a final failure the policy is applied to the task's own workflow. */
  lemma FailCovers(s: Fine, id: nat, w: string)
    requires Exclusive(s) && Marked(s) && id in s.ops && s.ops[id].FailMem? && Open(s, w)
    requires s.ops[id].task in s.st.tasks && s.st.tasks[s.ops[id].task].workflowId == w
    ensures var next := Continue(s.st, s.co, s.ops[id]);
            next == Some(CancelWrite(w, WorkflowFailed)) || next == Some(SkipRead(s.ops[id].task, w))
  {
    hide Exclusive, Marked, StoreSafe, MemoryOk, OpsOk, Cached, Owner, Policy;
    HolderCached(s, id);
    ExclusiveParts(s, id);
    ActiveIsStored(s.st, w);
    assert Owner(s.co, s.ops[id].task) == w && w != "";
  }

  /** Another call's promise stands. */
  lemma OthersStand(s: Fine, id: nat, s': Fine, i: nat)
    requires id in s.ops && s' == Next(s, Advance(id)) && i in s.ops && i != id
    ensures i in s'.ops && s'.ops[i] == s.ops[i]
  {
    hide Continue, Memory, After;
  }

  /** An orphan was PENDING before, and so was its edge. */
  lemma OrphanBefore(s: Fine, id: nat, s': Fine, t: string, d: string)
    requires Exclusive(s) && id in s.ops && s' == Next(s, Advance(id)) && Grows(s.st, s'.st) && Orphan(s'.st, t, d)
    ensures t in s.st.tasks && s.st.tasks[t].state.Pending? && t in DepGraph(s.st) && d in DepGraph(s.st)[t]
    ensures d in s.st.tasks && t in s.st.tasks[d].downstream && s.st.tasks[d].workflowId == s.st.tasks[t].workflowId
  {
    hide Exclusive, DepGraph, Open, Next, Completed, FineSafe, StoreSafe, SubmitReady, Target, OpSound;
    DepKeys(s.st);
    if t !in s.st.tasks {
      NewNotOrphan(s, id, s', t, d);
      assert false;
    }
    OldRecord(s, id, s', t);
    hide Becomes;
    ExclusiveParts(s, id);
    DependsDown(s.st, t, d);
  }

  /** A dependency lists its dependents downstream. */
  lemma DependsDown(st: Store, t: string, d: string)
    requires StoreSafe(st) && t in DepGraph(st) && d in DepGraph(st)[t]
    ensures t in st.tasks && d in st.tasks && t in st.tasks[d].downstream
    ensures st.tasks[d].workflowId == st.tasks[t].workflowId
  {
    SafeLinks(st);
    hide StoreSafe, Acyclic;
    TimesMember(DepGraph(st)[t], d);
    TimesMember(DownGraph(st.tasks)[d], t);
  }

  /** The tasks of a new workflow wait for one another only. */
  lemma NewNotOrphan(s: Fine, id: nat, s': Fine, t: string, d: string)
    requires Exclusive(s) && id in s.ops && s' == Next(s, Advance(id)) && t in s'.st.tasks && t !in s.st.tasks
    ensures !Orphan(s'.st, t, d)
  {
    hide Exclusive, FineSafe, StoreSafe, Transposes, Initialized, Target, OpSound, After, Memory, Continue;
    ExclusiveParts(s, id);
    NewRecord(s.st, s.ops[id], t);
    if Orphan(s'.st, t, d) {
      var ts := s.ops[id].spec.tasks;
      assert d in SpecGraph(ts)[t];
      NewDependency(s.st, s.ops[id], t, d);
      NewRecord(s.st, s.ops[id], d);
      assert false;
    }
  }

  lemma NewDependency(st: Store, op: Op, t: string, d: string)
    requires SubmitReady(st, op) && op.SubmitTasks? && t in SpecGraph(op.spec.tasks) && d in SpecGraph(op.spec.tasks)[t]
    ensures d in Ids(op.spec.tasks) && d !in st.tasks
  {
    var ts := op.spec.tasks;
    assert IsDag(ts) && forall u | u in Ids(ts) :: u !in st.tasks;
    hide SubmitReady, Acyclic;
    SpecGraphClosed(ts);
    assert d in SpecGraph(ts);
  }

  /** A task that is lost by the step leaves its dependents to the call that wrote it. */
  lemma NewlyLost(s: Fine, id: nat, s': Fine, t: string, d: string)
    requires Exclusive(s) && Marked(s) && id in s.ops && s' == Next(s, Advance(id))
    requires t in s.st.tasks && d in s.st.tasks && t in s.st.tasks[d].downstream && s.st.tasks[t].state.Pending?
    requires s.st.tasks[d].workflowId == s.st.tasks[t].workflowId && Open(s', s.st.tasks[t].workflowId)
    requires !Lost(s.st.tasks, d) && Lost(s'.st.tasks, d) && t in s'.st.tasks && s'.st.tasks[t].state.Pending?
    ensures SkipCovered(s'.ops, d, t, s.st.tasks[t].workflowId)
  {
    hide Exclusive, HoldersCached, Open, After, Memory, Completed, DepGraph, Right, Cached, Doomed;
    var op, w := s.ops[id], s.st.tasks[t].workflowId;
    assert OpMarked(s, op);
    OldRecord(s, id, s', d);
    if op.CancelWrite? {
      CancelCloses(s, id, s');
      assert false;
    }
    var next := Continue(s.st, s.co, op);
    assert next.Some? && WillSkip(next.value, d, t, w);
    hide Continue, WillSkip;
    assert s'.ops[id] == next.value;
  }

  lemma AdvanceOrphans(s: Fine, id: nat)
    requires Exclusive(s) && Marked(s) && OrphansCovered(s) && id in s.ops && Possible(s, Advance(id))
    ensures OrphansCovered(Next(s, Advance(id)))
  {
    hide Exclusive, Marked, Open, Possible, Grows, Next, SpecsStay, DepGraph, Becomes, WillSkip;
    var s' := Next(s, Advance(id));
    AdvanceGrowsTo(s, id, s');
    forall t, d | Orphan(s'.st, t, d) && Open(s', s'.st.tasks[t].workflowId)
      ensures SkipCovered(s'.ops, d, t, s'.st.tasks[t].workflowId)
    {
      OrphanBefore(s, id, s', t, d);
      OldRecord(s, id, s', t);
      if Lost(s.st.tasks, d) {
        assert Orphan(s.st, t, d);
        var i :| i in s.ops && WillSkip(s.ops[i], d, t, s.st.tasks[t].workflowId);
        if i == id {
          CoverNext(s, id, s', d, t);
        } else {
          OthersStand(s, id, s', i);
        }
      } else {
        NewlyLost(s, id, s', t, d);
      }
    }
  }

  lemma AdvanceGrowsTo(s: Fine, id: nat, s': Fine)
    requires Exclusive(s) && id in s.ops && Possible(s, Advance(id)) && s' == Next(s, Advance(id))
    ensures Grows(s.st, s'.st) && SpecsStay(s.st, s'.st)
  {
    hide Exclusive, Possible, Grows, SpecsStay, Continue, Memory, After;
    AdvanceGrows(s, id);
  }

  // ---- Workflows whose tasks have all ended -------------------------------------------------------

  /** The call goes on to check whether workflow `w` has ended, or to end it. */
  predicate WillCheck(T: Tasks, op: Op, w: string) {
    match op
    case CompleteMem(t, _) => t in T && T[t].workflowId == w
    case CompleteOwner(t) => t in T && T[t].workflowId == w
    case FailMem(t) => t in T && T[t].workflowId == w
    case CheckDone(x) => x == w
    case CancelWrite(x, _) => x == w
    case SkipRead(_, x) => x == w
    case SkipLoop(_, _, _, x) => x == w
    case SkipWrite(_, _, _, _, x) => x == w
    case SkipMem(_, x) => x == w
    case _ => false
  }

  predicate CheckCovered(T: Tasks, ops: map<nat, Op>, w: string) {
    exists i :: i in ops && WillCheck(T, ops[i], w)
  }

  ghost predicate EndsCovered(s: Fine) {
    forall t | t in s.st.tasks && Open(s, s.st.tasks[t].workflowId) &&
               AllTerminal(s.st.tasks, s.st.tasks[t].workflowId) ::
      CheckCovered(s.st.tasks, s.ops, s.st.tasks[t].workflowId)
  }

  lemma CheckStands(T: Tasks, T': Tasks, op: Op, w: string)
    requires WillCheck(T, op, w) && forall t | t in T :: t in T' && T'[t].workflowId == T[t].workflowId
    ensures WillCheck(T', op, w)
  {
  }

  /** A completed task's workflow is found in the caches. */
  lemma OwnerFound(s: Fine, id: nat, w: string)
    requires Exclusive(s) && Marked(s) && id in s.ops && s.ops[id].CompleteOwner? && Open(s, w)
    requires s.ops[id].task in s.st.tasks && s.st.tasks[s.ops[id].task].workflowId == w
    ensures Continue(s.st, s.co, s.ops[id]) == Some(CheckDone(w))
  {
    hide Exclusive, HoldersCached, StoreSafe, MemoryOk, OpsOk, Open, SpecsOk;
    assert OpMarked(s, s.ops[id]);
    ExclusiveParts(s, id);
    OpenValid(s, w);
    SafeSpecs(s.st);
  }

  lemma OpenValid(s: Fine, w: string)
    requires StoreSafe(s.st) && Open(s, w)
    ensures w in s.st.specs && w != ""
  {
    hide StoreSafe;
    ActiveIsStored(s.st, w);
  }

  lemma CheckNext(s: Fine, id: nat, s': Fine, w: string)
    requires Exclusive(s) && Marked(s) && id in s.ops && s' == Next(s, Advance(id)) && AllTerminal(s.st.tasks, w)
    requires Open(s, w) && Open(s', w) && WillCheck(s.st.tasks, s.ops[id], w)
    ensures var next := Continue(s.st, s.co, s.ops[id]); next.Some? && WillCheck(s.st.tasks, next.value, w)
  {
    hide Exclusive, Marked, Open, After, Memory, AllTerminal, Completed, OpenTasks, Verdict, MaxRetries;
    var op := s.ops[id];
    if op.CompleteOwner? {
      OwnerFound(s, id, w);
    } else if op.FailMem? {
      FailCovers(s, id, w);
    } else if op.CancelWrite? {
      CancelCloses(s, id, s');
      assert false;
    } else if op.CheckDone? {
      CheckCloses(s, id, s', w);
      assert false;
    }
  }

  lemma CheckCloses(s: Fine, id: nat, s': Fine, w: string)
    requires id in s.ops && s' == Next(s, Advance(id)) && s.ops[id] == CheckDone(w) && AllTerminal(s.st.tasks, w)
    ensures !Open(s', w)
  {
    hide AllTerminal, Apply, Memory;
    assert Closes(s'.ops[id], w);
  }

  /** The call that ends the last task goes on to check the workflow. */
  lemma LastEnded(s: Fine, id: nat, s': Fine, u: string)
    requires Exclusive(s) && Marked(s) && id in s.ops && s' == Next(s, Advance(id))
    requires u in s.st.tasks && !s.st.tasks[u].state.Terminal() && u in s'.st.tasks && s'.st.tasks[u].state.Terminal()
    requires Open(s, s.st.tasks[u].workflowId) && Open(s', s.st.tasks[u].workflowId)
    ensures var next := Continue(s.st, s.co, s.ops[id]);
            next.Some? && WillCheck(s.st.tasks, next.value, s.st.tasks[u].workflowId)
  {
    hide Exclusive, HoldersCached, Open, After, Memory, Completed, DepGraph, Cached, Doomed, AllTerminal, OpenTasks;
    var op := s.ops[id];
    assert OpMarked(s, op);
    OldRecord(s, id, s', u);
    if op.CancelWrite? {
      CancelCloses(s, id, s');
      assert false;
    }
  }

  lemma WorkflowsStay(s: Fine, id: nat, s': Fine)
    requires Exclusive(s) && id in s.ops && s' == Next(s, Advance(id))
    ensures forall t | t in s.st.tasks :: t in s'.st.tasks && s'.st.tasks[t].workflowId == s.st.tasks[t].workflowId
  {
    hide Exclusive, Next, Becomes, Open;
    forall t | t in s.st.tasks ensures t in s'.st.tasks && s'.st.tasks[t].workflowId == s.st.tasks[t].workflowId {
      OldRecord(s, id, s', t);
    }
  }

  lemma EndCovered(s: Fine, id: nat, s': Fine, t: string)
    requires Exclusive(s) && Marked(s) && EndsCovered(s) && id in s.ops && s' == Next(s, Advance(id))
    requires t in s'.st.tasks && Open(s', s'.st.tasks[t].workflowId)
    requires AllTerminal(s'.st.tasks, s'.st.tasks[t].workflowId)
    ensures CheckCovered(s'.st.tasks, s'.ops, s'.st.tasks[t].workflowId)
  {
    hide Exclusive, Marked, Open, Next, Becomes, WillCheck, Continue;
    if t !in s.st.tasks { NewUnended(s, id, s', t); }
    OldRecord(s, id, s', t);
    WorkflowsStay(s, id, s');
    var w := s.st.tasks[t].workflowId;
    if AllTerminal(s.st.tasks, w) {
      var i :| i in s.ops && WillCheck(s.st.tasks, s.ops[i], w);
      if i == id {
        CheckNext(s, id, s', w);
        OwnStands(s, id, s', w);
      } else {
        OthersStand(s, id, s', i);
        CheckStands(s.st.tasks, s'.st.tasks, s.ops[i], w);
      }
    } else {
      var u :| u in s.st.tasks && s.st.tasks[u].workflowId == w && !s.st.tasks[u].state.Terminal();
      LastEnded(s, id, s', u);
      OwnStands(s, id, s', w);
    }
  }

  lemma OwnStands(s: Fine, id: nat, s': Fine, w: string)
    requires id in s.ops && s' == Next(s, Advance(id))
    requires forall t | t in s.st.tasks :: t in s'.st.tasks && s'.st.tasks[t].workflowId == s.st.tasks[t].workflowId
    requires var next := Continue(s.st, s.co, s.ops[id]); next.Some? && WillCheck(s.st.tasks, next.value, w)
    ensures CheckCovered(s'.st.tasks, s'.ops, w)
  {
    hide Continue, WillCheck, After, Memory;
    CheckStands(s.st.tasks, s'.st.tasks, Continue(s.st, s.co, s.ops[id]).value, w);
    assert id in s'.ops && WillCheck(s'.st.tasks, s'.ops[id], w);
  }

  lemma NewUnended(s: Fine, id: nat, s': Fine, t: string)
    requires Exclusive(s) && id in s.ops && s' == Next(s, Advance(id)) && t in s'.st.tasks && t !in s.st.tasks
    ensures !AllTerminal(s'.st.tasks, s'.st.tasks[t].workflowId)
  {
    hide Exclusive, FineSafe, StoreSafe, SubmitReady, Target, OpSound, After, Memory, Continue;
    ExclusiveParts(s, id);
    NewRecord(s.st, s.ops[id], t);
  }

  lemma AdvanceEnds(s: Fine, id: nat)
    requires Exclusive(s) && Marked(s) && EndsCovered(s) && id in s.ops
    ensures EndsCovered(Next(s, Advance(id)))
  {
    var s' := Next(s, Advance(id));
    forall t | t in s'.st.tasks && Open(s', s'.st.tasks[t].workflowId) &&
               AllTerminal(s'.st.tasks, s'.st.tasks[t].workflowId)
      ensures CheckCovered(s'.st.tasks, s'.ops, s'.st.tasks[t].workflowId)
    {
      EndCovered(s, id, s', t);
    }
    hide Exclusive, Marked, Open, Next, AllTerminal, CheckCovered;
  }

  // ---- Workflows without records, tasks without counts ----------------------------------------------

  /** The records of an open workflow that can run are there, or its submission is about to write them. */
  ghost predicate RecordsComing(s: Fine) {
    forall w | w in s.st.specs && Open(s, w) && Runnable(s.st.specs[w]) ::
      Recorded(s.st, w) || exists i :: i in s.ops && s.ops[i].SubmitTasks? && s.ops[i].spec.workflowId == w
  }

  lemma RecordedStays(s: Fine, id: nat, s': Fine, w: string)
    requires Exclusive(s) && id in s.ops && s' == Next(s, Advance(id)) && w in s.st.specs && w in s'.st.specs
    requires s'.st.specs[w] == s.st.specs[w] && Recorded(s.st, w)
    ensures Recorded(s'.st, w)
  {
    hide Exclusive, Next;
    WorkflowsStay(s, id, s');
  }

  lemma RecordsWritten(s: Fine, id: nat, s': Fine, w: string)
    requires Exclusive(s) && id in s.ops && s' == Next(s, Advance(id)) && w in s'.st.specs
    requires s.ops[id].SubmitTasks? && s.ops[id].spec.workflowId == w && Runnable(s'.st.specs[w])
    ensures Recorded(s'.st, w)
  {
    hide Exclusive, FineSafe, StoreSafe, IsDag, Target, OpSound, Memory, Continue;
    var op := s.ops[id];
    ExclusiveParts(s, id);
    InitFacts(s.st.tasks, w, op.spec.tasks, op.down);
    hide Initialized, Transposes;
  }

  lemma StateWritten(s: Fine, id: nat, s': Fine)
    requires id in s.ops && s' == Next(s, Advance(id)) && s.ops[id].SubmitState?
    ensures id in s'.ops && s'.ops[id].SubmitTasks? && s'.ops[id].spec == s.ops[id].spec
  {
    hide Apply, Memory;
  }

  lemma AdvanceRecords(s: Fine, id: nat)
    requires Exclusive(s) && RecordsComing(s) && id in s.ops && Possible(s, Advance(id))
    ensures RecordsComing(Next(s, Advance(id)))
  {
    hide Exclusive, Open, Possible, Grows, Next, Recorded, Runnable, FineSafe, StoreSafe, SubmitReady, Target, OpSound;
    var s' := Next(s, Advance(id));
    AdvanceGrowsTo(s, id, s');
    ExclusiveParts(s, id);
    forall w | w in s'.st.specs && Open(s', w) && Runnable(s'.st.specs[w])
      ensures Recorded(s'.st, w) || exists i :: i in s'.ops && s'.ops[i].SubmitTasks? && s'.ops[i].spec.workflowId == w
    {
      OpenBefore(s, id, w);
      if s.ops[id].SubmitState? && s.ops[id].spec.workflowId == w {
        StateWritten(s, id, s');
      } else {
        OpenValid(s, w);
        if Recorded(s.st, w) {
          RecordedStays(s, id, s', w);
        } else {
          var i :| i in s.ops && s.ops[i].SubmitTasks? && s.ops[i].spec.workflowId == w;
          if i == id { RecordsWritten(s, id, s', w); } else { OthersStand(s, id, s', i); }
        }
      }
    }
  }

  /** The roots a submission has yet to queue. */
  function Rooting(op: Op): set<string> {
    match op
    case SubmitCaches(_, roots) => Elems(roots)
    case SubmitRoots(roots) => Elems(roots)
    case SubmitAppend(_, roots) => Elems(roots)
    case _ => {}
  }

  ghost predicate IsRoot(st: Store, t: string) {
    t in st.tasks && st.tasks[t].state.Pending? && t in DepGraph(st) && DepGraph(st)[t] == []
  }

  predicate RootCovered(ops: map<nat, Op>, t: string) {
    exists i :: i in ops && t in Rooting(ops[i])
  }

  /** A PENDING task without dependencies is about to be queued. */
  ghost predicate RootsCovered(s: Fine) {
    forall t | IsRoot(s.st, t) && Open(s, s.st.tasks[t].workflowId) :: RootCovered(s.ops, t)
  }

  lemma RootsPass(st: Store, co: Coord, op: Op, t: string)
    requires t in Rooting(op) && (op.SubmitRoots? && op.roots != [] ==> t != op.roots[0])
    ensures Continue(st, co, op).Some? && t in Rooting(Continue(st, co, op).value)
  {
  }

  lemma RootStays(s: Fine, id: nat, s': Fine, t: string)
    requires id in s.ops && s' == Next(s, Advance(id)) && t in s.st.tasks && RootCovered(s.ops, t)
    requires Becomes(s.st, s.ops[id], t, s.st.tasks[t].state, Pending)
    ensures RootCovered(s'.ops, t)
  {
    hide Memory, Continue, After, DepGraph, Completed, Rooting;
    assert s.ops[id].SubmitRoots? && s.ops[id].roots != [] ==> t != s.ops[id].roots[0];
    hide Becomes;
    var i :| i in s.ops && t in Rooting(s.ops[i]);
    if i == id {
      RootsPass(s.st, s.co, s.ops[id], t);
      assert t in Rooting(s'.ops[id]);
    } else {
      assert t in Rooting(s'.ops[i]);
    }
  }

  /** The roots of a new workflow are in the hands of its submission. */
  lemma NewRoot(s: Fine, id: nat, s': Fine, t: string)
    requires Exclusive(s) && id in s.ops && s' == Next(s, Advance(id)) && IsRoot(s'.st, t) && t !in s.st.tasks
    ensures RootCovered(s'.ops, t)
  {
    hide Exclusive, FineSafe, StoreSafe, IsDag, Transposes, Initialized, Target, OpSound, After, Memory, DepGraph;
    var op := s.ops[id];
    ExclusiveParts(s, id);
    NewRecord(s.st, op, t);
    assert t in op.roots;
    assert s'.ops[id] == SubmitCaches(op.spec, op.roots);
    assert t in Rooting(s'.ops[id]);
  }

  lemma AdvanceRoots(s: Fine, id: nat)
    requires Exclusive(s) && RootsCovered(s) && id in s.ops && Possible(s, Advance(id))
    ensures RootsCovered(Next(s, Advance(id)))
  {
    hide Exclusive, Open, Possible, Next, SpecsStay, DepGraph, RootCovered;
    var s' := Next(s, Advance(id));
    AdvanceGrowsTo(s, id, s');
    DepKeys(s.st);
    forall t | IsRoot(s'.st, t) && Open(s', s'.st.tasks[t].workflowId) ensures RootCovered(s'.ops, t) {
      if t in s.st.tasks {
        OldRecord(s, id, s', t);
        PendingBefore(s.st, s.ops[id], t, s.st.tasks[t].state);
        RootStays(s, id, s', t);
      } else {
        NewRoot(s, id, s', t);
      }
    }
  }

  lemma PendingBefore(st: Store, op: Op, t: string, a: TaskState)
    requires t in st.tasks && Becomes(st, op, t, a, Pending)
    ensures a.Pending?
  {
    hide Completed, DepGraph;
  }

  /** A PENDING task with dependencies still counts some. */
  ghost predicate Counting(st: Store) {
    forall t | t in st.tasks && st.tasks[t].state.Pending? && t in DepGraph(st) && DepGraph(st)[t] != [] ::
      st.tasks[t].inDegree > 0
  }

  lemma CountAfter(st: Store, op: Op, t: string)
    requires StoreSafe(st) && SubmitReady(st, op) && t in st.tasks && t in After(st, op).tasks
    requires After(st, op).tasks[t].state.Pending?
    ensures st.tasks[t].state.Pending?
    ensures After(st, op).tasks[t].inDegree == st.tasks[t].inDegree || After(st, op).tasks[t].inDegree > 0
  {
    hide StoreSafe;
    if op.CompleteWrite? {
      CompletionCounts(st, op.task, op.execution, op.output, t);
      hide Completed;
    } else if op.SubmitTasks? {
      InitFacts(st.tasks, op.spec.workflowId, op.spec.tasks, op.down);
      hide Initialized, InitOk, IsDag;
    } else {
      hide After;
      PlainBecomes(st, op, t);
      PendingBefore(st, op, t, st.tasks[t].state);
    }
  }

  lemma CompletionCounts(st: Store, x: string, e: string, o: string, t: string)
    requires StoreSafe(st) && t in st.tasks
    ensures var T' := Completed(st.tasks, x, e, o).tasks;
            t in T' && (T'[t].state.Pending? ==>
              st.tasks[t].state.Pending? && (T'[t].inDegree == st.tasks[t].inDegree || T'[t].inDegree > 0))
  {
    hide StoreSafe, Linked;
    SafeLinks(st);
    if x in st.tasks && st.tasks[x].executionId == e && !st.tasks[x].state.Complete? {
      CompletedRecords(DepGraph(st), st.tasks, x, e, o);
      hide Completed;
    }
  }

  lemma AdvanceCounting(s: Fine, id: nat)
    requires Exclusive(s) && Counting(s.st) && id in s.ops && Possible(s, Advance(id))
    ensures Counting(Next(s, Advance(id)).st)
  {
    hide Exclusive, Possible, FineSafe, StoreSafe, SubmitReady, Target, OpSound, Memory, Continue, After, DepGraph;
    var st' := Next(s, Advance(id)).st;
    AdvanceGrows(s, id);
    ExclusiveParts(s, id);
    DepKeys(s.st);
    forall t | t in st'.tasks && st'.tasks[t].state.Pending? && t in DepGraph(st') && DepGraph(st')[t] != []
      ensures st'.tasks[t].inDegree > 0
    {
      if t in s.st.tasks { CountAfter(s.st, s.ops[id], t); } else { NewRecord(s.st, s.ops[id], t); }
    }
  }
}
