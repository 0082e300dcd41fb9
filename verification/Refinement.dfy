/** A call whose steps are not interleaved with those of another call does what
    the one-step model says, so the runs of that model are interleavings too. */
module Refinement {
  import opened Types
  import opened Seqs
  import opened Graphs
  import opened Dags
  import opened Stores
  import opened Systems
  import opened StateStores
  import opened StepForms
  import opened Interleaving

  /** Stepping alone from `st` and `co`, `op` returns after `n` steps and leaves `st'` and `co'`. */
  ghost predicate Alone(st: Store, co: Coord, op: Op, n: nat, st': Store, co': Coord)
    decreases n
  {
    && n > 0 && FreshStart(st, op)
    && match Continue(st, co, op)
       case None => n == 1 && st' == After(st, op) && co' == Memory(co, op)
       case Some(next) => Alone(After(st, op), Memory(co, op), next, n - 1, st', co')
  }

  /** The next step of `op` leaves `st1`, `co1` and the continuation `next`. */
  ghost predicate Goes(st: Store, co: Coord, op: Op, st1: Store, co1: Coord, next: Option<Op>) {
    FreshStart(st, op) && After(st, op) == st1 && Memory(co, op) == co1 && Continue(st, co, op) == next
  }

  lemma AloneLast(st: Store, co: Coord, op: Op, st': Store, co': Coord)
    requires Goes(st, co, op, st', co', None)
    ensures Alone(st, co, op, 1, st', co')
  {
    hide FreshStart, Continue, After, Memory;
  }

  lemma AloneStep(st: Store, co: Coord, op: Op, st1: Store, co1: Coord, next: Op, n: nat, st': Store, co': Coord)
    requires Goes(st, co, op, st1, co1, Some(next)) && Alone(st1, co1, next, n, st', co')
    ensures Alone(st, co, op, n + 1, st', co')
  {
    hide FreshStart, Continue, After, Memory;
  }

  lemma FoldHead(st: Store, tx: Txn, txs: seq<Txn>)
    ensures Fold(st, [tx] + txs) == Fold(Apply(st, tx), txs)
  {
    FoldConcat(st, [tx], txs);
    FoldOne(st, tx);
  }

  // ---- The parts of a call ------------------------------------------------------------------------

  lemma CheckAlone(st: Store, co: Coord, w: string) returns (n: nat)
    ensures Alone(st, co, CheckDone(w), n, Fold(st, CheckTxns(st.tasks, w)), co)
  {
    hide AllTerminal, Verdict, Apply, Alone, Completed, OpenTasks, SkipNext, MaxRetries;
    if AllTerminal(st.tasks, w) {
      var v := Verdict(st.tasks, w);
      var st' := Apply(st, SetWorkflow(w, v));
      FoldOne(st, SetWorkflow(w, v));
      assert Goes(st, co, CheckDone(w), st, co, Some(CheckVerdict(w)));
      assert Goes(st, co, CheckVerdict(w), st, co, Some(WriteWorkflow(w, v)));
      assert Goes(st, co, WriteWorkflow(w, v), st', co, None);
      hide Goes;
      AloneLast(st, co, WriteWorkflow(w, v), st', co);
      AloneStep(st, co, CheckVerdict(w), st, co, WriteWorkflow(w, v), 1, st', co);
      AloneStep(st, co, CheckDone(w), st, co, CheckVerdict(w), 2, st', co);
      n := 3;
    } else {
      AloneLast(st, co, CheckDone(w), st, co);
      n := 1;
    }
  }

  lemma CancelAlone(st: Store, co: Coord, w: string, v: WorkflowState)
    ensures Alone(st, co, CancelWrite(w, v), 3, Fold(st, [CancelTasks(w), SetWorkflow(w, v)]),
                  co.(queue := Without(co.queue, OpenTasks(st.tasks, w))))
  {
    hide Apply, OpenTasks, Without, Alone, Fold;
    FoldTwo(st, CancelTasks(w), SetWorkflow(w, v));
    CancelSteps(st, co, w, v, Apply(st, CancelTasks(w)), OpenTasks(st.tasks, w));
  }

  lemma CancelGoes(st: Store, co: Coord, w: string, v: WorkflowState)
    ensures Goes(st, co, CancelWrite(w, v), Apply(st, CancelTasks(w)), co,
                 Some(CancelMem(OpenTasks(st.tasks, w), w, v)))
  {
    hide Apply, OpenTasks, Completed, AllTerminal, Verdict, SkipNext, MaxRetries;
  }

  lemma DropGoes(st: Store, co: Coord, dropped: set<string>, w: string, v: WorkflowState)
    ensures Goes(st, co, CancelMem(dropped, w, v), st, co.(queue := Without(co.queue, dropped)),
                 Some(WriteWorkflow(w, v)))
  {
    hide Apply, OpenTasks, Completed, AllTerminal, Verdict, SkipNext, MaxRetries, Without;
  }

  lemma WriteGoes(st: Store, co: Coord, w: string, v: WorkflowState)
    ensures Goes(st, co, WriteWorkflow(w, v), Apply(st, SetWorkflow(w, v)), co, None)
  {
    hide Apply, OpenTasks, Completed, AllTerminal, Verdict, SkipNext, MaxRetries;
  }

  lemma CancelSteps(st: Store, co: Coord, w: string, v: WorkflowState, st1: Store, open: set<string>)
    requires st1 == Apply(st, CancelTasks(w)) && open == OpenTasks(st.tasks, w)
    ensures Alone(st, co, CancelWrite(w, v), 3, Apply(st1, SetWorkflow(w, v)), co.(queue := Without(co.queue, open)))
  {
    hide Apply, OpenTasks, Without, Alone, Goes;
    var co1, st2 := co.(queue := Without(co.queue, open)), Apply(st1, SetWorkflow(w, v));
    CancelGoes(st, co, w, v);
    DropGoes(st1, co, open, w, v);
    WriteGoes(st1, co1, w, v);
    AloneLast(st1, co1, WriteWorkflow(w, v), st2, co1);
    AloneStep(st1, co, CancelMem(open, w, v), st1, co1, WriteWorkflow(w, v), 1, st2, co1);
    AloneStep(st, co, CancelWrite(w, v), st1, co, CancelMem(open, w, v), 2, st2, co1);
  }

  lemma {:induction false} RootsAlone(st: Store, co: Coord, roots: seq<string>) returns (n: nat)
    ensures Alone(st, co, SubmitRoots(roots), n, Fold(st, SetStateTxns(roots, Queued)), co.(queue := co.queue + roots))
    decreases roots
  {
    hide Apply, Alone;
    if roots == [] {
      n := 1;
      assert co.queue + roots == co.queue;
      AloneLast(st, co, SubmitRoots(roots), st, co);
    } else {
      var t, rest := roots[0], roots[1..];
      var st1, co1 := Apply(st, SetState(t, Queued)), co.(queue := co.queue + [t]);
      assert SetStateTxns(roots, Queued) == [SetState(t, Queued)] + SetStateTxns(rest, Queued);
      FoldHead(st, SetState(t, Queued), SetStateTxns(rest, Queued));
      assert co.queue + roots == co1.queue + rest;
      n := RootsAlone(st1, co1, rest);
      hide Fold, SetStateTxns;
      var st', co' := Fold(st, SetStateTxns(roots, Queued)), co.(queue := co.queue + roots);
      assert Goes(st, co, SubmitRoots(roots), st1, co, Some(SubmitAppend(t, rest)));
      assert Goes(st1, co, SubmitAppend(t, rest), st1, co1, Some(SubmitRoots(rest)));
      hide Goes;
      AloneStep(st1, co, SubmitAppend(t, rest), st1, co1, SubmitRoots(rest), n, st', co');
      AloneStep(st, co, SubmitRoots(roots), st1, co, SubmitAppend(t, rest), n + 1, st', co');
      n := n + 2;
    }
  }

  lemma PresentHead(T: Tasks, t: string, rest: seq<string>)
    ensures Present(T, [t] + rest) == (if t in T then [t] else []) + Present(T, rest)
  {
    var A, B := Elems([t] + rest) - T.Keys, Elems(rest) - T.Keys;
    WithoutConcat([t], rest, A);
    WithoutSame(rest, A, B);
    assert [t][..0] == [];
    assert Without([t], A) == Without([], A) + (if t in A then [] else [t]);
  }

  lemma {:induction false} RequeueAlone(st: Store, co: Coord, tasks: seq<string>, ids: map<string, string>)
    returns (n: nat)
    ensures Alone(st, co, RequeueList(tasks, ids), n, Fold(st, RequeueTxns(tasks, ids)),
                  co.(queue := co.queue + Present(st.tasks, tasks)))
    decreases tasks
  {
    hide Alone, Elems, Without, Fold;
    if tasks == [] {
      n := 1;
      NothingAlone(st, co, ids);
    } else {
      var t, rest := tasks[0], tasks[1..];
      var st1, co1 := Apply(st, RequeueTask(t, Lookup(ids, t, ""))), if t in st.tasks then co.(queue := co.queue + [t])
        else co;
      RequeueHead(st, co, tasks, ids, st1, co1);
      n := RequeueAlone(st1, co1, rest, ids);
      hide RequeueTxns, Present, Apply;
      n := RequeueStep(st, co, tasks, ids, st1, co1, n,
                       Fold(st, RequeueTxns(tasks, ids)), co.(queue := co.queue + Present(st.tasks, tasks)));
    }
  }

  lemma NothingAlone(st: Store, co: Coord, ids: map<string, string>)
    ensures Alone(st, co, RequeueList([], ids), 1, Fold(st, RequeueTxns([], ids)),
                  co.(queue := co.queue + Present(st.tasks, [])))
  {
    hide Alone;
    assert co.queue + Present(st.tasks, []) == co.queue;
    AloneLast(st, co, RequeueList([], ids), st, co);
  }

  lemma RequeueHead(st: Store, co: Coord, tasks: seq<string>, ids: map<string, string>, st1: Store, co1: Coord)
    requires tasks != [] && st1 == Apply(st, RequeueTask(tasks[0], Lookup(ids, tasks[0], "")))
    requires co1 == if tasks[0] in st.tasks then co.(queue := co.queue + [tasks[0]]) else co
    ensures Fold(st, RequeueTxns(tasks, ids)) == Fold(st1, RequeueTxns(tasks[1..], ids))
    ensures co.(queue := co.queue + Present(st.tasks, tasks)) ==
            co1.(queue := co1.queue + Present(st1.tasks, tasks[1..]))
  {
    hide Elems, Without, Fold, RequeueTxns, Present;
    var t, rest := tasks[0], tasks[1..];
    FoldRequeueHead(st, tasks, ids);
    PresentHead(st.tasks, t, rest);
    assert tasks == [t] + rest;
    PresentSame(st.tasks, st1.tasks, rest);
    hide Apply;
    assert co.queue + Present(st.tasks, tasks) == co1.queue + Present(st1.tasks, rest);
  }

  lemma FoldRequeueHead(st: Store, tasks: seq<string>, ids: map<string, string>)
    requires tasks != []
    ensures Fold(st, RequeueTxns(tasks, ids)) ==
            Fold(Apply(st, RequeueTask(tasks[0], Lookup(ids, tasks[0], ""))), RequeueTxns(tasks[1..], ids))
  {
    hide Fold, Apply;
    var tx := RequeueTask(tasks[0], Lookup(ids, tasks[0], ""));
    assert RequeueTxns(tasks, ids) == [tx] + RequeueTxns(tasks[1..], ids);
    FoldHead(st, tx, RequeueTxns(tasks[1..], ids));
  }

  lemma PresentSame(T: Tasks, T': Tasks, order: seq<string>)
    requires T'.Keys == T.Keys
    ensures Present(T', order) == Present(T, order)
  {
  }

  /** One entry of a list of tasks to requeue: one step, or two if the task has a record. */
  lemma RequeueStep(st: Store, co: Coord, tasks: seq<string>, ids: map<string, string>, st1: Store, co1: Coord, n: nat,
                    st': Store, co': Coord)
    returns (m: nat)
    requires tasks != [] && st1 == Apply(st, RequeueTask(tasks[0], Lookup(ids, tasks[0], "")))
    requires co1 == if tasks[0] in st.tasks then co.(queue := co.queue + [tasks[0]]) else co
    requires Alone(st1, co1, RequeueList(tasks[1..], ids), n, st', co')
    ensures Alone(st, co, RequeueList(tasks, ids), m, st', co')
  {
    hide Alone, Apply, Completed, AllTerminal, Verdict, OpenTasks, MaxRetries, SubmitCoord, Without, SkipNext;
    var t, rest := tasks[0], tasks[1..];
    if t in st.tasks {
      assert Goes(st, co, RequeueList(tasks, ids), st1, co, Some(RequeueMem(t, rest, ids)));
      assert Goes(st1, co, RequeueMem(t, rest, ids), st1, co1, Some(RequeueList(rest, ids)));
      hide Goes;
      AloneStep(st1, co, RequeueMem(t, rest, ids), st1, co1, RequeueList(rest, ids), n, st', co');
      AloneStep(st, co, RequeueList(tasks, ids), st1, co, RequeueMem(t, rest, ids), n + 1, st', co');
      m := n + 2;
    } else {
      assert Goes(st, co, RequeueList(tasks, ids), st1, co, Some(RequeueList(rest, ids)));
      hide Goes;
      AloneStep(st, co, RequeueList(tasks, ids), st1, co, RequeueList(rest, ids), n, st', co');
      m := n + 1;
    }
  }

  // ---- The breadth-first search ---------------------------------------------------------------------

  /** The store and the volatile state once everything below `f` has been skipped. */
  ghost predicate SkippedBelow(st: Store, co: Coord, T: Tasks, f: string, w: string, st': Store, co': Coord) {
    var T' := SkipAll(T, SkipSet(T, f));
    st' == Fold(st.(tasks := T'), CheckTxns(T', w)) && co' == co.(queue := Without(co.queue, SkipSet(T, f)))
  }

  /** One entry of the search's list, over records some of which it has marked. */
  lemma SearchNext(T: Tasks, f: string, seen: set<string>, todo: seq<string>, skipped: seq<string>, w: string)
    returns (seen': set<string>, todo': seq<string>, skipped': seq<string>)
    requires Searching(T, f, seen, todo, skipped) && todo != []
    ensures Searching(T, f, seen', todo', skipped')
    ensures |Mentioned(T) - seen'| < |Mentioned(T) - seen| || (seen' == seen && |todo'| < |todo|)
    ensures var next := SkipNext(SkipAll(T, Elems(skipped)), todo, seen, skipped, w);
            if skipped' == skipped then next == SkipLoop(todo', seen', skipped, w)
            else next == SkipWrite(todo[0], todo', seen', skipped, w) && skipped' == skipped + [todo[0]] && todo[0] in T
  {
    hide Searching, Mentioned;
    var t := todo[0];
    seen' := seen + {t};
    if t in seen || t !in T {
      SearchDrop(T, f, seen, todo, skipped);
      todo', skipped' := todo[1..], skipped;
    } else {
      SearchVisit(T, f, seen, todo, skipped);
      UnseenUnmarked(T, f, seen, todo, skipped, t);
      todo', skipped' := todo[1..] + T[t].downstream, if T[t].state.Terminal() then skipped else skipped + [t];
    }
  }

  lemma {:induction false} SearchAlone(st: Store, co: Coord, T: Tasks, f: string, todo: seq<string>, seen: set<string>,
                                       skipped: seq<string>, w: string, st': Store, co': Coord)
    returns (n: nat)
    requires Searching(T, f, seen, todo, skipped) && st.tasks == SkipAll(T, Elems(skipped))
    requires SkippedBelow(st, co, T, f, w, st', co')
    ensures Alone(st, co, SkipLoop(todo, seen, skipped, w), n, st', co')
    decreases |Mentioned(T) - seen|, |todo|
  {
    hide Alone, SkippedBelow;
    if todo == [] {
      n := SearchEnds(st, co, T, f, seen, skipped, w, st', co');
    } else {
      var seen', todo', skipped' := SearchNext(T, f, seen, todo, skipped, w);
      hide Searching, SkipNext, Mentioned, Goes, SkipAll;
      var op := SkipLoop(todo, seen, skipped, w);
      LoopGoes(st, co, todo, seen, skipped, w);
      if skipped' == skipped {
        n := SearchAlone(st, co, T, f, todo', seen', skipped, w, st', co');
        AloneStep(st, co, op, st, co, SkipLoop(todo', seen', skipped, w), n, st', co');
        n := n + 1;
      } else {
        var st1 := st.(tasks := SkipAll(T, Elems(skipped')));
        SkippedStays(st, st1, co, T, f, w, st', co');
        n := SearchAlone(st1, co, T, f, todo', seen', skipped', w, st', co');
        SkipGoes(st, co, T, todo[0], todo', seen', skipped, w, st1);
        AloneStep(st, co, SkipWrite(todo[0], todo', seen', skipped, w), st1, co, SkipLoop(todo', seen', skipped', w),
                  n, st', co');
        AloneStep(st, co, op, st, co, SkipWrite(todo[0], todo', seen', skipped, w), n + 1, st', co');
        n := n + 2;
      }
    }
  }

  lemma LoopGoes(st: Store, co: Coord, todo: seq<string>, seen: set<string>, skipped: seq<string>, w: string)
    requires todo != []
    ensures Goes(st, co, SkipLoop(todo, seen, skipped, w), st, co, Some(SkipNext(st.tasks, todo, seen, skipped, w)))
  {
    hide OpenTasks, Completed, AllTerminal, Verdict, SkipNext, MaxRetries;
  }

  lemma SkipGoes(st: Store, co: Coord, T: Tasks, t: string, todo: seq<string>, seen: set<string>, skipped: seq<string>,
                 w: string, st1: Store)
    requires st.tasks == SkipAll(T, Elems(skipped)) && t in T && st1 == st.(tasks := SkipAll(T, Elems(skipped + [t])))
    ensures Goes(st, co, SkipWrite(t, todo, seen, skipped, w), st1, co, Some(SkipLoop(todo, seen, skipped + [t], w)))
  {
    hide OpenTasks, Completed, AllTerminal, Verdict, SkipNext, MaxRetries;
    assert WithState(st.tasks, t, Skipped) == st1.tasks;
  }

  /** Nothing is left to visit: the queue is purged and completion is checked. */
  lemma SearchEnds(st: Store, co: Coord, T: Tasks, f: string, seen: set<string>, skipped: seq<string>, w: string,
                   st': Store, co': Coord)
    returns (n: nat)
    requires Searching(T, f, seen, [], skipped) && st.tasks == SkipAll(T, Elems(skipped))
    requires SkippedBelow(st, co, T, f, w, st', co')
    ensures Alone(st, co, SkipLoop([], seen, skipped, w), n, st', co')
  {
    hide Alone, Searching, CheckTxns, Fold, AllTerminal, Verdict, Completed, OpenTasks, SkipNext, MaxRetries;
    SearchDone(T, f, seen, skipped);
    assert Elems(skipped) == SkipSet(T, f);
    hide SkipSet, Elems;
    assert st.(tasks := SkipAll(T, SkipSet(T, f))) == st;
    n := CheckAlone(st, co', w);
    assert Goes(st, co, SkipLoop([], seen, skipped, w), st, co, Some(SkipMem(skipped, w)));
    assert Goes(st, co, SkipMem(skipped, w), st, co', Some(CheckDone(w)));
    hide Goes, SkippedBelow;
    AloneStep(st, co, SkipMem(skipped, w), st, co', CheckDone(w), n, st', co');
    AloneStep(st, co, SkipLoop([], seen, skipped, w), st, co, SkipMem(skipped, w), n + 1, st', co');
    n := n + 2;
  }

  lemma SkippedStays(st: Store, st1: Store, co: Coord, T: Tasks, f: string, w: string, st': Store, co': Coord)
    requires SkippedBelow(st, co, T, f, w, st', co') && st1.(tasks := st.tasks) == st
    ensures SkippedBelow(st1, co, T, f, w, st', co')
  {
    assert forall X: Tasks :: st1.(tasks := X) == st.(tasks := X);
  }

  // ---- The calls ------------------------------------------------------------------------------------

  lemma SubmitAlone(s: Sys, spec: WorkflowSpec, down: Graph, roots: seq<string>) returns (n: nat)
    requires IsDag(spec.tasks) && Enabled(s, Submit(spec, down, roots))
    ensures var s' := Step(s, Submit(spec, down, roots));
            Alone(s.st, s.co, SubmitStore(spec, down, roots), n, s'.st, s'.co)
  {
    hide IsDag, Transposes, Roots, Alone, Fold;
    if ValidKey(spec.workflowId) {
      var w := spec.workflowId;
      var st1 := Apply(s.st, StoreSpec(spec));
      var st2 := Apply(st1, SetWorkflow(w, WorkflowRunning));
      var s' := Step(s, Submit(spec, down, roots));
      FoldTwo(s.st, StoreSpec(spec), SetWorkflow(w, WorkflowRunning));
      n := TasksAlone(s, spec, down, roots, st2);
      assert Goes(s.st, s.co, SubmitStore(spec, down, roots), st1, s.co, Some(SubmitState(spec, down, roots)));
      assert Goes(st1, s.co, SubmitState(spec, down, roots), st2, s.co, Some(SubmitTasks(spec, down, roots)));
      hide Goes, Step;
      AloneStep(st1, s.co, SubmitState(spec, down, roots), st2, s.co, SubmitTasks(spec, down, roots), n, s'.st, s'.co);
      AloneStep(s.st, s.co, SubmitStore(spec, down, roots), st1, s.co, SubmitState(spec, down, roots), n + 1, s'.st,
                s'.co);
      n := n + 2;
    } else {
      NoTxns(s.st);
      AloneLast(s.st, s.co, SubmitStore(spec, down, roots), s.st, s.co);
      n := 1;
    }
  }

  lemma TasksAlone(s: Sys, spec: WorkflowSpec, down: Graph, roots: seq<string>, st2: Store) returns (n: nat)
    requires Admitted(spec) && st2 == Fold(s.st, [StoreSpec(spec), SetWorkflow(spec.workflowId, WorkflowRunning)])
    ensures var s' := Step(s, Submit(spec, down, roots));
            Alone(st2, s.co, SubmitTasks(spec, down, roots), n, s'.st, s'.co)
  {
    hide Admitted, Apply, ValidIds, Fold, Alone, SpecMap, OwnerMap, InDegrees;
    var first := [StoreSpec(spec), SetWorkflow(spec.workflowId, WorkflowRunning)];
    var tx := InitTasks(spec.workflowId, spec.tasks, InDegrees(spec.tasks), down);
    var s' := Step(s, Submit(spec, down, roots));
    if ValidIds(spec.tasks) {
      var st3, co1 := Apply(st2, tx), SubmitCoord(s.co, spec, []);
      FoldConcat(s.st, first, [tx] + SetStateTxns(roots, Queued));
      FoldHead(st2, tx, SetStateTxns(roots, Queued));
      n := RootsAlone(st3, co1, roots);
      assert co1.queue + roots == s.co.queue + roots;
      assert co1.(queue := co1.queue + roots) == s'.co;
      assert Goes(st2, s.co, SubmitTasks(spec, down, roots), st3, s.co, Some(SubmitCaches(spec, roots)));
      assert Goes(st3, s.co, SubmitCaches(spec, roots), st3, co1, Some(SubmitRoots(roots)));
      hide Goes, SetStateTxns, SubmitCoord;
      AloneStep(st3, s.co, SubmitCaches(spec, roots), st3, co1, SubmitRoots(roots), n, s'.st, s'.co);
      AloneStep(st2, s.co, SubmitTasks(spec, down, roots), st3, s.co, SubmitCaches(spec, roots), n + 1, s'.st, s'.co);
      n := n + 2;
    } else {
      Refused(st2, tx);
      assert first + [] == first;
      AloneLast(st2, s.co, SubmitTasks(spec, down, roots), st2, s.co);
      n := 1;
    }
  }

  lemma Refused(st: Store, tx: Txn)
    requires tx.InitTasks? && !ValidIds(tx.specs)
    ensures Apply(st, tx) == st
  {
  }

  lemma AssignAlone(s: Sys, worker: string, x: string) returns (n: nat)
    requires s.co.queue != [] && s.co.queue[0] in s.co.specCache
    ensures var s' := Step(s, Assign(worker, x));
            Alone(s.st, s.co.(queue := s.co.queue[1..]), GetAssign(s.co.queue[0], x, worker), n, s'.st, s'.co)
  {
    hide Alone;
    var t, co1 := s.co.queue[0], s.co.(queue := s.co.queue[1..]);
    FoldOne(s.st, AssignTask(t, x));
    if t in s.st.tasks {
      var s' := Step(s, Assign(worker, x));
      assert Goes(s.st, co1, GetAssign(t, x, worker), s'.st, co1, Some(GetHold(t, x, worker)));
      assert Goes(s'.st, co1, GetHold(t, x, worker), s'.st, s'.co, None);
      hide Step, Goes;
      AloneLast(s'.st, co1, GetHold(t, x, worker), s'.st, s'.co);
      AloneStep(s.st, co1, GetAssign(t, x, worker), s'.st, co1, GetHold(t, x, worker), 1, s'.st, s'.co);
      n := 2;
    } else {
      AloneLast(s.st, co1, GetAssign(t, x, worker), s.st, co1);
      n := 1;
    }
  }

  lemma SucceedStep(s: Sys, t: string, x: string, output: string)
    requires Accepts(s.co, t, x)
    ensures var c, w := Completed(s.st.tasks, t, x, output), Owner(s.co, t);
            var st1 := Apply(s.st, CompleteTask(t, x, output));
            var s' := Step(s, Succeed(t, x, output));
            if c.err.NoError? then
              && s'.st == (if w == "" then st1 else Fold(st1, CheckTxns(st1.tasks, w)))
              && s'.co == Released(s.co, {t}).(queue := s.co.queue + c.ready)
            else s'.st == st1 && s'.co == s.co
  {
    hide Completed, CheckTxns;
    var c, tx, w := Completed(s.st.tasks, t, x, output), CompleteTask(t, x, output), Owner(s.co, t);
    FoldOne(s.st, tx);
    assert [tx] + [] == [tx];
    FoldConcat(s.st, [tx], CheckTxns(c.tasks, w));
    hide Fold;
  }

  lemma SucceedAlone(s: Sys, t: string, x: string, output: string) returns (n: nat)
    requires Accepts(s.co, t, x)
    ensures var s' := Step(s, Succeed(t, x, output));
            Alone(s.st, s.co, CompleteWrite(t, x, output), n, s'.st, s'.co)
  {
    hide Step, Fold, Apply, Completed, CheckTxns, Alone, AllTerminal, Verdict, OpenTasks, SkipNext, MaxRetries;
    var c := Completed(s.st.tasks, t, x, output);
    var st1, s' := Apply(s.st, CompleteTask(t, x, output)), Step(s, Succeed(t, x, output));
    SucceedStep(s, t, x, output);
    if c.err.NoError? {
      n := OwnerAlone(st1, s'.co, t);
      CompleteGoes(s.st, s.co, t, x, output);
      assert Goes(st1, s.co, CompleteMem(t, c.ready), st1, s'.co, Some(CompleteOwner(t)));
      hide Goes;
      AloneStep(st1, s.co, CompleteMem(t, c.ready), st1, s'.co, CompleteOwner(t), n, s'.st, s'.co);
      AloneStep(s.st, s.co, CompleteWrite(t, x, output), st1, s.co, CompleteMem(t, c.ready), n + 1, s'.st, s'.co);
      n := n + 2;
    } else {
      AloneLast(s.st, s.co, CompleteWrite(t, x, output), st1, s.co);
      n := 1;
    }
  }

  lemma CompleteGoes(st: Store, co: Coord, t: string, x: string, output: string)
    requires Completed(st.tasks, t, x, output).err.NoError?
    ensures Goes(st, co, CompleteWrite(t, x, output), Apply(st, CompleteTask(t, x, output)), co,
                 Some(CompleteMem(t, Completed(st.tasks, t, x, output).ready)))
  {
    hide Apply, OpenTasks, Completed, AllTerminal, Verdict, SkipNext, MaxRetries;
  }

  lemma OwnerAlone(st: Store, co: Coord, t: string) returns (n: nat)
    ensures Alone(st, co, CompleteOwner(t), n,
                  if Owner(co, t) == "" then st else Fold(st, CheckTxns(st.tasks, Owner(co, t))), co)
  {
    hide Alone, CheckTxns, Fold;
    var w := Owner(co, t);
    if w == "" {
      AloneLast(st, co, CompleteOwner(t), st, co);
      n := 1;
    } else {
      n := CheckAlone(st, co, w);
      assert Goes(st, co, CompleteOwner(t), st, co, Some(CheckDone(w)));
      hide Goes;
      AloneStep(st, co, CompleteOwner(t), st, co, CheckDone(w), n, Fold(st, CheckTxns(st.tasks, w)), co);
      n := n + 1;
    }
  }

  /** The breadth-first search of a failing call and what follows it. */
  lemma SkipAlone(st: Store, co: Coord, t: string, w: string, skipped: seq<string>) returns (n: nat)
    requires t in st.tasks && Enumerates(skipped, SkipSet(st.tasks, t))
    ensures Alone(st, co, SkipRead(t, w), n,
                  Fold(st, SetStateTxns(skipped, Skipped) + CheckTxns(SkipAll(st.tasks, Elems(skipped)), w)),
                  co.(queue := Without(co.queue, Elems(skipped))))
  {
    hide Alone, Searching, Fold, CheckTxns, SetStateTxns;
    var T, order := st.tasks, st.tasks[t].downstream;
    var T' := SkipAll(T, Elems(skipped));
    var st', co' := Fold(st, SetStateTxns(skipped, Skipped) + CheckTxns(T', w)),
      co.(queue := Without(co.queue, Elems(skipped)));
    assert Elems(skipped) == SkipSet(T, t);
    hide SkipSet;
    SkipForm(st, skipped);
    FoldConcat(st, SetStateTxns(skipped, Skipped), CheckTxns(T', w));
    SearchStart(T, t);
    assert SkipAll(T, Elems([])) == T;
    n := SearchAlone(st, co, T, t, order, {}, [], w, st', co');
    assert Goes(st, co, SkipRead(t, w), st, co, Some(SkipLoop(order, {}, [], w)));
    hide Goes, SkippedBelow, SkipAll;
    AloneStep(st, co, SkipRead(t, w), st, co, SkipLoop(order, {}, [], w), n, st', co');
    n := n + 1;
  }

  lemma PolicyAlone(s: Sys, t: string, msg: string, skipped: seq<string>) returns (n: nat)
    requires t in s.st.tasks && (Owner(s.co, t) != "" && !Policy(s.co, Owner(s.co, t)).FailFast? ==>
                                   Enumerates(skipped, SkipSet(FailureRecords(s, t, msg), t)))
    ensures var T := FailureRecords(s, t, msg);
            var st1 := s.st.(tasks := T);
            Alone(st1, s.co, FailMem(t), n, Fold(st1, PolicyTxns(T, s.co, t, skipped)),
                  Released(s.co, {t}).(queue := PolicyQueue(T, s.co, t, skipped)))
  {
    hide Alone, Fold, SkipSet, OpenTasks, Without, CheckTxns, SetStateTxns;
    var T, w, co1 := FailureRecords(s, t, msg), Owner(s.co, t), Released(s.co, {t});
    var st1 := s.st.(tasks := T);
    var st', co' := Fold(st1, PolicyTxns(T, s.co, t, skipped)), co1.(queue := PolicyQueue(T, s.co, t, skipped));
    if w == "" {
      NoTxns(st1);
      AloneLast(st1, s.co, FailMem(t), st1, co1);
      n := 1;
    } else if Policy(s.co, w).FailFast? {
      CancelAlone(st1, co1, w, WorkflowFailed);
      assert Goes(st1, s.co, FailMem(t), st1, co1, Some(CancelWrite(w, WorkflowFailed)));
      hide Goes;
      AloneStep(st1, s.co, FailMem(t), st1, co1, CancelWrite(w, WorkflowFailed), 3, st', co');
      n := 4;
    } else {
      n := SkipAlone(st1, co1, t, w, skipped);
      assert Goes(st1, s.co, FailMem(t), st1, co1, Some(SkipRead(t, w)));
      hide Goes;
      AloneStep(st1, s.co, FailMem(t), st1, co1, SkipRead(t, w), n, st', co');
      n := n + 1;
    }
  }

  lemma NoTxns(st: Store)
    ensures Fold(st, []) == st
  {
  }

  /** From the failing transaction on. */
  lemma FailureAlone(s: Sys, t: string, x: string, msg: string, newId: string, skipped: seq<string>) returns (n: nat)
    requires Accepts(s.co, t, x) && Enabled(s, Fail(t, x, msg, newId, skipped)) && t in s.st.tasks && !Retries(s, t)
    ensures var s' := Step(s, Fail(t, x, msg, newId, skipped));
            Alone(s.st, s.co, FailWrite(t, msg, s.st.tasks[t].attemptCount + 1), n, s'.st, s'.co)
  {
    hide Alone, Fold, PolicyTxns, PolicyQueue, SkipSet, Completed, AllTerminal, Verdict, OpenTasks, SubmitCoord,
         Without;
    var k, T, s' := s.st.tasks[t].attemptCount + 1, FailureRecords(s, t, msg), Step(s, Fail(t, x, msg, newId, skipped));
    var st1 := s.st.(tasks := T);
    n := PolicyAlone(s, t, msg, skipped);
    FoldHead(s.st, FailTask(t, msg, k), PolicyTxns(T, s.co, t, skipped));
    assert Goes(s.st, s.co, FailWrite(t, msg, k), st1, s.co, Some(FailMem(t)));
    hide Goes;
    AloneStep(s.st, s.co, FailWrite(t, msg, k), st1, s.co, FailMem(t), n, s'.st, s'.co);
    n := n + 1;
  }

  lemma RetryAlone(s: Sys, t: string, x: string, msg: string, newId: string, skipped: seq<string>)
    requires Accepts(s.co, t, x) && t in s.st.tasks && Retries(s, t)
    ensures var s' := Step(s, Fail(t, x, msg, newId, skipped)); Alone(s.st, s.co, RetryWrite(t, newId), 2, s'.st, s'.co)
  {
    hide Alone, Completed, AllTerminal, Verdict, OpenTasks, SubmitCoord, Without, SkipNext;
    var s' := Step(s, Fail(t, x, msg, newId, skipped));
    FoldOne(s.st, RequeueTask(t, newId));
    hide Fold;
    assert Goes(s.st, s.co, RetryWrite(t, newId), s'.st, s.co, Some(RetryMem(t)));
    assert Goes(s'.st, s.co, RetryMem(t), s'.st, s'.co, None);
    hide Goes, Step;
    AloneLast(s'.st, s.co, RetryMem(t), s'.st, s'.co);
    AloneStep(s.st, s.co, RetryWrite(t, newId), s'.st, s.co, RetryMem(t), 1, s'.st, s'.co);
  }

  lemma FailAlone(s: Sys, t: string, x: string, msg: string, newId: string, skipped: seq<string>) returns (n: nat)
    requires Accepts(s.co, t, x) && Enabled(s, Fail(t, x, msg, newId, skipped))
    ensures var s' := Step(s, Fail(t, x, msg, newId, skipped));
            Alone(s.st, s.co, FailRead(t, msg, newId), n, s'.st, s'.co)
  {
    hide Alone, Enabled, Accepts, Completed, AllTerminal, Verdict, OpenTasks, SkipNext, Apply;
    var s' := Step(s, Fail(t, x, msg, newId, skipped));
    if t !in s.st.tasks {
      AbsentAlone(s, t, x, msg, newId, skipped);
      n := 1;
    } else {
      hide Step;
      var k := s.st.tasks[t].attemptCount + 1;
      var next := if Retries(s, t) then RetryWrite(t, newId) else FailWrite(t, msg, k);
      if Retries(s, t) {
        RetryAlone(s, t, x, msg, newId, skipped);
        n := 2;
      } else {
        n := FailureAlone(s, t, x, msg, newId, skipped);
      }
      assert Goes(s.st, s.co, FailRead(t, msg, newId), s.st, s.co, Some(FailDecide(t, msg, newId, k)));
      assert Goes(s.st, s.co, FailDecide(t, msg, newId, k), s.st, s.co, Some(next));
      hide Goes;
      AloneStep(s.st, s.co, FailDecide(t, msg, newId, k), s.st, s.co, next, n, s'.st, s'.co);
      AloneStep(s.st, s.co, FailRead(t, msg, newId), s.st, s.co, FailDecide(t, msg, newId, k), n + 1, s'.st, s'.co);
      n := n + 2;
    }
  }

  lemma AbsentAlone(s: Sys, t: string, x: string, msg: string, newId: string, skipped: seq<string>)
    requires t !in s.st.tasks
    ensures var s' := Step(s, Fail(t, x, msg, newId, skipped));
            Alone(s.st, s.co, FailRead(t, msg, newId), 1, s'.st, s'.co)
  {
    hide Alone;
    AloneLast(s.st, s.co, FailRead(t, msg, newId), s.st, s.co);
  }

  // ---- As moves -------------------------------------------------------------------------------------

  /** The call that an event stands for. */
  function MoveOf(e: Event, id: nat): Move {
    match e
    case Submit(spec, down, roots) => Start(id, SubmitReq(spec, down, roots))
    case Assign(worker, x) => Start(id, GetReq(worker, x))
    case Succeed(t, x, output) => Start(id, CompleteReq(t, x, output))
    case Fail(t, x, msg, newId, _) => Start(id, FailReq(t, x, msg, newId))
    case Cancel(w) => Start(id, CancelReq(w))
    case WorkerDied(worker, tasks, ids) => Start(id, DeadReq(worker, tasks, ids))
    case Restart(ws, queued, running, ids) => Crash(ws, queued, running, ids)
  }

  function Advances(id: nat, n: nat): seq<Move> {
    if n == 0 then [] else [Advance(id)] + Advances(id, n - 1)
  }

  lemma {:induction false} AdvancesOnly(id: nat, n: nat)
    ensures forall m | m in Advances(id, n) :: m == Advance(id)
  {
    if n > 0 { AdvancesOnly(id, n - 1); }
  }

  lemma {:induction false} AloneLeads(s: Fine, id: nat, n: nat, st': Store, co': Coord)
    requires id in s.ops && Alone(s.st, s.co, s.ops[id], n, st', co')
    ensures Leads(s, Advances(id, n), Fine(st', co', s.ops - {id}))
    decreases n
  {
    hide FreshStart, Continue, TxnOf, Apply, Memory;
    var next := Next(s, Advance(id));
    var s' := Fine(st', co', s.ops - {id});
    if Continue(s.st, s.co, s.ops[id]).None? {
      LeadsNowhere(s');
    } else {
      assert next.ops - {id} == s.ops - {id};
      AloneLeads(next, id, n - 1, st', co');
    }
    hide Next, Alone;
    LeadsStep(s, Advance(id), Advances(id, n - 1), s');
  }

  lemma StartPossible(s: Fine, e: Event, id: nat)
    requires Enabled(Sys(s.st, s.co), e) && id !in s.ops
    ensures Possible(s, MoveOf(e, id))
  {
    hide IsDag, Transposes, Fresh, RestartOrders;
  }

  /** The call has begun: it is in flight as the only step of `id`, or it has already returned. */
  ghost predicate Begun(s: Fine, e: Event, id: nat, n: nat) {
    var s1, s' := Next(s, MoveOf(e, id)), Step(Sys(s.st, s.co), e);
    && s1.ops - {id} == (if e.Restart? then map[] else s.ops)
    && if id in s1.ops then Alone(s1.st, s1.co, s1.ops[id], n, s'.st, s'.co)
       else n == 0 && s1.st == s'.st && s1.co == s'.co
  }

  lemma BegunSubmit(s: Fine, e: Event, id: nat) returns (n: nat)
    requires Enabled(Sys(s.st, s.co), e) && id !in s.ops && (e.Submit? || e.Assign?)
    ensures Begun(s, e, id, n)
  {
    hide Alone, IsDag, Txns;
    var c := Sys(s.st, s.co);
    n := 0;
    if Idle(c, e) { IdleForm(c, e); }
    hide Fold;
    match e
    case Submit(spec, down, roots) =>
      if IsDag(spec.tasks) { n := SubmitAlone(c, spec, down, roots); }
    case Assign(worker, x) =>
      if s.co.queue != [] && s.co.queue[0] in s.co.specCache { n := AssignAlone(c, worker, x); }
  }

  lemma BegunReport(s: Fine, e: Event, id: nat) returns (n: nat)
    requires Enabled(Sys(s.st, s.co), e) && id !in s.ops && (e.Succeed? || e.Fail?)
    ensures Begun(s, e, id, n)
  {
    hide Alone, Txns;
    var c := Sys(s.st, s.co);
    n := 0;
    if !Accepts(s.co, e.task, e.execution) { IdleForm(c, e); }
    hide Fold;
    match e
    case Succeed(t, x, output) =>
      if Accepts(s.co, t, x) { n := SucceedAlone(c, t, x, output); }
    case Fail(t, x, msg, newId, skipped) =>
      if Accepts(s.co, t, x) { n := FailAlone(c, t, x, msg, newId, skipped); }
  }

  lemma BegunOther(s: Fine, e: Event, id: nat) returns (n: nat)
    requires id !in s.ops && (e.Cancel? || e.WorkerDied? || (e.Restart? && id == 0))
    ensures Begun(s, e, id, n)
  {
    hide Alone, Fold, LoadAll;
    match e
    case Cancel(w) =>
      CancelAlone(s.st, s.co, w, WorkflowCancelled);
      n := 3;
    case WorkerDied(_, tasks, ids) =>
      n := RequeueAlone(s.st, Released(s.co, Elems(tasks)), tasks, ids);
    case Restart(ws, queued, running, ids) =>
      n := RequeueAlone(s.st, LoadAll(s.st, ws).(queue := queued), running, ids);
  }

  /** Whatever else is in flight, a call that runs from its start to its return
      with no other step in between leaves the store and the volatile state of the
      one-step model; a crash and the recovery after it leave those of a restart. */
  lemma CallAlone(s: Fine, e: Event, id: nat) returns (n: nat)
    requires Enabled(Sys(s.st, s.co), e) && id !in s.ops && (e.Restart? ==> id == 0)
    ensures var s' := Step(Sys(s.st, s.co), e);
            Leads(s, [MoveOf(e, id)] + Advances(id, n), Fine(s'.st, s'.co, if e.Restart? then map[] else s.ops))
  {
    hide Enabled, Leads, Alone, Next, Step;
    var s1, s' := Next(s, MoveOf(e, id)), Step(Sys(s.st, s.co), e);
    var end := Fine(s'.st, s'.co, if e.Restart? then map[] else s.ops);
    if e.Submit? || e.Assign? {
      n := BegunSubmit(s, e, id);
    } else if e.Succeed? || e.Fail? {
      n := BegunReport(s, e, id);
    } else {
      n := BegunOther(s, e, id);
    }
    if id in s1.ops {
      AloneLeads(s1, id, n, s'.st, s'.co);
    } else {
      assert s1.ops - {id} == s1.ops;
      LeadsNowhere(end);
    }
    StartPossible(s, e, id);
    LeadsStep(s, MoveOf(e, id), Advances(id, n), end);
  }

  /** Every request is the call of some event of the one-step model. */
  lemma RequestIsEvent(s: Fine, id: nat, r: Request) returns (e: Event)
    requires Possible(s, Start(id, r)) && (r.SubmitReq? && Admitted(r.spec) ==> Fresh(s.st, r.spec))
    ensures Enabled(Sys(s.st, s.co), e) && MoveOf(e, id) == Start(id, r)
  {
    hide IsDag, Transposes, Fresh;
    var c := Sys(s.st, s.co);
    match r
    case SubmitReq(spec, down, roots) => e := Submit(spec, down, roots);
    case GetReq(worker, x) => e := Assign(worker, x);
    case CompleteReq(t, x, output) => e := Succeed(t, x, output);
    case FailReq(t, x, msg, newId) =>
      var skipped := [];
      if t in s.st.tasks { skipped := EnumerationExists(SkipSet(FailureRecords(c, t, msg), t)); }
      e := Fail(t, x, msg, newId, skipped);
    case CancelReq(w) => e := Cancel(w);
    case DeadReq(worker, tasks, ids) => e := WorkerDied(worker, tasks, ids);
  }

  /** Every run of the one-step model is an interleaving in which a call starts, or the
      coordinator crashes, only while no call is in flight. */
  lemma {:induction false} RunsInterleave(ss: seq<Sys>, es: seq<Event>) returns (fs: seq<Fine>, ms: seq<Move>)
    requires IsRun(ss, es)
    ensures IsInterleaving(fs, ms) && fs[|ms|] == Fine(ss[|es|].st, ss[|es|].co, map[])
    ensures forall k | 0 <= k < |ms| && !ms[k].Advance? :: fs[k].ops == map[]
    decreases es
  {
    if es == [] {
      fs, ms := [FINE_INITIAL], [];
    } else {
      hide Enabled, Step, IsInterleaving, Leads;
      var k := |es| - 1;
      assert Enabled(ss[k], es[k]) && ss[k + 1] == Step(ss[k], es[k]);
      var fs0, ms0 := RunsInterleave(ss[..k + 1], es[..k]);
      var n := CallAlone(fs0[|ms0|], es[k], 0);
      AdvancesOnly(0, n);
      fs, ms := ExtendBy(fs0, ms0, [MoveOf(es[k], 0)] + Advances(0, n), Fine(ss[|es|].st, ss[|es|].co, map[]));
      assert forall j | |ms0| < j < |ms| :: ms[j] in Advances(0, n);
      forall j | 0 <= j < |ms| && !ms[j].Advance? ensures fs[j].ops == map[] {
        assert fs[j] == fs0[j];
      }
    }
  }
}
