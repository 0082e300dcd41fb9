/** Complete interleavings, from the empty scheduler to violations of dependency
    safety: a worker is declared dead while the success of its task is being
    recorded, and the task is then completed a second time. */
module Races {
  import opened Types
  import opened Seqs
  import opened Graphs
  import opened Dags
  import opened Stores
  import opened Systems
  import opened StoreSafety
  import opened Interleaving
  import opened Witnesses

  /** The id drawn when "a" is requeued. */
  const NEW_ID: map<string, string> := map["a" := "z"]

  /** The records right after initialisation. */
  function Fresh3(): Tasks {
    map["a" := FreshRecord("w", 0, ["b", "c"]), "b" := FreshRecord("w", 1, ["c"]), "c" := FreshRecord("w", 2, [])]
  }

  lemma InitialRecords()
    ensures Initialized(map[], "w", SPEC.tasks, InDegrees(SPEC.tasks), DOWN) == Fresh3()
  {
    SpecIds();
    InitializedEffect(map[], "w", SPEC.tasks, InDegrees(SPEC.tasks), DOWN);
    Letters();
  }

  // ---- The states of the trace -----------------------------------------------------------------

  function StoreWith(T: Tasks): Store {
    Store(map["w" := SPEC], map["w" := WorkflowRunning], T)
  }

  ghost function Cached(queue: seq<string>): Coord {
    SubmitCoord(EMPTY_COORD, SPEC, []).(queue := queue)
  }

  function QueuedA(): Tasks {
    WithState(Fresh3(), "a", Queued)
  }

  function RunningA(): Tasks {
    Assigned(QueuedA(), "a", "x")
  }

  ghost function At(i: nat): Fine {
    match i
    case 0 => FINE_INITIAL
    case 1 => Fine(INITIAL.st, EMPTY_COORD, map[0 := SubmitStore(SPEC, DOWN, ROOTS)])
    case 2 => Fine(Store(map["w" := SPEC], map[], map[]), EMPTY_COORD, map[0 := SubmitState(SPEC, DOWN, ROOTS)])
    case 3 => Fine(StoreWith(map[]), EMPTY_COORD, map[0 := SubmitTasks(SPEC, DOWN, ROOTS)])
    case 4 => Fine(StoreWith(Fresh3()), EMPTY_COORD, map[0 := SubmitCaches(SPEC, ROOTS)])
    case 5 => Fine(StoreWith(Fresh3()), Cached([]), map[0 := SubmitRoots(ROOTS)])
    case 6 => Fine(StoreWith(QueuedA()), Cached([]), map[0 := SubmitAppend("a", [])])
    case 7 => Fine(StoreWith(QueuedA()), Cached(["a"]), map[0 := SubmitRoots([])])
    case 8 => Fine(StoreWith(QueuedA()), Cached(["a"]), map[])
    case 9 => Fine(StoreWith(QueuedA()), Cached([]), map[0 := GetAssign("a", "x", "p")])
    case 10 => Fine(StoreWith(RunningA()), Cached([]), map[0 := GetHold("a", "x", "p")])
    case _ => Fine(StoreWith(RunningA()), Cached([]).(running := map["a" := "p"], executions := map["a" := "x"]), map[])
  }

  ghost function MoveAt(i: nat): Move {
    if i == 0 then Start(0, SubmitReq(SPEC, DOWN, ROOTS))
    else if i == 8 then Start(0, GetReq("p", "x"))
    else Advance(0)
  }

  ghost predicate Follows(i: nat) {
    Possible(At(i), MoveAt(i)) && Next(At(i), MoveAt(i)) == At(i + 1) && !Clobbers(At(i), MoveAt(i))
  }

  lemma Follows0() ensures Follows(0) {
    SpecIsDag();
    hide IsDag, Transposes, Enumerates;
  }

  lemma Follows1() ensures Follows(1) {
    hide SpecMap, Ids;
  }

  lemma Follows2() ensures Follows(2) {
  }

  lemma Follows3() ensures Follows(3) {
    InitialRecords();
    hide Initialized, InDegrees;
  }

  lemma Follows4() ensures Follows(4) {
    hide SpecMap, OwnerMap;
    assert Memory(EMPTY_COORD, SubmitCaches(SPEC, ROOTS)) == Cached([]);
  }

  lemma Follows5() ensures Follows(5) {
    assert ROOTS[1..] == [];
    assert "a" in Fresh3();
    hide SubmitCoord, Fresh3, AllTerminal, Verdict, OpenTasks, Completed, SkipNext, MaxRetries;
    assert Continue(At(5).st, At(5).co, SubmitRoots(ROOTS)) == Some(SubmitAppend("a", []));
    assert After(At(5).st, SubmitRoots(ROOTS)) == At(6).st;
  }

  lemma Follows6() ensures Follows(6) {
    hide SubmitCoord;
    assert [] + ["a"] == ["a"];
  }

  lemma Follows7() ensures Follows(7) {
    hide SubmitCoord;
    assert map[0 := SubmitRoots([])] - {0} == map[];
  }

  lemma Follows8() ensures Follows(8) {
    SpecCached();
    hide SpecMap, OwnerMap, QueuedA;
    assert ["a"][1..] == [];
    assert "a" in Cached(["a"]).specCache;
  }

  lemma Follows9() ensures Follows(9) {
    hide SubmitCoord;
    assert "a" in QueuedA();
  }

  lemma Follows10() ensures Follows(10) {
    hide SpecMap, OwnerMap;
    assert map[0 := GetHold("a", "x", "p")] - {0} == map[];
  }

  lemma FollowsAll(i: nat)
    requires i < 11
    ensures Follows(i)
  {
    hide Follows;
    match i
    case 0 => Follows0();
    case 1 => Follows1();
    case 2 => Follows2();
    case 3 => Follows3();
    case 4 => Follows4();
    case 5 => Follows5();
    case 6 => Follows6();
    case 7 => Follows7();
    case 8 => Follows8();
    case 9 => Follows9();
    case _ => Follows10();
  }

  lemma FollowedBy(ss: seq<Fine>, ms: seq<Move>, n: nat)
    requires IsInterleaving(ss, ms) && |ms| == n && |ss| == n + 1 && ss[n] == At(n) && Follows(n)
    ensures IsInterleaving(ss + [At(n + 1)], ms + [MoveAt(n)]) && !Clobbers(ss[n], MoveAt(n))
  {
    hide Possible, Next, Clobbers, At, MoveAt, IsInterleaving;
    ExtendInterleaving(ss, ms, MoveAt(n));
  }

  /** The prefix of the trace is an interleaving that overwrites nothing. */
  lemma {:induction false} Prefix(n: nat) returns (ss: seq<Fine>, ms: seq<Move>)
    requires n <= 11
    ensures IsInterleaving(ss, ms) && |ms| == n && |ss| == n + 1 && ss[n] == At(n)
    ensures forall k | 0 <= k < n :: !Clobbers(ss[k], ms[k])
  {
    if n == 0 {
      ss, ms := [FINE_INITIAL], [];
    } else {
      hide Possible, Next, Clobbers, At, MoveAt, IsInterleaving;
      hide Follows;
      var ss0, ms0 := Prefix(n - 1);
      FollowsAll(n - 1);
      ss, ms := ss0 + [At(n)], ms0 + [MoveAt(n - 1)];
      FollowedBy(ss0, ms0, n - 1);
      forall k | 0 <= k < n ensures !Clobbers(ss[k], ms[k]) {
        if k < n - 1 { assert ss[k] == ss0[k] && ms[k] == ms0[k]; }
      }
    }
  }

  // ---- The last state of the prefix ----------------------------------------------------------------

  lemma LastState()
    ensures var s := At(11);
            && s.ops == map[] && s.co.executions == map["a" := "x"] && s.co.running == map["a" := "p"] &&
               s.co.queue == []
            && "a" in s.co.specCache && s.st.tasks == RunningA() && s.st.specs == map["w" := SPEC] &&
               DepGraph(s.st) == DEPS
  {
    LastRecords();
    LastGraph(RunningA());
    SpecCached();
    hide RunningA, DepGraph, SpecMap, OwnerMap, DEPS;
  }

  lemma LastRecords()
    ensures var T := RunningA();
            && T.Keys == {"a", "b", "c"} && (forall t | t in T :: T[t].workflowId == "w")
            && T["a"].executionId == "x" && T["a"].state.Running? && T["a"].downstream == ["b", "c"]
            && T["b"].state.Pending? && T["b"].inDegree == 1 && T["c"].state.Pending? && T["c"].inDegree == 2
  {
    Letters();
  }

  lemma LastGraph(T: Tasks)
    requires T.Keys == {"a", "b", "c"} && forall t | t in T :: T[t].workflowId == "w"
    ensures DepGraph(StoreWith(T)) == DEPS
  {
    SpecIds();
    hide DistinctIds, Ids;
    Letters();
  }

  // ---- The first race --------------------------------------------------------------------------------

  /** The race can be run in the last state of the prefix. */
  lemma RaceApplies(s: Fine) returns (s4: Fine, ms: seq<Move>)
    requires s == At(11) && FineSafe(s)
    ensures Leads(s, ms, s4) && !DepSafe(DepGraph(s4.st), s4.st.tasks)
    ensures s4.ops.Keys == {0, 1} && s4.ops[1] == RequeueMem("a", [], NEW_ID) && s4.co.queue == [] &&
            "a" in s4.co.specCache
    ensures s4.st.tasks == Requeued(Completed(RunningA(), "a", "x", "").tasks, "a", "z") &&
            s4.st.specs == map["w" := SPEC]
  {
    hide At, Possible, Next, Clobbers, FineSafe, DepSafe, DepGraph, RunningA, Leads, Completed;
    LastState();
    LastRecords();
    assert ["a"] + [] == ["a"];
    assert HeldBy(s.co, "p") == {"a"};
    var s1, s2, s3;
    s1, s2, s3, s4 := RaceOverwritesComplete(s, "a", "b", "", [], NEW_ID, 0, 1);
    var m1, m2 := Start(0, CompleteReq("a", "x", "")), Start(1, DeadReq("p", ["a"] + [], NEW_ID));
    LeadsNowhere(s4);
    LeadsStep(s3, Advance(1), [], s4);
    LeadsStep(s2, Advance(0), [Advance(1)] + [], s4);
    LeadsStep(s1, m2, [Advance(0)] + ([Advance(1)] + []), s4);
    LeadsStep(s, m1, [m2] + ([Advance(0)] + ([Advance(1)] + [])), s4);
    ms := [m1] + ([m2] + ([Advance(0)] + ([Advance(1)] + [])));
  }

  /** An interleaving in which every call takes and releases its lock as the
      program does ends with a task QUEUED although its dependency is not COMPLETE. */
  lemma LockingIsNotEnough() returns (ss: seq<Fine>, ms: seq<Move>)
    ensures IsInterleaving(ss, ms)
    ensures !DepSafe(DepGraph(ss[|ms|].st), ss[|ms|].st.tasks)
  {
    hide At, Possible, Next, Clobbers, FineSafe, DepSafe, DepGraph, InDegreeExact, IsInterleaving, Leads;
    var ss0, ms0 := Prefix(11);
    FineGrainedSafety(ss0, ms0, 11);
    var s4, more := RaceApplies(ss0[11]);
    ss, ms := ExtendBy(ss0, ms0, more, s4);
  }

  // ---- The second race ---------------------------------------------------------------------------------

  /** The requeued task goes back into the queue and is handed out again. */
  lemma HandedOutAgain(s: Fine, a: string, rest: seq<string>, ids: map<string, string>, j: nat, k: nat, q: string,
                       y: string)
    returns (s4: Fine)
    requires j in s.ops && s.ops[j] == RequeueMem(a, rest, ids) && k !in s.ops
    requires s.co.queue == [] && a in s.co.specCache && a in s.st.tasks
    ensures Leads(s, [Advance(j)] + ([Start(k, GetReq(q, y))] + ([Advance(k)] + ([Advance(k)] + []))), s4)
    ensures s4.st == s.st.(tasks := Assigned(s.st.tasks, a, y)) && Accepts(s4.co, a, y) && s4.ops.Keys == s.ops.Keys
  {
    hide Leads, Possible, Next;
    var m := Start(k, GetReq(q, y));
    var s1, s2 := QueuedAndTaken(s, a, rest, ids, j, k, q, y);
    var s3;
    s3, s4 := AssignAndHold(s2, a, y, q, k);
    assert s4.ops.Keys == s.ops.Keys;
    LeadsNowhere(s4);
    LeadsStep(s3, Advance(k), [], s4);
    LeadsStep(s2, Advance(k), [Advance(k)] + [], s4);
    LeadsStep(s1, m, [Advance(k)] + ([Advance(k)] + []), s4);
    LeadsStep(s, Advance(j), [m] + ([Advance(k)] + ([Advance(k)] + [])), s4);
  }

  lemma QueuedAndTaken(s: Fine, a: string, rest: seq<string>, ids: map<string, string>, j: nat, k: nat, q: string,
                       y: string)
    returns (s1: Fine, s2: Fine)
    requires j in s.ops && s.ops[j] == RequeueMem(a, rest, ids) && k !in s.ops && s.co.queue == [] &&
             a in s.co.specCache
    ensures Possible(s, Advance(j)) && s1 == Next(s, Advance(j))
    ensures Possible(s1, Start(k, GetReq(q, y))) && s2 == Next(s1, Start(k, GetReq(q, y)))
    ensures s2.st == s.st && s2.ops == s.ops[j := RequeueList(rest, ids)][k := GetAssign(a, y, q)]
  {
    s1 := Next(s, Advance(j));
    assert s1 == Fine(s.st, s.co.(queue := [a]), s.ops[j := RequeueList(rest, ids)]);
    s2 := Next(s1, Start(k, GetReq(q, y)));
  }

  lemma AssignAndHold(s: Fine, a: string, y: string, q: string, k: nat) returns (s1: Fine, s2: Fine)
    requires k in s.ops && s.ops[k] == GetAssign(a, y, q) && a in s.st.tasks
    ensures Possible(s, Advance(k)) && s1 == Next(s, Advance(k)) && Possible(s1, Advance(k)) &&
            s2 == Next(s1, Advance(k))
    ensures s2.st == s.st.(tasks := Assigned(s.st.tasks, a, y)) && Accepts(s2.co, a, y) && s2.ops == s.ops - {k}
  {
    s1 := Next(s, Advance(k));
    assert s1 == Fine(s.st.(tasks := Assigned(s.st.tasks, a, y)), s.co, s.ops[k := GetHold(a, y, q)]);
    s2 := Next(s1, Advance(k));
    assert s2.ops == s.ops - {k};
  }

  /** Its second success is accepted and written. */
  lemma CompletedAgain(s: Fine, a: string, y: string, l: nat) returns (s2: Fine)
    requires Accepts(s.co, a, y) && l !in s.ops
    ensures Leads(s, [Start(l, CompleteReq(a, y, ""))] + ([Advance(l)] + []), s2)
    ensures s2.st == s.st.(tasks := Completed(s.st.tasks, a, y, "").tasks)
  {
    hide Leads, Completed;
    var m := Start(l, CompleteReq(a, y, ""));
    var s1 := Next(s, m);
    assert s1 == s.(ops := s.ops[l := CompleteWrite(a, y, "")]) && Possible(s, m);
    s2 := Next(s1, Advance(l));
    assert Possible(s1, Advance(l));
    hide Possible, Next;
    LeadsNowhere(s2);
    LeadsStep(s1, Advance(l), [], s2);
    LeadsStep(s, m, [Advance(l)] + [], s2);
  }

  /** The records after "a" has been completed, requeued, handed out and completed again. */
  lemma TwiceCompleted()
    ensures var T1 := Completed(RunningA(), "a", "x", "").tasks;
            var T2 := Completed(Assigned(Requeued(T1, "a", "z"), "a", "y"), "a", "y", "").tasks;
            && T2.Keys == {"a", "b", "c"} && (forall t | t in T2 :: T2[t].workflowId == "w")
            && T2["a"].state.Complete? && T2["b"].state.Queued? && T2["c"].state.Queued?
  {
    var T := RunningA();
    LastRecords();
    Letters();
    TimesTwo("b", "c");
    hide RunningA;
    var D1 := T["a" := T["a"].(state := Complete, output := "")];
    ReleaseAllRecords(D1, ["b", "c"]);
    var T1 := Completed(T, "a", "x", "").tasks;
    assert T1 == ReleaseAll(D1, ["b", "c"]).0;
    hide ReleaseAll, Times;
    assert T1["b"] == AfterReleases(T["b"], 1) && T1["c"] == AfterReleases(T["c"], 1);
    SecondCompletion(T1);
  }

  lemma SecondCompletion(T: Tasks)
    requires T.Keys == {"a", "b", "c"} && (forall t | t in T :: T[t].workflowId == "w") &&
             T["a"].downstream == ["b", "c"]
    requires T["b"].state.Queued? && T["c"].state.Pending? && T["c"].inDegree == 1
    ensures var T2 := Completed(Assigned(Requeued(T, "a", "z"), "a", "y"), "a", "y", "").tasks;
            && T2.Keys == {"a", "b", "c"} && (forall t | t in T2 :: T2[t].workflowId == "w")
            && T2["a"].state.Complete? && T2["b"].state.Queued? && T2["c"].state.Queued?
  {
    Letters();
    TimesTwo("b", "c");
    var R := Assigned(Requeued(T, "a", "z"), "a", "y");
    var D2 := R["a" := R["a"].(state := Complete, output := "")];
    ReleaseAllRecords(D2, ["b", "c"]);
    hide ReleaseAll, Times;
    assert Completed(R, "a", "y", "").tasks == ReleaseAll(D2, ["b", "c"]).0;
  }

  /** A completion counted twice: after the first race "a" is handed out and
      completed a second time, and "c", which depends on "a" and "b", is QUEUED
      although "b" is not COMPLETE. */
  lemma CountedTwice() returns (ss: seq<Fine>, ms: seq<Move>)
    ensures IsInterleaving(ss, ms)
    ensures var st := ss[|ms|].st;
            && "a" in st.tasks && st.tasks["a"].state.Complete? && "c" in st.tasks && st.tasks["c"].state.Queued?
            && "w" in st.specs && DepsOf(st.specs["w"].tasks, "c") == ["a", "b"] && !IsComplete(st.tasks, "b")
  {
    hide At, Possible, Next, Clobbers, FineSafe, DepSafe, DepGraph, InDegreeExact, IsInterleaving;
    hide Leads, Completed, RunningA, Requeued, Assigned, DepsOf;
    var ss0, ms0 := Prefix(11);
    FineGrainedSafety(ss0, ms0, 11);
    var s4, more := RaceApplies(ss0[11]);
    ss, ms := ExtendBy(ss0, ms0, more, s4);
    TwiceCompleted();
    var T1 := Completed(RunningA(), "a", "x", "").tasks;
    assert "a" in s4.st.tasks by { KeysKept(); }
    var s8 := HandedOutAgain(s4, "a", [], NEW_ID, 1, 2, "q", "y");
    ss, ms := ExtendBy(ss, ms, [Advance(1)] + ([Start(2, GetReq("q", "y"))] + ([Advance(2)] + ([Advance(2)] + []))),
                       s8);
    var s10 := CompletedAgain(s8, "a", "y", 3);
    ss, ms := ExtendBy(ss, ms, [Start(3, CompleteReq("a", "y", ""))] + ([Advance(3)] + []), s10);
    SpecIds();
  }

  lemma KeysKept()
    ensures "a" in Requeued(Completed(RunningA(), "a", "x", "").tasks, "a", "z")
  {
    LastRecords();
    CompletedShape(RunningA(), "a", "x", "");
  }
}
