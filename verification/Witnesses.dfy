/** Runs from the empty scheduler that show what the theorems leave open does
    happen: three tasks, each depending on the ones before it, and a task without an id. */
module Witnesses {
  import opened Types
  import opened Seqs
  import opened Graphs
  import opened Dags
  import opened Stores
  import opened Systems
  import opened StoreSafety
  import opened StepForms
  import opened Safety
  import opened Liveness
  import opened Progress
  import opened History
  import opened Outcomes
  import opened Verdicts

  const FIRST := TaskSpec("a", [], "", map[], 0, 2)
  const SECOND := TaskSpec("b", ["a"], "", map[], 0, 0)
  const THIRD := TaskSpec("c", ["a", "b"], "", map[], 0, 0)
  const SPEC := WorkflowSpec("w", [FIRST, SECOND, THIRD], FailFast)
  const DOWN: Graph := map["a" := ["b", "c"], "b" := ["c"], "c" := []]
  const ROOTS := ["a"]

  lemma Letters()
    ensures "a" != "b" && "a" != "c" && "b" != "c"
  {
    assert "a"[0] != "b"[0] && "a"[0] != "c"[0] && "b"[0] != "c"[0];
  }

  lemma SpecIds()
    ensures Ids(SPEC.tasks) == {"a", "b", "c"} && DistinctIds(SPEC.tasks)
    ensures DepsOf(SPEC.tasks, "a") == [] && DepsOf(SPEC.tasks, "b") == ["a"] && DepsOf(SPEC.tasks, "c") == ["a", "b"]
  {
    var ts := SPEC.tasks;
    assert ts[0].taskId == "a" && ts[1].taskId == "b" && ts[2].taskId == "c";
    Letters();
    DepsOfIndex(ts, 0);
    DepsOfIndex(ts, 1);
    DepsOfIndex(ts, 2);
  }

  /** The dependency graph of the workflow. */
  const DEPS: Graph := map["a" := [], "b" := ["a"], "c" := ["a", "b"]]

  lemma SpecIsDag()
    ensures Accepted(SPEC) && SpecGraph(SPEC.tasks) == DEPS
    ensures Transposes(SpecGraph(SPEC.tasks), DOWN) && Enumerates(ROOTS, Roots(SPEC.tasks))
  {
    hide Acyclic, Transposes, Enumerates, DepsOf, Ids, DistinctIds;
    SpecShape();
    SpecAcyclic();
    SpecTransposes();
    SpecRoots();
  }

  lemma SpecShape()
    ensures SpecGraph(SPEC.tasks) == DEPS && DistinctIds(SPEC.tasks) && DepsExist(SPEC.tasks)
  {
    SpecIds();
    Letters();
    hide DepsOf, Ids;
  }

  lemma SpecRoots()
    ensures Enumerates(ROOTS, Roots(SPEC.tasks))
  {
    SpecIds();
    hide DepsOf, Ids;
  }

  lemma SpecAcyclic()
    ensures Acyclic(DEPS)
  {
    Letters();
    forall t | t in DEPS ensures !Reaches(DEPS, t, t) {
      if Reaches(DEPS, t, t) {
        ReachesInside(DEPS, if t == "a" then {} else if t == "b" then {"a"} else {"a", "b"}, t, t);
      }
    }
  }

  lemma SpecTransposes()
    ensures Transposes(DEPS, DOWN)
  {
    Letters();
    TimesOne("a");
    TimesOne("b");
    TimesOne("c");
    TimesTwo("a", "b");
    TimesTwo("b", "c");
  }

  lemma TimesOne(x: string)
    ensures forall y :: Times([], y) == 0 && Times([x], y) == if x == y then 1 else 0
  {
  }

  lemma TimesTwo(x: string, z: string)
    ensures forall y :: Times([x, z], y) == (if x == y then 1 else 0) + if z == y then 1 else 0
  {
    forall y ensures Times([x, z], y) == (if x == y then 1 else 0) + if z == y then 1 else 0 {
      assert [x, z] == [x] + [z];
      TimesSnoc([x], z, y);
    }
  }

  // ---- The run --------------------------------------------------------------------------------

  /** The workflow is stored and active, "a" ready and the others waiting for it. */
  ghost predicate Submitted(s: Sys) {
    && s.st.specs == map["w" := SPEC] && s.st.workflows == map["w" := WorkflowRunning]
    && s.st.tasks.Keys == {"a", "b", "c"} && (forall t | t in s.st.tasks :: s.st.tasks[t].workflowId == "w")
    && s.st.tasks["a"].state.Queued? && s.st.tasks["b"].state.Pending? && s.st.tasks["c"].state.Pending?
    && s.co.queue == ["a"] && "a" in s.co.specCache && s.co.executions == map[]
  }

  lemma SubmittedRun() returns (ss: seq<Sys>, es: seq<Event>)
    ensures IsRun(ss, es) && es == [Submit(SPEC, DOWN, ROOTS)] && Submitted(ss[1])
  {
    var e := Submit(SPEC, DOWN, ROOTS);
    SpecIsDag();
    hide Accepted, Transposes, Enumerates, Step;
    AcceptedEnabled(SPEC, DOWN, ROOTS);
    ss, es := [INITIAL, Step(INITIAL, e)], [e];
    SubmittedState();
  }

  lemma AcceptedEnabled(spec: WorkflowSpec, down: Graph, roots: seq<string>)
    requires IsDag(spec.tasks) ==> Transposes(SpecGraph(spec.tasks), down) && Enumerates(roots, Roots(spec.tasks))
    ensures Enabled(INITIAL, Submit(spec, down, roots))
  {
    hide IsDag, Transposes, Enumerates;
  }

  lemma SubmittedRecords()
    ensures var T := SubmittedTasks(map[], SPEC, DOWN, ROOTS);
            && T.Keys == {"a", "b", "c"} && (forall t | t in T :: T[t].workflowId == "w")
            && T["a"].state.Queued? && T["b"].state.Pending? && T["c"].state.Pending?
  {
    SpecIsDag();
    SubmitFrame(map[], SPEC, DOWN, ROOTS);
    SpecIds();
    hide Accepted, Transposes, Enumerates, SubmittedTasks, DepsOf, Ids, DistinctIds, SpecGraph, Roots;
  }

  lemma SpecAccepted()
    ensures Accepted(SPEC) && Admitted(SPEC) && ValidIds(SPEC.tasks)
  {
    SpecIsDag();
  }

  lemma SpecCached()
    ensures "a" in SpecMap(SPEC.tasks)
  {
    SpecIds();
    SpecMapFacts(SPEC.tasks);
  }

  lemma SubmittedState()
    ensures Submitted(Step(INITIAL, Submit(SPEC, DOWN, ROOTS)))
  {
    hide Accepted, Admitted, ValidIds, Step, SubmittedTasks, SpecMap, OwnerMap;
    SpecAccepted();
    SubmitForm(INITIAL, SPEC, DOWN, ROOTS);
    AcceptedCoord(INITIAL, SPEC, DOWN, ROOTS);
    SubmittedRecords();
    SpecCached();
    assert [] + ROOTS == ["a"];
  }

  lemma AssignedRun() returns (ss: seq<Sys>, es: seq<Event>)
    ensures IsRun(ss, es) && es == [Submit(SPEC, DOWN, ROOTS), Assign("p", "x")]
    ensures var s := ss[2];
            && s.st.specs == map["w" := SPEC] && s.st.workflows == map["w" := WorkflowRunning]
            && s.st.tasks.Keys == {"a", "b", "c"} && (forall t | t in s.st.tasks :: s.st.tasks[t].workflowId == "w")
            && s.st.tasks["a"].state.Running? && s.st.tasks["b"].state.Pending? && s.st.tasks["c"].state.Pending?
            && s.co.executions == map["a" := "x"]
  {
    hide Txns, Fold, Enabled;
    var ss1, es1 := SubmittedRun();
    var e := Assign("p", "x");
    assert Enabled(ss1[1], e) by { AlwaysEnabled(ss1[1], e); }
    ExtendRun(ss1, es1, e);
    AssignForm(ss1[1], "p", "x");
    ss, es := ss1 + [Step(ss1[1], e)], es1 + [e];
    Letters();
  }

  lemma AlwaysEnabled(s: Sys, e: Event)
    requires e.Assign? || e.Succeed? || e.Cancel?
    ensures Enabled(s, e)
  {
  }

  /** The workflow is cancelled while "a" is RUNNING. */
  lemma CancelledRun() returns (ss: seq<Sys>, es: seq<Event>)
    ensures IsRun(ss, es) && es == [Submit(SPEC, DOWN, ROOTS), Assign("p", "x"), Cancel("w")]
    ensures CancelledWhileRunning(ss, es, 2, "a")
    ensures var s := ss[3];
            && s.st.specs == map["w" := SPEC] && s.st.workflows == map["w" := WorkflowCancelled]
            && s.st.tasks.Keys == {"a", "b", "c"} && (forall t | t in s.st.tasks :: s.st.tasks[t].workflowId == "w")
            && (forall t | t in s.st.tasks :: s.st.tasks[t].state.Skipped?) && s.co.executions == map["a" := "x"]
  {
    hide Txns, Fold, Enabled;
    var ss1, es1 := AssignedRun();
    var e := Cancel("w");
    AlwaysEnabled(ss1[2], e);
    ExtendRun(ss1, es1, e);
    CancelForm(ss1[2], "w");
    ss, es := ss1 + [Step(ss1[2], e)], es1 + [e];
  }

  /** The verdict can fail: a run ends with a QUEUED task in a workflow that is not active. */
  lemma VerdictCanFail() returns (ss: seq<Sys>, es: seq<Event>)
    ensures IsRun(ss, es) && |es| == 4 && FreshDraws(es)
    ensures var st := ss[4].st;
            "a" in st.tasks && st.tasks["a"].state.Queued? && !IsActive(st, st.tasks["a"].workflowId)
  {
    hide IsRun, Step;
    var ss1, es1 := CancelledRun();
    RunLength(ss1, es1);
    var e := CancelledRunningReturns(ss1, es1, "a", map["a" := "z"]);
    assert "x" != "z" by { assert "x"[0] != "z"[0]; }
    ss, es := ss1 + [Step(ss1[3], e)], es1 + [e];
  }

  /** A cancelled workflow can end COMPLETE with a SKIPPED task. */
  lemma CompleteDespiteSkipped() returns (ss: seq<Sys>, es: seq<Event>)
    ensures IsRun(ss, es) && |es| == 4 && es[2] == Cancel("w") && FreshDraws(es)
    ensures var st := ss[4].st;
            && "w" in st.workflows && st.workflows["w"].WorkflowComplete?
            && "a" in st.tasks && st.tasks["a"].state.Complete? && "b" in st.tasks && st.tasks["b"].state.Skipped?
  {
    hide Step, Enabled;
    var ss1, es1 := CancelledRun();
    var e := Succeed("a", "x", "");
    AlwaysEnabled(ss1[3], e);
    ExtendRun(ss1, es1, e);
    ss, es := ss1 + [Step(ss1[3], e)], es1 + [e];
    Letters();
    LateSuccess(ss, es, 3);
  }

  /** An execution id, a different one for every number. */
  function Id(k: nat): (x: string)
    ensures |x| == k + 1
  {
    seq(k + 1, _ => 'x')
  }

  /** The first task may fail twice at most by its specification; a run of the
      scheduler, in which no id is drawn twice, takes any number of its failures. */
  lemma FailuresExceedLimit(n: nat) returns (ss: seq<Sys>, es: seq<Event>)
    ensures IsRun(ss, es) && |es| == 1 + 2 * n && es[0] == Submit(SPEC, DOWN, ROOTS) && FreshDraws(es) && FreshIds(es)
    ensures SPEC.tasks[0].taskId == "a" && SPEC.tasks[0].maxRetries == 2
    ensures forall k | 0 <= k < n :: FailsAt(ss, es, 2 + 2 * k, "a")
    ensures forall j | 1 <= j < |ss| :: NotFailed(ss[j], "a")
  {
    hide IsRun, FailsAt, NotFailed;
    var ss1, es1 := SubmittedRun();
    RunLength(ss1, es1);
    assert Retriable(ss1[1], "a") by { SubmittedRetriable(ss1[1]); }
    var xs, ys := seq(n, k requires 0 <= k => Id(k)), seq(n, k requires 0 <= k => Id(n + k));
    ss, es := FailuresUnbounded(ss1, es1, "a", "p", xs, ys);
    IdsDistinct(xs, ys);
    AttemptsFresh(es1, "a", "p", xs, ys);
    DrawsAreIds(es);
  }

  lemma IdsDistinct(xs: seq<string>, ys: seq<string>)
    requires |xs| == |ys| && forall k | 0 <= k < |xs| :: xs[k] == Id(k) && ys[k] == Id(|xs| + k)
    ensures Distinct(xs, ys)
  {
    forall k | 0 <= k < |xs| ensures |xs[k]| == k + 1 && |ys[k]| == |xs| + k + 1 {
      assert xs[k] == Id(k) && ys[k] == Id(|xs| + k);
    }
  }

  lemma SubmittedRetriable(s: Sys)
    requires Submitted(s)
    ensures Retriable(s, "a")
  {
    Letters();
  }

  // ---- A task without an id ---------------------------------------------------------------------

  const NAMELESS := TaskSpec("", [], "", map[], 0, 0)
  const HALTED := WorkflowSpec("w", [NAMELESS], FailFast)

  lemma HaltedIsAdmitted()
    ensures Admitted(HALTED) && !ValidIds(HALTED.tasks) && SpecGraph(HALTED.tasks) == map["" := []]
    ensures Transposes(SpecGraph(HALTED.tasks), map["" := []]) && Enumerates([""], Roots(HALTED.tasks))
  {
    var ts := HALTED.tasks;
    assert ts[0].taskId == "";
    DepsOfIndex(ts, 0);
    assert Ids(ts) == {""};
    var g := SpecGraph(ts);
    assert g == map["" := []];
    if Reaches(g, "", "") {
      ReachesInside(g, {}, "", "");
    }
    assert Times([], "") == 0;
  }

  /** A workflow with a name and a task whose id is empty: the submission fails after
      the workflow has been made active, and it is stuck from then on. */
  lemma EmptyTaskIdStrands() returns (ss: seq<Sys>, es: seq<Event>)
    ensures IsRun(ss, es) && es == [Submit(HALTED, map["" := []], [""])] && HALTED.tasks != []
    ensures IsActive(ss[1].st, "w") && !CanProgress(ss[1], "w")
  {
    var e := Submit(HALTED, map["" := []], [""]);
    HaltedIsAdmitted();
    hide Admitted, Transposes, Enumerates, Step, CanProgress, ValidIds;
    AcceptedEnabled(HALTED, e.down, e.roots);
    ss, es := [INITIAL, Step(INITIAL, e)], [e];
    UnrunnableStuck(ss, es, 0, 1);
  }
}
