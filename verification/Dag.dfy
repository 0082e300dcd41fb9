/** Validation of a submitted workflow (internal/coordinator/dag.go): the
    duplicate and missing-dependency checks, the transpose and in-degrees, and
    the three-colour depth-first search. Ranging over a Go map is modelled by
    taking the remaining keys in an arbitrary order. */
module Dags {
  import opened Types
  import opened Seqs
  import opened Graphs
  import opened Sums

  datatype Dag = Dag(
    tasks: map<string, TaskSpec>,
    dependencies: Graph,
    downstream: Graph,
    inDegree: map<string, int>)

  datatype DagError =
    | ErrDuplicateTaskID
    | ErrMissingDependency(task: string, dependency: string)
    | ErrCyclicDAG(task: string)

  datatype Color = White | Gray | Black

  /** The dependency graph a task list declares. */
  function SpecGraph(ts: seq<TaskSpec>): Graph {
    map t | t in Ids(ts) :: DepsOf(ts, t)
  }

  /** What a submission must satisfy, stated without reference to the search. */
  ghost predicate IsDag(ts: seq<TaskSpec>) {
    DistinctIds(ts) && DepsExist(ts) && Acyclic(SpecGraph(ts))
  }

  /** The table built for an accepted workflow. */
  ghost predicate Describes(dag: Dag, ts: seq<TaskSpec>) {
    && dag.tasks.Keys == Ids(ts)
    && (forall i | 0 <= i < |ts| :: dag.tasks[ts[i].taskId] == ts[i])
    && dag.dependencies == SpecGraph(ts)
    && Transposes(dag.dependencies, dag.downstream)
    && dag.inDegree.Keys == Ids(ts)
    && (forall t | t in dag.inDegree :: dag.inDegree[t] == |dag.dependencies[t]|)
  }

  lemma SpecGraphClosed(ts: seq<TaskSpec>)
    requires DistinctIds(ts) && DepsExist(ts)
    ensures Closed(SpecGraph(ts))
  {
    forall t, d | t in SpecGraph(ts) && d in SpecGraph(ts)[t] ensures d in SpecGraph(ts) {
      var i :| 0 <= i < |ts| && ts[i].taskId == t;
      DepsOfIndex(ts, i);
    }
  }

  /** Finished nodes lead only to finished nodes and lie on no cycle. */
  ghost predicate BlackDone(g: Graph, color: map<string, Color>)
    requires color.Keys == g.Keys && Closed(g)
  {
    forall b | b in g && color[b].Black? ::
      !Reaches(g, b, b) && forall d | d in g[b] :: color[d].Black?
  }

  function Whites(color: map<string, Color>): set<string> {
    set t | t in color && color[t].White?
  }

  /** When every dependency of `t` is finished, finishing `t` keeps `BlackDone`. */
  lemma FinishNode(g: Graph, color: map<string, Color>, t: string)
    requires color.Keys == g.Keys && Closed(g) && BlackDone(g, color)
    requires t in g && !color[t].Black?
    requires forall d | d in g[t] :: color[d].Black?
    ensures BlackDone(g, color[t := Black])
  {
    var S := set x | x in g && color[x].Black?;
    if Reaches(g, t, t) {
      ReachesInside(g, S, t, t);
    }
  }

  /** A gray node on the current search path closes a cycle. */
  lemma BackEdgeCloses(g: Graph, path: seq<string>, t: string)
    requires IsWalk(g, path) && t in path
    requires path[|path| - 1] in g && t in g[path[|path| - 1]]
    ensures Reaches(g, t, t)
  {
    var i :| 0 <= i < |path| && path[i] == t;
    var p := path[i..] + [t];
    forall k | 0 <= k < |p| - 1 ensures p[k] in g && p[k + 1] in g[p[k]] {
      assert p[k] == path[i + k];
      if k + 1 < |p| - 1 {
        assert p[k + 1] == path[i + k + 1];
      }
    }
    assert Joins(g, p, t, t);
  }

  /** `path` is a walk through exactly the gray nodes, and `t` comes next on it. */
  ghost predicate OnPath(g: Graph, color: map<string, Color>, path: seq<string>) {
    && color.Keys == g.Keys
    && IsWalk(g, path)
    && (forall x | x in g :: color[x].Gray? <==> x in path)
  }

  ghost predicate Extends(g: Graph, path: seq<string>, t: string) {
    t in g && (path != [] ==> path[|path| - 1] in g && t in g[path[|path| - 1]])
  }

  /** A finished search step: gray nodes are as before, black nodes stay black. */
  ghost predicate Progressed(g: Graph, c0: map<string, Color>, c1: map<string, Color>)
    requires c0.Keys == c1.Keys == g.Keys
  {
    forall x | x in g :: (c0[x].Gray? <==> c1[x].Gray?) && (c0[x].Black? ==> c1[x].Black?)
  }

  lemma EnterNode(g: Graph, color: map<string, Color>, path: seq<string>, t: string)
    requires Closed(g) && OnPath(g, color, path) && Extends(g, path, t) && color[t].White?
    requires BlackDone(g, color)
    ensures OnPath(g, color[t := Gray], path + [t]) && BlackDone(g, color[t := Gray])
    ensures Whites(color[t := Gray]) == Whites(color) - {t}
    ensures forall d | d in g[t] :: Extends(g, path + [t], d)
  {
  }

  /** The colour map shared by all recursive calls of one search. */
  class Coloring {
    var color: map<string, Color>

    constructor (nodes: set<string>)
      ensures color == map t | t in nodes :: White
    {
      color := map t | t in nodes :: White;
    }

    /** Explores `t`; `path` is the walk of gray nodes leading to it. */
    method Visit(g: Graph, t: string, ghost path: seq<string>) returns (cycle: Option<string>)
      requires Closed(g) && OnPath(g, color, path) && Extends(g, path, t)
      requires BlackDone(g, color)
      modifies this
      ensures color.Keys == g.Keys
      ensures cycle.Some? ==> cycle.value in g && Reaches(g, cycle.value, cycle.value)
      ensures cycle.None? ==> BlackDone(g, color) && color[t].Black? && Progressed(g, old(color), color)
      ensures Whites(color) <= old(Whites(color))
      decreases |Whites(color)|, 0
    {
      if color[t].Gray? {
        BackEdgeCloses(g, path, t);
        return Some(t);
      }
      if color[t].Black? {
        return None;
      }
      EnterNode(g, color, path, t);
      color := color[t := Gray];
      cycle := VisitAll(g, t, path + [t]);
      if cycle.Some? {
        return;
      }
      FinishNode(g, color, t);
      color := color[t := Black];
    }

    /** Explores the dependencies of the gray node `t` in order. */
    method VisitAll(g: Graph, t: string, ghost path: seq<string>) returns (cycle: Option<string>)
      requires Closed(g) && OnPath(g, color, path) && BlackDone(g, color)
      requires t in g && forall d | d in g[t] :: Extends(g, path, d)
      modifies this
      ensures color.Keys == g.Keys
      ensures cycle.Some? ==> cycle.value in g && Reaches(g, cycle.value, cycle.value)
      ensures cycle.None? ==> BlackDone(g, color) && Progressed(g, old(color), color)
      ensures cycle.None? ==> forall d | d in g[t] :: color[d].Black?
      ensures Whites(color) <= old(Whites(color))
      decreases |Whites(color)|, 1
    {
      var deps := g[t];
      for i := 0 to |deps|
        invariant OnPath(g, color, path) && BlackDone(g, color)
        invariant Progressed(g, old(color), color)
        invariant forall k | 0 <= k < i :: color[deps[k]].Black?
        invariant Whites(color) <= old(Whites(color))
      {
        SubsetSize(Whites(color), old(Whites(color)));
        cycle := Visit(g, deps[i], path);
        if cycle.Some? {
          return;
        }
      }
      cycle := None;
    }
  }

  /** Searches from every task still white, in any order. */
  method HasCycle(g: Graph) returns (cycle: Option<string>)
    requires Closed(g)
    ensures cycle.None? <==> Acyclic(g)
    ensures cycle.Some? ==> cycle.value in g && Reaches(g, cycle.value, cycle.value)
  {
    var search := new Coloring(g.Keys);
    var rest := g.Keys;
    while rest != {}
      invariant rest <= g.Keys
      invariant search.color.Keys == g.Keys && BlackDone(g, search.color)
      invariant forall x | x in g :: !search.color[x].Gray?
      invariant forall x | x in g && x !in rest :: search.color[x].Black?
      decreases rest
    {
      var t :| t in rest;
      rest := rest - {t};
      if search.color[t].White? {
        cycle := search.Visit(g, t, []);
        if cycle.Some? {
          return;
        }
      }
    }
    cycle := None;
  }

  /** `down` and `inDeg` account for the dependency entries in `part`, a part of the graph. */
  ghost predicate Accounts(part: Graph, down: Graph, inDeg: map<string, int>) {
    Transposes(part, down) && inDeg.Keys == part.Keys && forall t | t in part :: inDeg[t] == |part[t]|
  }

  lemma AccountOneMore(part: Graph, down: Graph, inDeg: map<string, int>, t: string, dep: string)
    requires Accounts(part, down, inDeg) && t in part && dep in part
    ensures Accounts(part[t := part[t] + [dep]], down[dep := down[dep] + [t]], inDeg[t := inDeg[t] + 1])
  {
    var part', down' := part[t := part[t] + [dep]], down[dep := down[dep] + [t]];
    forall a, b | a in part' && b in part' ensures Times(down'[a], b) == Times(part'[b], a) {
      TimesSnoc(down[dep], t, b);
      TimesSnoc(part[t], dep, a);
      assert Times(down[a], b) == Times(part[b], a);
    }
  }

  /** Reverses every dependency list and counts in-degrees, task by task in any order. */
  method Reverse(g: Graph) returns (down: Graph, inDeg: map<string, int>)
    requires Closed(g)
    ensures Accounts(g, down, inDeg)
  {
    down := map t | t in g :: [];
    inDeg := map t | t in g :: 0;
    var rest := g.Keys;
    NothingAccounted(g, down, inDeg);
    while rest != {}
      invariant rest <= g.Keys
      invariant Accounts(Except(g, rest), down, inDeg)
      decreases rest
    {
      var t :| t in rest;
      down, inDeg := ReverseOne(g, t, down, inDeg, Except(g, rest));
      assert Except(g, rest)[t := g[t]] == Except(g, rest - {t});
      rest := rest - {t};
    }
    assert Except(g, {}) == g;
  }

  /** The graph with the lists of `rest` emptied. */
  ghost function Except(g: Graph, rest: set<string>): Graph {
    map t | t in g :: if t in rest then [] else g[t]
  }

  lemma NothingAccounted(g: Graph, down: Graph, inDeg: map<string, int>)
    requires down == map t | t in g :: []
    requires inDeg == map t | t in g :: 0
    ensures Accounts(Except(g, g.Keys), down, inDeg)
  {
  }

  /** Adds the entries of one dependency list. */
  method ReverseOne(g: Graph, t: string, down0: Graph, inDeg0: map<string, int>, ghost part: Graph)
    returns (down: Graph, inDeg: map<string, int>)
    requires Closed(g) && t in g && part.Keys == g.Keys && part[t] == []
    requires Accounts(part, down0, inDeg0)
    ensures Accounts(part[t := g[t]], down, inDeg)
  {
    var deps := g[t];
    down, inDeg := down0, inDeg0;
    assert part[t := deps[..0]] == part;
    for i := 0 to |deps|
      invariant Accounts(part[t := deps[..i]], down, inDeg)
    {
      AccountOneMore(part[t := deps[..i]], down, inDeg, t, deps[i]);
      assert deps[..i + 1] == deps[..i] + [deps[i]];
      assert part[t := deps[..i]][t := deps[..i + 1]] == part[t := deps[..i + 1]];
      down := down[deps[i] := down[deps[i]] + [t]];
      inDeg := inDeg[t := inDeg[t] + 1];
    }
    assert deps[..|deps|] == deps;
  }

  ghost predicate Tabulates(tasks: map<string, TaskSpec>, dependencies: Graph, ts: seq<TaskSpec>) {
    && tasks.Keys == dependencies.Keys == Ids(ts)
    && (forall k | 0 <= k < |ts| :: tasks[ts[k].taskId] == ts[k])
    && (forall k | 0 <= k < |ts| :: dependencies[ts[k].taskId] == ts[k].dependencies)
  }

  lemma TabulateOneMore(tasks: map<string, TaskSpec>, dependencies: Graph, ts: seq<TaskSpec>, t: TaskSpec)
    requires Tabulates(tasks, dependencies, ts) && DistinctIds(ts) && t.taskId !in tasks
    ensures Tabulates(tasks[t.taskId := t], dependencies[t.taskId := t.dependencies], ts + [t])
    ensures DistinctIds(ts + [t])
  {
    var ts' := ts + [t];
    assert forall k | 0 <= k < |ts| :: ts'[k] == ts[k];
    assert Ids(ts') == Ids(ts) + {t.taskId} by {
      assert ts'[|ts|] == t;
    }
  }

  /** Builds the task and dependency tables, stopping at a repeated id. */
  method Tabulate(ts: seq<TaskSpec>) returns (distinct: bool, tasks: map<string, TaskSpec>, dependencies: Graph)
    ensures distinct <==> DistinctIds(ts)
    ensures distinct ==> Tabulates(tasks, dependencies, ts)
  {
    tasks, dependencies := map[], map[];
    for i := 0 to |ts|
      invariant DistinctIds(ts[..i]) && Tabulates(tasks, dependencies, ts[..i])
    {
      if ts[i].taskId in tasks {
        var k :| 0 <= k < i && ts[..i][k].taskId == ts[i].taskId;
        assert ts[k].taskId == ts[i].taskId;
        distinct := false;
        return;
      }
      TabulateOneMore(tasks, dependencies, ts[..i], ts[i]);
      assert ts[..i + 1] == ts[..i] + [ts[i]];
      tasks := tasks[ts[i].taskId := ts[i]];
      dependencies := dependencies[ts[i].taskId := ts[i].dependencies];
    }
    assert ts[..|ts|] == ts;
    distinct := true;
  }

  lemma TabulatesGraph(tasks: map<string, TaskSpec>, dependencies: Graph, ts: seq<TaskSpec>)
    requires DistinctIds(ts) && Tabulates(tasks, dependencies, ts)
    ensures dependencies == SpecGraph(ts)
    ensures Closed(dependencies) <==> DepsExist(ts)
  {
    forall t | t in Ids(ts) ensures dependencies[t] == DepsOf(ts, t) {
      var i :| 0 <= i < |ts| && ts[i].taskId == t;
      DepsOfIndex(ts, i);
    }
    if Closed(dependencies) {
      forall i, d | 0 <= i < |ts| && d in ts[i].dependencies ensures d in Ids(ts) {
        assert ts[i].taskId in dependencies;
      }
    }
    if DepsExist(ts) {
      SpecGraphClosed(ts);
    }
  }

  /** Looks for a dependency that names no task, in any order of the tasks. */
  method FindMissing(g: Graph) returns (missing: Option<(string, string)>)
    ensures missing.None? <==> Closed(g)
    ensures missing.Some? ==> missing.value.0 in g && missing.value.1 in g[missing.value.0] && missing.value.1 !in g
  {
    var rest := g.Keys;
    while rest != {}
      invariant rest <= g.Keys
      invariant forall t, d | t in g && t !in rest && d in g[t] :: d in g
      decreases rest
    {
      var t :| t in rest;
      rest := rest - {t};
      for k := 0 to |g[t]|
        invariant forall j | 0 <= j < k :: g[t][j] in g
      {
        if g[t][k] !in g {
          return Some((t, g[t][k]));
        }
      }
    }
    missing := None;
  }

  method ValidateAndSort(workflow: WorkflowSpec) returns (r: Result<Dag, DagError>)
    ensures r.Ok? <==> IsDag(workflow.tasks)
    ensures r.Ok? ==> Describes(r.value, workflow.tasks)
    ensures r.Err? && r.error.ErrDuplicateTaskID? <==> !DistinctIds(workflow.tasks)
    ensures r.Err? && r.error.ErrMissingDependency? <==> DistinctIds(workflow.tasks) && !DepsExist(workflow.tasks)
    ensures r.Err? && r.error.ErrMissingDependency? ==>
              && r.error.task in Ids(workflow.tasks)
              && r.error.dependency in DepsOf(workflow.tasks, r.error.task)
              && r.error.dependency !in Ids(workflow.tasks)
    ensures r.Err? && r.error.ErrCyclicDAG? ==> Reaches(SpecGraph(workflow.tasks), r.error.task, r.error.task)
  {
    var distinct, tasks, dependencies := Tabulate(workflow.tasks);
    if !distinct {
      return Err(ErrDuplicateTaskID);
    }
    TabulatesGraph(tasks, dependencies, workflow.tasks);
    var missing := FindMissing(dependencies);
    if missing.Some? {
      return Err(ErrMissingDependency(missing.value.0, missing.value.1));
    }
    var downstream, inDegree := Reverse(dependencies);
    var cycle := HasCycle(dependencies);
    if cycle.Some? {
      return Err(ErrCyclicDAG(cycle.value));
    }
    r := Ok(Dag(tasks, dependencies, downstream, inDegree));
  }

  /** The tasks that can start at once. */
  ghost function Roots(ts: seq<TaskSpec>): set<string> {
    set t | t in Ids(ts) && DepsOf(ts, t) == []
  }

  method GetReadyTasks(dag: Dag) returns (ready: seq<string>)
    ensures Enumerates(ready, set t | t in dag.inDegree && dag.inDegree[t] == 0)
  {
    ready := [];
    var rest := dag.inDegree.Keys;
    while rest != {}
      invariant rest <= dag.inDegree.Keys
      invariant NoDup(ready)
      invariant forall x :: x in ready <==> x in dag.inDegree && x !in rest && dag.inDegree[x] == 0
      decreases rest
    {
      var t :| t in rest;
      rest := rest - {t};
      if dag.inDegree[t] == 0 {
        ready := ready + [t];
      }
    }
  }

  /** For a validated workflow the ready tasks are exactly those declared without dependencies. */
  lemma ReadyAreRoots(dag: Dag, ts: seq<TaskSpec>)
    requires Describes(dag, ts)
    ensures (set t | t in dag.inDegree && dag.inDegree[t] == 0) == Roots(ts)
  {
  }

  /** The in-degrees and the downstream lists account for the same number of edges. */
  lemma TotalsAgree(dag: Dag, ts: seq<TaskSpec>)
    requires IsDag(ts) && Describes(dag, ts)
    ensures forall t | t in Ids(ts) :: dag.inDegree[t] == OutDegree(dag.dependencies, t)
    ensures Edges(dag.downstream) == Edges(dag.dependencies)
  {
    SpecGraphClosed(ts);
    TransposeTotal(dag.dependencies, dag.downstream);
  }
}
