/** Deadlock freedom: an active workflow always has a task that a worker can
    take or is holding, exactly when it has tasks that the store accepts. */
module Progress {
  import opened Types
  import opened Graphs
  import opened Stores
  import opened Systems
  import opened StoreSafety
  import opened Safety
  import opened Liveness

  /** Task `t` waits at a worker's disposal or is in a worker's hands. */
  predicate Moving(s: Sys, t: string) {
    (t in s.co.queue && t in s.co.specCache) || t in s.co.running
  }

  ghost predicate CanProgress(s: Sys, w: string) {
    exists t :: t in s.st.tasks && s.st.tasks[t].workflowId == w && Moving(s, t)
  }

  /** What keeps one workflow moving. */
  ghost predicate Going(s: Sys, w: string) {
    Safe(s) && Listed(s) && WorkLive(DepGraph(s.st), s.st, w)
  }

  lemma QueuedMoves(s: Sys, t: string)
    requires Safe(s) && Listed(s) && t in s.st.tasks && IsActive(s.st, s.st.tasks[t].workflowId)
    requires s.st.tasks[t].state.Queued? || s.st.tasks[t].state.Running?
    ensures Moving(s, t)
  {
    hide StoreSafe;
  }

  /** A PENDING task with no PENDING dependency waits for one that was released. */
  lemma BlockedByReleased(st: Store, w: string, m: string) returns (d: string)
    requires StoreSafe(st) && WorkLive(DepGraph(st), st, w) && w in st.specs && Runnable(st.specs[w])
    requires m in st.tasks && st.tasks[m].workflowId == w && st.tasks[m].state.Pending?
    requires forall d | d in DepGraph(st)[m] :: d in st.tasks ==> !st.tasks[d].state.Pending?
    ensures d in st.tasks && st.tasks[d].workflowId == w
    ensures st.tasks[d].state.Queued? || st.tasks[d].state.Running?
  {
    var g, T := DepGraph(st), st.tasks;
    hide SpecsOk, Registered, Acyclic, Transposes;
    UnfinishedZero(g[m], T);
    d :| d in g[m] && !IsComplete(T, d);
    assert d in T && !Lost(T, d);
  }

  /** Following PENDING dependencies downwards ends at a task that was released. */
  lemma Unblocked(st: Store, w: string, t: string) returns (d: string)
    requires StoreSafe(st) && WorkLive(DepGraph(st), st, w) && w in st.specs && Runnable(st.specs[w])
    requires t in st.tasks && st.tasks[t].workflowId == w && st.tasks[t].state.Pending?
    ensures d in st.tasks && st.tasks[d].workflowId == w
    ensures st.tasks[d].state.Queued? || st.tasks[d].state.Running?
  {
    hide StoreSafe, WorkLive;
    var g, T := DepGraph(st), st.tasks;
    SafeLinks(st);
    var P := set u | u in T && T[u].workflowId == w && T[u].state.Pending?;
    var m := MinimalMember(g, P, t);
    d := BlockedByReleased(st, w, m);
  }

  /** An active workflow that can run has a QUEUED or a RUNNING task. */
  lemma ReleasedTask(st: Store, w: string) returns (t: string)
    requires StoreSafe(st) && WorkLive(DepGraph(st), st, w) && w in st.specs && Runnable(st.specs[w]) && IsActive(st, w)
    ensures t in st.tasks && st.tasks[t].workflowId == w
    ensures st.tasks[t].state.Queued? || st.tasks[t].state.Running?
  {
    hide StoreSafe, DepGraph;
    t :| t in OpenTasks(st.tasks, w);
    hide WorkLive;
    if st.tasks[t].state.Pending? {
      t := Unblocked(st, w, t);
    }
  }

  /** An active workflow can make progress exactly when it has tasks whose ids are keys. */
  lemma GoingCanProgress(s: Sys, w: string)
    requires Going(s, w) && IsActive(s.st, w)
    ensures w in s.st.specs && (CanProgress(s, w) <==> Runnable(s.st.specs[w]))
  {
    hide StoreSafe, CoordSafe, WorkLive, Listed, Moving;
    ActiveIsStored(s.st, w);
    if Runnable(s.st.specs[w]) {
      var t := ReleasedTask(s.st, w);
      QueuedMoves(s, t);
    } else if CanProgress(s, w) {
      var t :| t in s.st.tasks && s.st.tasks[t].workflowId == w && Moving(s, t);
      RecordedIsRunnable(s.st, t);
    }
  }

  /** In every state of every run, an active workflow has a task ready for a worker
      or with one if and only if it has tasks and the store accepts their ids. */
  lemma DeadlockFreedom(ss: seq<Sys>, es: seq<Event>, i: nat, w: string)
    requires IsRun(ss, es) && i < |ss| && IsActive(ss[i].st, w)
    ensures w in ss[i].st.specs && (CanProgress(ss[i], w) <==> Runnable(ss[i].st.specs[w]))
  {
    RunLive(ss, es, i);
    GoingCanProgress(ss[i], w);
  }
}
