/** Failure-free runs: work is finite, never stalls, and ends with every task
    COMPLETE after exactly one assignment. */
module Termination {
  import opened Types
  import opened Sums
  import opened Graphs
  import opened Stores
  import opened Systems
  import opened StoreSafety
  import opened StepForms
  import opened Safety
  import opened Liveness
  import opened Progress
  import opened History
  import opened Verdicts

  // ---- The potential ------------------------------------------------------------------------

  function Weight(state: TaskState): nat {
    match state
    case Pending => 3
    case Queued => 2
    case Running => 1
    case _ => 0
  }

  ghost function TaskWeight(T: Tasks, t: string): nat {
    if t in T then Weight(T[t].state) else 0
  }

  /** Three units of work for a PENDING task, two for a QUEUED, one for a RUNNING one. */
  ghost function Potential(s: Sys): nat {
    Sum(s.st.tasks.Keys, t => TaskWeight(s.st.tasks, t))
  }

  // ---- Failure-free runs -----------------------------------------------------------------------

  /** Only submissions, assignments and reported successes. */
  ghost predicate FailureFree(es: seq<Event>) {
    forall i | 0 <= i < |es| :: es[i].Submit? || es[i].Assign? || es[i].Succeed?
  }

  /** The call takes a task from the queue or reports a current success. */
  predicate Works(s: Sys, e: Event) {
    (e.Assign? && s.co.queue != []) || (e.Succeed? && Accepts(s.co, e.task, e.execution))
  }

  ghost predicate NothingLost(s: Sys) {
    && (forall t | t in s.st.tasks :: !s.st.tasks[t].state.Failed? && !s.st.tasks[t].state.Skipped?)
    && (forall w | w in s.st.specs ::
        w in s.st.workflows && !s.st.workflows[w].WorkflowFailed? && !s.st.workflows[w].WorkflowCancelled?)
  }

  lemma StepNothingLost(s: Sys, e: Event)
    requires Safe(s) && Enabled(s, e) && NothingLost(s) && (e.Submit? || e.Assign? || e.Succeed?)
    ensures NothingLost(Step(s, e))
  {
    hide Safe, Step, Enabled;
    var s' := Step(s, e);
    forall t | t in s'.st.tasks ensures !s'.st.tasks[t].state.Failed? && !s'.st.tasks[t].state.Skipped? {
      if t in s.st.tasks {
        StepMoves(s, e, t);
      } else {
        NewTaskState(s, e, t);
      }
    }
    forall w | w in s'.st.specs
      ensures w in s'.st.workflows && !s'.st.workflows[w].WorkflowFailed? && !s'.st.workflows[w].WorkflowCancelled?
    {
      StepWorkflows(s, e, w);
      if w !in s.st.specs {
        NewWorkflow(s, e, w);
      }
    }
  }

  lemma {:induction false} FreeNothingLost(ss: seq<Sys>, es: seq<Event>, i: nat)
    requires IsRun(ss, es) && FailureFree(es) && i < |ss|
    ensures NothingLost(ss[i])
  {
    hide Safe, Enabled, Step;
    if i > 0 {
      FreeNothingLost(ss, es, i - 1);
      RunSafe(ss, es, i - 1);
      assert Enabled(ss[i - 1], es[i - 1]) && ss[i] == Step(ss[i - 1], es[i - 1]);
      StepNothingLost(ss[i - 1], es[i - 1]);
    }
  }

  /** An unfinished task belongs to an active workflow. */
  lemma FreeActive(ss: seq<Sys>, es: seq<Event>, i: nat, t: string)
    requires IsRun(ss, es) && FailureFree(es) && i < |ss|
    requires t in ss[i].st.tasks && !ss[i].st.tasks[t].state.Terminal()
    ensures IsActive(ss[i].st, ss[i].st.tasks[t].workflowId)
  {
    hide StoreSafe, CoordSafe, Enabled, Step;
    assert CleanBefore(ss, es, i);
    RunSafe(ss, es, i);
    SafeSpecs(ss[i].st);
    CleanVerdict(ss, es, i, ss[i].st.tasks[t].workflowId);
  }

  /** Unfinished tasks that are not PENDING are within reach of a worker. */
  lemma FreeMoving(ss: seq<Sys>, es: seq<Event>, i: nat, t: string)
    requires IsRun(ss, es) && FailureFree(es) && i < |ss| && t in ss[i].st.tasks
    requires ss[i].st.tasks[t].state.Queued? || ss[i].st.tasks[t].state.Running?
    ensures Moving(ss[i], t)
  {
    hide Safe, Listed, WorkLive, Enabled, Step, Moving;
    FreeActive(ss, es, i, t);
    RunLive(ss, es, i);
    QueuedMoves(ss[i], t);
  }

  // ---- Work is finite ------------------------------------------------------------------------------

  /** Without failures no task ever gets more work. */
  lemma FreeWeights(s: Sys, e: Event, t: string)
    requires Safe(s) && Enabled(s, e) && NothingLost(s) && (e.Assign? || e.Succeed?) && t in s.st.tasks
    ensures t in Step(s, e).st.tasks
    ensures Weight(Step(s, e).st.tasks[t].state) <= Weight(s.st.tasks[t].state)
  {
    hide Safe, Enabled, Step;
    StepMoves(s, e, t);
  }

  /** The task a working call is about loses weight. */
  lemma WorkedTask(ss: seq<Sys>, es: seq<Event>, i: nat) returns (t: string)
    requires IsRun(ss, es) && FailureFree(es) && i < |es| && Works(ss[i], es[i])
    ensures t in ss[i].st.tasks && t in ss[i + 1].st.tasks
    ensures Weight(ss[i + 1].st.tasks[t].state) < Weight(ss[i].st.tasks[t].state)
  {
    hide StoreSafe, CoordSafe, Enabled, Step, Completed, Linked, DepSafe;
    var s, e := ss[i], es[i];
    RunSafe(ss, es, i);
    FreeNothingLost(ss, es, i);
    if e.Assign? {
      t := s.co.queue[0];
      assert t in s.co.queue;
      QueuedFacts(s, t);
      FreeMoving(ss, es, i, t);
      SameHeldKeys(s);
      if t in s.co.running { HeldFacts(s, t); }
      AssignForm(s, e.worker, e.execution);
    } else {
      t := e.task;
      HeldFacts(s, t);
      SafeLinks(s.st);
      SucceedForm(s, t, e.execution, e.output);
      CompletedRecords(DepGraph(s.st), s.st.tasks, t, e.execution, e.output);
    }
  }

  /** Each assignment and each current success lowers the potential; other
      failure-free calls between submissions leave everything as it is. */
  lemma WorkDrops(ss: seq<Sys>, es: seq<Event>, i: nat)
    requires IsRun(ss, es) && FailureFree(es) && i < |es| && !es[i].Submit?
    ensures if Works(ss[i], es[i]) then Potential(ss[i + 1]) < Potential(ss[i]) else ss[i + 1] == ss[i]
  {
    var s, e := ss[i], es[i];
    assert Enabled(s, e) && ss[i + 1] == Step(s, e);
    if Works(s, e) {
      hide Safe, Step, Enabled;
      RunSafe(ss, es, i);
      FreeNothingLost(ss, es, i);
      StepShape(s, e);
      forall t | t in s.st.tasks ensures Weight(ss[i + 1].st.tasks[t].state) <= Weight(s.st.tasks[t].state) {
        FreeWeights(s, e, t);
      }
      var t := WorkedTask(ss, es, i);
      SumFalls(s.st.tasks.Keys, u => TaskWeight(s.st.tasks, u), u => TaskWeight(ss[i + 1].st.tasks, u));
    }
  }

  /** The number of working calls among steps `i` to `j - 1`. */
  ghost function WorkCount(ss: seq<Sys>, es: seq<Event>, i: nat, j: nat): nat
    requires j <= |es| < |ss|
  {
    if i >= j then 0 else WorkCount(ss, es, i, j - 1) + if Works(ss[j - 1], es[j - 1]) then 1 else 0
  }

  /** Between submissions the potential bounds the number of working calls. */
  lemma {:induction false} WorkIsBounded(ss: seq<Sys>, es: seq<Event>, i: nat, j: nat)
    requires IsRun(ss, es) && FailureFree(es) && i <= j <= |es|
    requires forall k | i <= k < j :: !es[k].Submit?
    ensures WorkCount(ss, es, i, j) + Potential(ss[j]) <= Potential(ss[i])
  {
    hide Safe, Enabled, Step, Potential, Works;
    if i < j {
      WorkIsBounded(ss, es, i, j - 1);
      WorkDrops(ss, es, j - 1);
    }
  }

  // ---- Work never stalls, and where it ends ------------------------------------------------------------

  /** With an empty queue and nothing handed out, nothing is unfinished. */
  lemma QuiescentAllComplete(ss: seq<Sys>, es: seq<Event>, i: nat, t: string)
    requires IsRun(ss, es) && FailureFree(es) && i < |ss|
    requires ss[i].co.queue == [] && ss[i].co.executions == map[] && t in ss[i].st.tasks
    ensures ss[i].st.tasks[t].state.Complete?
  {
    hide StoreSafe, CoordSafe, WorkLive, Listed, Enabled, Step;
    var s := ss[i];
    RunLive(ss, es, i);
    FreeNothingLost(ss, es, i);
    SameHeldKeys(s);
    forall u | u in s.st.tasks && !s.st.tasks[u].state.Complete? ensures s.st.tasks[u].state.Pending? {
      if s.st.tasks[u].state.Queued? || s.st.tasks[u].state.Running? {
        FreeMoving(ss, es, i, u);
      }
    }
    if s.st.tasks[t].state.Pending? {
      SafeLinks(s.st);
      var P := set u | u in s.st.tasks && s.st.tasks[u].state.Pending?;
      var m := MinimalMember(DepGraph(s.st), P, t);
      var d := UnfinishedDependency(s, m);
      assert false;
    }
  }

  /** A PENDING task has a dependency that is not COMPLETE. */
  lemma UnfinishedDependency(s: Sys, m: string) returns (d: string)
    requires Live(s) && m in s.st.tasks && s.st.tasks[m].state.Pending?
    ensures m in DepGraph(s.st) && d in DepGraph(s.st)[m] && d in s.st.tasks && !s.st.tasks[d].state.Complete?
  {
    RecordedIsRunnable(s.st, m);
    assert WorkLive(DepGraph(s.st), s.st, s.st.tasks[m].workflowId);
    hide SpecsOk, Registered, CoordSafe, Acyclic, Transposes, Listed;
    UnfinishedZero(DepGraph(s.st)[m], s.st.tasks);
    d :| d in DepGraph(s.st)[m] && !IsComplete(s.st.tasks, d);
  }

  /** A failure-free run that can do no more work has completed exactly the
      workflows that can run, with all their tasks. */
  lemma FailureFreeEnd(ss: seq<Sys>, es: seq<Event>, w: string)
    requires IsRun(ss, es) && FailureFree(es)
    requires ss[|es|].co.queue == [] && ss[|es|].co.executions == map[]
    requires w in ss[|es|].st.specs
    ensures w in ss[|es|].st.workflows
    ensures if Runnable(ss[|es|].st.specs[w])
            then ss[|es|].st.workflows[w].WorkflowComplete? &&
                 forall t | t in Ids(ss[|es|].st.specs[w].tasks) :: IsComplete(ss[|es|].st.tasks, t)
            else IsActive(ss[|es|].st, w)
  {
    hide Safe, Enabled, Step, Listed;
    var s := ss[|es|];
    FreeNothingLost(ss, es, |es|);
    RunLive(ss, es, |es|);
    forall t | t in s.st.tasks ensures s.st.tasks[t].state.Complete? {
      QuiescentAllComplete(ss, es, |es|, t);
    }
    assert OpenTasks(s.st.tasks, w) == {} && WorkLive(DepGraph(s.st), s.st, w);
    if !Runnable(s.st.specs[w]) { UnrunnableState(ss, es, |es|, w); }
  }

  // ---- Exactly one assignment ------------------------------------------------------------------------------

  /** How often `t` was handed out in the first `i` steps. */
  ghost function Handed(ss: seq<Sys>, es: seq<Event>, i: nat, t: string): nat
    requires i <= |es| < |ss|
  {
    if i == 0 then 0 else Handed(ss, es, i - 1, t) + if HandsOut(ss[i - 1], es[i - 1], t) then 1 else 0
  }

  predicate Started(T: Tasks, t: string) {
    t in T && (T[t].state.Running? || T[t].state.Complete?)
  }

  lemma StartedStep(s: Sys, e: Event, t: string)
    requires Safe(s) && Enabled(s, e) && NothingLost(s) && (e.Submit? || e.Assign? || e.Succeed?)
    ensures Started(Step(s, e).st.tasks, t) <==> Started(s.st.tasks, t) || HandsOut(s, e, t)
    ensures HandsOut(s, e, t) ==> !Started(s.st.tasks, t)
  {
    hide Safe, Enabled, Step;
    if t in s.st.tasks {
      StepMoves(s, e, t);
      if HandsOut(s, e, t) {
        HandsOutRunning(s, e, t);
      }
    } else if t in Step(s, e).st.tasks {
      NewTaskState(s, e, t);
    }
  }

  /** Without failures a task is handed out once if it has started and never
      otherwise; in particular exactly once if it is COMPLETE. */
  lemma {:induction false} AssignedOnce(ss: seq<Sys>, es: seq<Event>, i: nat, t: string)
    requires IsRun(ss, es) && FailureFree(es) && i < |ss|
    ensures Handed(ss, es, i, t) == if Started(ss[i].st.tasks, t) then 1 else 0
  {
    hide Safe, Enabled, Step, HandsOut;
    if i > 0 {
      AssignedOnce(ss, es, i - 1, t);
      RunSafe(ss, es, i - 1);
      FreeNothingLost(ss, es, i - 1);
      assert Enabled(ss[i - 1], es[i - 1]) && ss[i] == Step(ss[i - 1], es[i - 1]);
      StartedStep(ss[i - 1], es[i - 1], t);
    }
  }
}
