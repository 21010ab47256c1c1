/**
 * The project orchestrator's execution phase. It runs an execution plan in order from
 * a start task:
 *   - a task whose dependencies have not all completed is skipped;
 *   - an executed task goes into the completed list or the failed list;
 *   - a checkpoint is recorded after every task that did not raise;
 *   - a critical task that raises stops the run.
 * The summary's status is "completed" exactly when no task failed.
 *
 * The task executor is a parameter, `Executor`. The architect phases that produce the
 * plan are represented by the plan handed to `DevelopProject`. The checkpoint file is
 * represented by the list of checkpoints written so far.
 */
module ProjectOrchestrator {
  import opened Wrappers

  /** One entry of the execution plan. */
  datatype PlanTask = PlanTask(taskId: string, title: string, dependencies: seq<string>, critical: bool)

  /** What executing one task gives back: a result carrying a status, or an exception. */
  datatype Outcome = Reported(status: string) | Raised(message: string)

  type Executor = PlanTask -> Outcome

  const CompletedStatus := "completed"
  const PartialStatus := "partial"

  /** The checkpoint written after the task at `lastIndex`. */
  datatype Checkpoint = Checkpoint(lastIndex: nat, completed: seq<string>, failed: seq<string>)

  function Ids(tasks: seq<PlanTask>): (r: seq<string>)
    ensures |r| == |tasks| && forall i :: 0 <= i < |r| ==> r[i] == tasks[i].taskId
  {
    if tasks == [] then [] else Ids(tasks[..|tasks| - 1]) + [tasks[|tasks| - 1].taskId]
  }

  /** `_dependencies_met`: every dependency is the id of a completed task. */
  predicate DependenciesMet(task: PlanTask, completed: seq<PlanTask>)
  {
    task.dependencies == [] || forall d :: d in task.dependencies ==> d in Ids(completed)
  }

  /** A task may run exactly when each of its dependencies names a completed task; one without dependencies always may. */
  lemma DependenciesMetIff(task: PlanTask, completed: seq<PlanTask>)
    ensures DependenciesMet(task, completed) <==> forall d :: d in task.dependencies ==> exists t :: t in completed && t.taskId == d
    ensures task.dependencies == [] ==> DependenciesMet(task, completed)
  {
    var completedIds := Ids(completed);
    forall t | t in completed ensures t.taskId in completedIds {
      var i :| 0 <= i < |completed| && completed[i] == t;
      assert completedIds[i] == t.taskId;
    }
  }

  /** The position of the first plan entry at or after `from` with id `id`, or -1. */
  function FindFrom(plan: seq<PlanTask>, id: string, from: nat): (r: int)
    requires from <= |plan|
    ensures -1 <= r < |plan|
    ensures r >= 0 ==> from <= r && plan[r].taskId == id && forall j :: from <= j < r ==> plan[j].taskId != id
    ensures r == -1 ==> forall j :: from <= j < |plan| ==> plan[j].taskId != id
    decreases |plan| - from
  {
    if from == |plan| then -1
    else if plan[from].taskId == id then from
    else FindFrom(plan, id, from + 1)
  }

  /**
   * Where the run starts: at the first task whose id is `startFrom`, and at the first
   * task when `startFrom` is absent, empty or not in the plan.
   */
  function StartIndex(plan: seq<PlanTask>, startFrom: Option<string>): (r: nat)
    ensures r == 0 || r < |plan|
    ensures startFrom.Some? && startFrom.value != [] && (exists j :: 0 <= j < |plan| && plan[j].taskId == startFrom.value) ==>
      plan[r].taskId == startFrom.value && forall j :: 0 <= j < r ==> plan[j].taskId != startFrom.value
    ensures startFrom.None? || startFrom.value == [] || (forall j :: 0 <= j < |plan| ==> plan[j].taskId != startFrom.value) ==> r == 0
  {
    if startFrom.None? || startFrom.value == [] then 0
    else
      var i := FindFrom(plan, startFrom.value, 0);
      if i < 0 then 0 else i
  }

  // ---------------------------------------------------------------------------------
  // The run, as a function of the plan and what executing each task gives
  // ---------------------------------------------------------------------------------

  /** The lists the run builds, and whether a critical failure has stopped it. */
  datatype Progress = Progress(completed: seq<PlanTask>, failed: seq<PlanTask>, checkpoints: seq<Checkpoint>, stopped: bool)

  /** Whether the run executes `task` when it reaches it. */
  predicate Executes(p: Progress, task: PlanTask)
  {
    !p.stopped && DependenciesMet(task, p.completed)
  }

  /** The progress after reaching the plan entry at index `i`. */
  function Step(p: Progress, i: nat, task: PlanTask, run: Executor): Progress
  {
    if !Executes(p, task) then p
    else match run(task)
      case Reported(status) =>
        var q := if status == CompletedStatus then p.(completed := p.completed + [task]) else p.(failed := p.failed + [task]);
        q.(checkpoints := q.checkpoints + [Checkpoint(i, Ids(q.completed), Ids(q.failed))])
      case Raised(_) =>
        p.(failed := p.failed + [task], stopped := task.critical)
  }

  /**
   * Reaching a task: a skipped task changes nothing; an executed one joins exactly one of
   * the two lists, the completed one exactly when its status is "completed"; a checkpoint
   * of both lists follows unless it raised, and a raise stops the run exactly when the
   * task is critical.
   */
  lemma StepEffect(p: Progress, i: nat, task: PlanTask, run: Executor)
    ensures var r := Step(p, i, task, run);
      (!Executes(p, task) ==> r == p) &&
      (Executes(p, task) ==>
        ((r.completed == p.completed + [task] && r.failed == p.failed) || (r.completed == p.completed && r.failed == p.failed + [task])) &&
        (r.completed != p.completed <==> run(task) == Reported(CompletedStatus)) &&
        (run(task).Reported? ==> r.checkpoints == p.checkpoints + [Checkpoint(i, Ids(r.completed), Ids(r.failed))] && !r.stopped) &&
        (run(task).Raised? ==> r.checkpoints == p.checkpoints && (r.stopped <==> task.critical)))
  {
  }

  /** The progress after reaching the plan entries `lo` up to `hi` (exclusive), from `p`. */
  function Ran(plan: seq<PlanTask>, lo: nat, hi: nat, p: Progress, run: Executor): Progress
    requires lo <= hi <= |plan|
    decreases hi - lo
  {
    if hi == lo then p else Step(Ran(plan, lo, hi - 1, p, run), hi - 1, plan[hi - 1], run)
  }

  /** Once a critical task has raised, nothing further happens. */
  lemma {:induction false} StoppedStays(plan: seq<PlanTask>, lo: nat, k: nat, hi: nat, p: Progress, run: Executor)
    requires lo <= k <= hi <= |plan|
    requires Ran(plan, lo, k, p, run).stopped
    ensures Ran(plan, lo, hi, p, run) == Ran(plan, lo, k, p, run)
    decreases hi - k
  {
    if hi > k {
      StoppedStays(plan, lo, k, hi - 1, p, run);
    }
  }

  /** The run stops only because a critical task raised, and that task is the last failed one. */
  lemma {:induction false} StopIsCritical(plan: seq<PlanTask>, lo: nat, hi: nat, p: Progress, run: Executor)
    requires lo <= hi <= |plan|
    requires !p.stopped
    ensures var r := Ran(plan, lo, hi, p, run);
      r.stopped ==> |r.failed| > 0 && r.failed[|r.failed| - 1].critical && run(r.failed[|r.failed| - 1]).Raised?
    decreases hi - lo
  {
    if hi > lo {
      StopIsCritical(plan, lo, hi - 1, p, run);
    }
  }

  /**
   * The run only appends: what was completed, failed or checkpointed before stays, and
   * each entry it reaches is added at most once, to one of the two lists.
   */
  lemma {:induction false} RunAppends(plan: seq<PlanTask>, lo: nat, hi: nat, p: Progress, run: Executor)
    requires lo <= hi <= |plan|
    ensures var r := Ran(plan, lo, hi, p, run);
      p.completed <= r.completed && p.failed <= r.failed && p.checkpoints <= r.checkpoints &&
      |r.completed| - |p.completed| + |r.failed| - |p.failed| <= hi - lo
    decreases hi - lo
  {
    if hi > lo {
      RunAppends(plan, lo, hi - 1, p, run);
    }
  }

  /** Every task the run adds to either list is a plan entry in the range it ran over. */
  lemma {:induction false} RunAddsFromPlan(plan: seq<PlanTask>, lo: nat, hi: nat, p: Progress, run: Executor)
    requires lo <= hi <= |plan|
    ensures var r := Ran(plan, lo, hi, p, run);
      (forall t :: t in r.completed && t !in p.completed ==> t in plan[lo..hi]) &&
      (forall t :: t in r.failed && t !in p.failed ==> t in plan[lo..hi])
    decreases hi - lo
  {
    if hi > lo {
      RunAddsFromPlan(plan, lo, hi - 1, p, run);
      assert plan[lo..hi] == plan[lo..hi - 1] + [plan[hi - 1]];
    }
  }

  /** Every completed task's dependencies were completed before it. */
  predicate CompletedInOrder(completed: seq<PlanTask>)
  {
    forall k :: 0 <= k < |completed| ==> DependenciesMet(completed[k], completed[..k])
  }

  /** The run never completes a task before its dependencies. */
  lemma {:induction false} RunKeepsOrder(plan: seq<PlanTask>, lo: nat, hi: nat, p: Progress, run: Executor)
    requires lo <= hi <= |plan|
    requires CompletedInOrder(p.completed)
    ensures CompletedInOrder(Ran(plan, lo, hi, p, run).completed)
    decreases hi - lo
  {
    if hi > lo {
      RunKeepsOrder(plan, lo, hi - 1, p, run);
      var q := Ran(plan, lo, hi - 1, p, run);
      var task := plan[hi - 1];
      StepEffect(q, hi - 1, task, run);
      var r := Step(q, hi - 1, task, run);
      if r.completed != q.completed {
        InOrderSnoc(q.completed, task);
      }
    }
  }

  /** A task whose dependencies are all completed may be completed next. */
  lemma InOrderSnoc(completed: seq<PlanTask>, task: PlanTask)
    requires CompletedInOrder(completed) && DependenciesMet(task, completed)
    ensures CompletedInOrder(completed + [task])
  {
    var c := completed + [task];
    forall k | 0 <= k < |c| ensures DependenciesMet(c[k], c[..k]) {
      if k < |completed| {
        assert c[k] == completed[k] && c[..k] == completed[..k];
      } else {
        assert c[..k] == completed;
      }
    }
  }

  /**
   * Resuming in a fresh orchestrator, with nothing completed yet, the start task runs
   * exactly when it has no dependencies at all.
   */
  lemma ResumedStartRunsOnlyWithoutDependencies(plan: seq<PlanTask>, s: nat, run: Executor)
    requires s < |plan|
    ensures var r := Ran(plan, s, s + 1, Progress([], [], [], false), run);
      r != Progress([], [], [], false) <==> plan[s].dependencies == []
  {
    var p := Progress([], [], [], false);
    var r := Ran(plan, s, s + 1, p, run);
    assert Ran(plan, s, s, p, run) == p;
    assert r == Step(p, s, plan[s], run);
    if plan[s].dependencies != [] {
      var d := plan[s].dependencies[0];
      assert d in plan[s].dependencies;
      assert !DependenciesMet(plan[s], []);
    }
  }

  // ---------------------------------------------------------------------------------
  // The summary
  // ---------------------------------------------------------------------------------

  datatype Summary = Summary(status: string, totalTasks: nat, completedTasks: nat, failedTasks: nat, failedTaskIds: seq<string>)

  /** The summary after the run: "completed" with no failed task, "partial" otherwise. */
  function SummaryOf(plan: seq<PlanTask>, completed: seq<PlanTask>, failed: seq<PlanTask>): (s: Summary)
    ensures s.status == CompletedStatus <==> failed == []
    ensures s.status == CompletedStatus || s.status == PartialStatus
    ensures s.totalTasks == |plan| && s.completedTasks == |completed| && s.failedTasks == |failed|
    ensures |s.failedTaskIds| == |failed| && forall i :: 0 <= i < |failed| ==> s.failedTaskIds[i] == failed[i].taskId
  {
    Summary(if failed == [] then CompletedStatus else PartialStatus, |plan|, |completed|, |failed|, Ids(failed))
  }

  // ---------------------------------------------------------------------------------
  // The orchestrator
  // ---------------------------------------------------------------------------------

  class Orchestrator {
    var plan: seq<PlanTask>
    var completedTasks: seq<PlanTask>
    var failedTasks: seq<PlanTask>
    /** The checkpoints written so far; the file keeps only the last one. */
    var checkpoints: seq<Checkpoint>

    constructor ()
      ensures plan == [] && completedTasks == [] && failedTasks == [] && checkpoints == []
    {
      plan := [];
      completedTasks := [];
      failedTasks := [];
      checkpoints := [];
    }

    function Current(): Progress
      reads this
    {
      Progress(completedTasks, failedTasks, checkpoints, false)
    }

    /** `_execute_tasks`: the run from the start task to the end of the plan, or to a critical failure. */
    method ExecuteTasks(startFrom: Option<string>, run: Executor)
      modifies this
      ensures plan == old(plan)
      ensures var r := Ran(plan, StartIndex(plan, startFrom), |plan|, old(Current()), run);
        completedTasks == r.completed && failedTasks == r.failed && checkpoints == r.checkpoints
    {
      var start := FindStart(startFrom);
      RunFrom(start, run);
    }

    /** The loop of `_execute_tasks`, from the entry at `start` on. */
    method RunFrom(start: nat, run: Executor)
      requires start <= |plan|
      modifies this
      ensures plan == old(plan)
      ensures var r := Ran(plan, start, |plan|, old(Current()), run);
        completedTasks == r.completed && failedTasks == r.failed && checkpoints == r.checkpoints
    {
      ghost var p0 := Current();
      var i := start;
      while i < |plan|
        invariant start <= i <= |plan| && plan == old(plan)
        invariant Ran(plan, start, i, p0, run) == Current()
      {
        var stopped := Reach(i, run);
        if stopped {
          StoppedStays(plan, start, i + 1, |plan|, p0, run);
          return;
        }
        i := i + 1;
      }
    }

    /** The search for the start task. */
    method FindStart(startFrom: Option<string>) returns (start: nat)
      ensures start == StartIndex(plan, startFrom)
    {
      start := 0;
      if startFrom.Some? && startFrom.value != [] {
        var j := 0;
        while j < |plan|
          invariant 0 <= j <= |plan|
          invariant FindFrom(plan, startFrom.value, 0) == FindFrom(plan, startFrom.value, j)
        {
          if plan[j].taskId == startFrom.value {
            start := j;
            break;
          }
          j := j + 1;
        }
      }
    }

    /** Reaching the plan entry at index `i`: skipped, or executed and recorded. */
    method Reach(i: nat, run: Executor) returns (stopped: bool)
      requires i < |plan|
      modifies this
      ensures plan == old(plan)
      ensures Current().(stopped := stopped) == Step(old(Current()), i, plan[i], run)
    {
      stopped := false;
      var task := plan[i];
      if DependenciesMet(task, completedTasks) {
        match run(task)
        case Reported(status) =>
          if status == CompletedStatus {
            completedTasks := completedTasks + [task];
          } else {
            failedTasks := failedTasks + [task];
          }
          checkpoints := checkpoints + [Checkpoint(i, Ids(completedTasks), Ids(failedTasks))];
        case Raised(_) =>
          failedTasks := failedTasks + [task];
          stopped := task.critical;
      }
    }

    /**
     * `develop_project` from the execution phase on: the plan the architect produced (or
     * the saved one, when resuming) is run and summarised.
     */
    method DevelopProject(newPlan: seq<PlanTask>, startFrom: Option<string>, run: Executor) returns (summary: Summary)
      modifies this
      ensures plan == newPlan
      ensures var r := Ran(newPlan, StartIndex(newPlan, startFrom), |newPlan|, old(Current()), run);
        completedTasks == r.completed && failedTasks == r.failed && checkpoints == r.checkpoints
      ensures summary == SummaryOf(newPlan, completedTasks, failedTasks)
    {
      plan := newPlan;
      ExecuteTasks(startFrom, run);
      summary := SummaryOf(plan, completedTasks, failedTasks);
    }
  }
}
