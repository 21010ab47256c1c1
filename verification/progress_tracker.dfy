/**
 * The progress tracker: a per-task status record keyed by task id, the status counts
 * recomputed after every transition, and the progress summary with its elapsed time
 * and estimate. Clock readings are passed in as `now`.
 */
module ProgressTracker {
  import opened Wrappers
  import opened Strings
  import opened Lists
  import opened Values

  datatype Status = Pending | Running | Completed | Failed | Skipped | Retrying

  /** A task as the caller hands it over: every field may be absent. */
  datatype TaskSpec = TaskSpec(
    id: Option<string>,
    title: Option<string>,
    kind: Option<string>,
    priority: Option<string>,
    estimatedSteps: Option<int>)

  /** The record kept for one task. */
  datatype Tracked = Tracked(
    id: string,
    title: string,
    kind: string,
    priority: string,
    status: Status,
    progress: int,
    startTime: Option<real>,
    endTime: Option<real>,
    duration: Option<real>,
    error: Option<string>,
    retryCount: nat,
    currentStep: Option<string>,
    stepsCompleted: nat,
    totalSteps: int,
    result: Option<Value>)

  /** The status counts. */
  datatype Metrics = Metrics(
    totalTasks: nat,
    completed: nat,
    failed: nat,
    skipped: nat,
    retrying: nat,
    running: nat,
    pending: nat)

  // ---------------------------------------------------------------------------------
  // Time arithmetic
  // ---------------------------------------------------------------------------------

  /** Python `int(x)` on a float: truncation toward zero. */
  function Trunc(x: real): (r: int)
    ensures x >= 0.0 ==> r == x.Floor
    ensures x < 0.0 ==> r == -((-x).Floor)
  {
    if x >= 0.0 then x.Floor else -((-x).Floor)
  }

  lemma FloorShift(x: real, k: int)
    ensures (x + k as real).Floor == x.Floor + k
  {
  }

  /** Which of the three forms `_format_duration` picks, with its two numbers. */
  datatype Duration = Seconds(s: int) | MinutesSeconds(m: int, s: int) | HoursMinutes(h: int, m: int)

  /**
   * The parts of a duration: under a minute, the truncated seconds; under an hour,
   * whole minutes and the remaining whole seconds; otherwise whole hours and the
   * remaining whole minutes.
   */
  function DurationParts(seconds: real): (r: Duration)
    ensures seconds < 60.0 ==> r == Seconds(Trunc(seconds))
    ensures 60.0 <= seconds < 3600.0 ==>
      r.MinutesSeconds? && 1 <= r.m < 60 && 0 <= r.s < 60 && r.m * 60 + r.s == seconds.Floor
    ensures 3600.0 <= seconds ==>
      r.HoursMinutes? && 1 <= r.h && 0 <= r.m < 60
      && r.h * 3600 + r.m * 60 <= seconds.Floor < r.h * 3600 + (r.m + 1) * 60
  {
    if seconds < 60.0 then Seconds(Trunc(seconds))
    else if seconds < 3600.0 then
      var minutes := (seconds / 60.0).Floor;
      var rest := seconds - 60.0 * minutes as real;
      FloorShift(rest, 60 * minutes);
      MinutesSeconds(Trunc(seconds / 60.0), Trunc(rest))
    else
      var hours := (seconds / 3600.0).Floor;
      var rest := seconds - 3600.0 * hours as real;
      var minutes := Trunc(rest / 60.0);
      FloorShift(rest, 3600 * hours);
      FloorShift(rest - 60.0 * minutes as real, 60 * minutes);
      HoursMinutes(Trunc(seconds / 3600.0), minutes)
  }

  /** `_format_duration`. */
  function FormatDuration(seconds: real): (r: string)
    ensures |r| >= 2
    ensures seconds < 3600.0 ==> r[|r| - 1] == 's'
    ensures 3600.0 <= seconds ==> r[|r| - 1] == 'm'
  {
    match DurationParts(seconds)
    case Seconds(s) => IntToString(s) + "s"
    case MinutesSeconds(m, s) => IntToString(m) + "m " + IntToString(s) + "s"
    case HoursMinutes(h, m) => IntToString(h) + "h " + IntToString(m) + "m"
  }

  // ---------------------------------------------------------------------------------
  // The task table and its counts
  // ---------------------------------------------------------------------------------

  /** The task dictionary: records by id, and the ids in insertion order. */
  datatype Table = Table(tasks: map<string, Tracked>, order: seq<string>)

  /** The ids listed once each, exactly the keys, and every record filed under its own id. */
  ghost predicate WellKeyed(t: Table)
  {
    && NoDuplicates(t.order)
    && (forall id :: id in t.tasks <==> id in t.order)
    && (forall id :: id in t.tasks ==> t.tasks[id].id == id)
  }

  /** The record `start_execution` creates: pending, nothing done yet. */
  function Fresh(id: string, spec: TaskSpec): (r: Tracked)
    ensures r.id == id && r.status == Pending && r.progress == 0
    ensures r.retryCount == 0 && r.stepsCompleted == 0
    ensures r.startTime == None && r.endTime == None && r.duration == None
  {
    Tracked(id, spec.title.GetOr("Untitled"), spec.kind.GetOr("generic"), spec.priority.GetOr("medium"),
      Pending, 0, None, None, None, None, 0, None, 0, spec.estimatedSteps.GetOr(5), None)
  }

  /** The id a task is filed under: its own, else `task_<number of tasks so far>`. */
  function IdFor(t: Table, spec: TaskSpec): string
  {
    spec.id.GetOr("task_" + NatToString(|t.tasks|))
  }

  /** File one task; a repeated id replaces the earlier record in its original place. */
  function Register(t: Table, spec: TaskSpec): Table
  {
    var id := IdFor(t, spec);
    Table(t.tasks[id := Fresh(id, spec)], if id in t.tasks then t.order else t.order + [id])
  }

  /** The task table after `start_execution(tasks)`. */
  function Initial(specs: seq<TaskSpec>): (r: Table)
  {
    if specs == [] then Table(map[], [])
    else Register(Initial(specs[..|specs| - 1]), specs[|specs| - 1])
  }

  lemma RegisterKeepsWellKeyed(t: Table, spec: TaskSpec)
    requires WellKeyed(t)
    ensures WellKeyed(Register(t, spec))
  {
  }

  /**
   * After `start_execution`, the table is well keyed, every task is pending with
   * progress 0, and every task that brought its own id is filed under it.
   */
  lemma {:induction false} InitialTable(specs: seq<TaskSpec>)
    ensures WellKeyed(Initial(specs))
    ensures forall id :: id in Initial(specs).tasks ==>
      Initial(specs).tasks[id].status == Pending && Initial(specs).tasks[id].progress == 0
    ensures forall i :: 0 <= i < |specs| && specs[i].id.Some? ==> specs[i].id.value in Initial(specs).tasks
  {
    if specs != [] {
      var init := specs[..|specs| - 1];
      InitialTable(init);
      RegisterKeepsWellKeyed(Initial(init), specs[|specs| - 1]);
      assert forall i :: 0 <= i < |init| ==> init[i] == specs[i];
    }
  }

  /** The statuses of the tasks, in insertion order. */
  function Statuses(t: Table): (r: seq<Status>)
    requires WellKeyed(t)
    ensures |r| == |t.order|
    ensures forall i :: 0 <= i < |r| ==> r[i] == t.tasks[t.order[i]].status
  {
    seq(|t.order|, i requires 0 <= i < |t.order| => t.tasks[t.order[i]].status)
  }

  function Is(s: Status): Status -> bool
  {
    x => x == s
  }

  /** Counting one more status. */
  lemma CountStep(ss: seq<Status>, i: int, st: Status)
    requires 0 <= i < |ss|
    ensures Count(ss[..i + 1], Is(st)) == Count(ss[..i], Is(st)) + (if ss[i] == st then 1 else 0)
  {
    assert ss[..i + 1][..i] == ss[..i];
  }

  /** `_update_metrics`: the total and the number of tasks in each status. */
  function Recount(t: Table): Metrics
    requires WellKeyed(t)
  {
    var ss := Statuses(t);
    Metrics(|t.tasks|, Count(ss, Is(Completed)), Count(ss, Is(Failed)), Count(ss, Is(Skipped)),
      Count(ss, Is(Retrying)), Count(ss, Is(Running)), Count(ss, Is(Pending)))
  }

  lemma {:induction false} StatusCountsSum(ss: seq<Status>)
    ensures Count(ss, Is(Completed)) + Count(ss, Is(Failed)) + Count(ss, Is(Skipped))
      + Count(ss, Is(Retrying)) + Count(ss, Is(Running)) + Count(ss, Is(Pending)) == |ss|
  {
    if ss != [] {
      StatusCountsSum(ss[..|ss| - 1]);
    }
  }

  /** The six status counts add up to the total number of tasks. */
  lemma MetricsAddUp(t: Table)
    requires WellKeyed(t)
    ensures var m := Recount(t);
      m.completed + m.failed + m.skipped + m.retrying + m.running + m.pending == m.totalTasks
  {
    StatusCountsSum(Statuses(t));
    NoDuplicatesCardinality(t.order);
    assert t.tasks.Keys == set x | x in t.order;
  }

  /** Replacing a record by one with the same status leaves the counts as they are. */
  lemma RecountIgnoresOtherFields(t: Table, id: string, rec: Tracked)
    requires WellKeyed(t) && id in t.tasks && rec.id == id && rec.status == t.tasks[id].status
    ensures WellKeyed(Table(t.tasks[id := rec], t.order))
    ensures Recount(Table(t.tasks[id := rec], t.order)) == Recount(t)
  {
    assert Statuses(Table(t.tasks[id := rec], t.order)) == Statuses(t);
  }

  // ---------------------------------------------------------------------------------
  // Transitions of one record
  // ---------------------------------------------------------------------------------

  /** Python truthiness of an optional timestamp. */
  predicate IsSet(t: Option<real>)
  {
    t.Some? && t.value != 0.0
  }

  /** `start_task`: running from `now`, progress back to 0. */
  function Started(t: Tracked, now: real): (r: Tracked)
    ensures r.status == Running && r.startTime == Some(now) && r.progress == 0
    ensures r.id == t.id && r.retryCount == t.retryCount && r.stepsCompleted == t.stepsCompleted
  {
    t.(status := Running, startTime := Some(now), progress := 0)
  }

  /** `update_task_progress`: progress clamped to 0..100; a non-empty step is recorded and counted. */
  function Progressed(t: Tracked, progress: int, step: Option<string>): (r: Tracked)
    ensures 0 <= r.progress <= 100
    ensures 0 <= progress <= 100 ==> r.progress == progress
    ensures progress < 0 ==> r.progress == 0
    ensures progress > 100 ==> r.progress == 100
    ensures r.stepsCompleted == if step.Some? && step.value != "" then t.stepsCompleted + 1 else t.stepsCompleted
    ensures step.Some? && step.value != "" ==> r.currentStep == step
    ensures r.status == t.status && r.id == t.id
  {
    var clamped := if progress > 100 then 100 else if progress < 0 then 0 else progress;
    if step.Some? && step.value != "" then
      t.(progress := clamped, currentStep := step, stepsCompleted := t.stepsCompleted + 1)
    else
      t.(progress := clamped)
  }

  /** The duration at `end`: measured from the start when the task had started, else as it was. */
  function Measured(t: Tracked, end: real): (r: Option<real>)
    ensures IsSet(t.startTime) ==> r == Some(end - t.startTime.value)
    ensures !IsSet(t.startTime) ==> r == t.duration
  {
    if IsSet(t.startTime) then Some(end - t.startTime.value) else t.duration
  }

  /** `complete_task`: completed at `now` with progress 100; a truthy result is stored. */
  function Finished(t: Tracked, now: real, result: Option<Value>): (r: Tracked)
    ensures r.status == Completed && r.progress == 100 && r.endTime == Some(now)
    ensures r.duration == Measured(t, now)
    ensures r.result == if result.Some? && Truthy(result.value) then result else t.result
    ensures r.id == t.id && r.retryCount == t.retryCount
  {
    var done := t.(status := Completed, endTime := Some(now), progress := 100, duration := Measured(t, now));
    if result.Some? && Truthy(result.value) then done.(result := result) else done
  }

  /** `fail_task`: failed at `now` with the error recorded; progress is left as it was. */
  function FailedWith(t: Tracked, error: string, now: real): (r: Tracked)
    ensures r.status == Failed && r.error == Some(error) && r.endTime == Some(now)
    ensures r.duration == Measured(t, now) && r.progress == t.progress
    ensures r.id == t.id && r.retryCount == t.retryCount
  {
    t.(status := Failed, endTime := Some(now), error := Some(error), duration := Measured(t, now))
  }

  /** `retry_task`: retrying, one more retry counted. */
  function Retried(t: Tracked): (r: Tracked)
    ensures r.status == Retrying && r.retryCount == t.retryCount + 1
    ensures r.id == t.id && r.progress == t.progress
  {
    t.(status := Retrying, retryCount := t.retryCount + 1)
  }

  /** `skip_task`: skipped at `now`, the reason kept as the error; no duration is taken. */
  function SkippedFor(t: Tracked, reason: string, now: real): (r: Tracked)
    ensures r.status == Skipped && r.error == Some(reason) && r.endTime == Some(now)
    ensures r.duration == t.duration && r.id == t.id
  {
    t.(status := Skipped, endTime := Some(now), error := Some(reason))
  }

  // ---------------------------------------------------------------------------------
  // The progress summary
  // ---------------------------------------------------------------------------------

  /** A length of time as `get_progress` reports it: whole seconds and the formatted text. */
  datatype Span = Span(seconds: int, formatted: string)

  function SpanOf(x: real): Span
  {
    Span(Trunc(x), FormatDuration(x))
  }

  datatype Progress = Progress(
    executionId: Option<string>,
    overallProgress: int,
    metrics: Metrics,
    elapsed: Option<Span>,
    eta: Option<Span>,
    isComplete: bool)

  /** The percentage of tasks completed, rounded down; 0 with no tasks. */
  function OverallProgress(m: Metrics): (r: int)
    ensures m.totalTasks == 0 ==> r == 0
    ensures m.completed <= m.totalTasks ==> 0 <= r <= 100
    ensures m.totalTasks > 0 ==> r * m.totalTasks <= m.completed * 100 < (r + 1) * m.totalTasks
  {
    if m.totalTasks > 0 then (m.completed * 100) / m.totalTasks else 0
  }

  /** The time still needed at the average pace so far; only once a task has completed. */
  function Estimate(m: Metrics, startTime: Option<real>, now: real): (r: Option<real>)
    ensures r.Some? <==> IsSet(startTime) && m.completed > 0
    ensures r.Some? ==> r.value * m.completed as real == (now - startTime.value) * (m.totalTasks - m.completed) as real
  {
    if IsSet(startTime) && m.completed > 0 then
      Some((now - startTime.value) / m.completed as real * (m.totalTasks - m.completed) as real)
    else None
  }

  // ---------------------------------------------------------------------------------
  // The tracker
  // ---------------------------------------------------------------------------------

  class Tracker {
    var tasks: map<string, Tracked>
    var order: seq<string>
    var executionId: Option<string>
    var startTime: Option<real>
    var endTime: Option<real>
    var metrics: Metrics

    /** The task table is well keyed and the counts match it. */
    ghost predicate Valid()
      reads this
    {
      WellKeyed(Table(tasks, order)) && metrics == Recount(Table(tasks, order))
    }

    constructor ()
      ensures Valid()
      ensures tasks == map[] && order == [] && executionId == None && startTime == None && endTime == None
    {
      tasks := map[];
      order := [];
      executionId := None;
      startTime := None;
      endTime := None;
      metrics := Metrics(0, 0, 0, 0, 0, 0, 0);
      new;
      assert Statuses(Table(tasks, order)) == [];
    }

    /** `_update_metrics`: count the tasks by status, in one pass. */
    method UpdateMetrics()
      requires WellKeyed(Table(tasks, order))
      modifies this
      ensures tasks == old(tasks) && order == old(order)
      ensures executionId == old(executionId) && startTime == old(startTime) && endTime == old(endTime)
      ensures metrics == Recount(Table(tasks, order))
      ensures Valid()
    {
      var ss := Statuses(Table(tasks, order));
      var completed, failed, skipped, retrying, running, pending := 0, 0, 0, 0, 0, 0;
      var i := 0;
      while i < |ss|
        invariant i <= |ss|
        invariant unchanged(this)
        invariant completed == Count(ss[..i], Is(Completed)) && failed == Count(ss[..i], Is(Failed))
        invariant skipped == Count(ss[..i], Is(Skipped)) && retrying == Count(ss[..i], Is(Retrying))
        invariant running == Count(ss[..i], Is(Running)) && pending == Count(ss[..i], Is(Pending))
      {
        CountStep(ss, i, Completed);
        CountStep(ss, i, Failed);
        CountStep(ss, i, Skipped);
        CountStep(ss, i, Retrying);
        CountStep(ss, i, Running);
        CountStep(ss, i, Pending);
        match ss[i] {
          case Completed => completed := completed + 1;
          case Failed => failed := failed + 1;
          case Skipped => skipped := skipped + 1;
          case Retrying => retrying := retrying + 1;
          case Running => running := running + 1;
          case Pending => pending := pending + 1;
        }
        i := i + 1;
      }
      assert ss[..i] == ss;
      metrics := Metrics(|tasks|, completed, failed, skipped, retrying, running, pending);
    }

    /** `start_execution`: a new execution over `specs`, every task pending. */
    method StartExecution(id: string, specs: seq<TaskSpec>, now: real)
      modifies this
      ensures Table(tasks, order) == Initial(specs)
      ensures executionId == Some(id) && startTime == Some(now) && endTime == None
      ensures Valid()
    {
      executionId := Some(id);
      startTime := Some(now);
      endTime := None;
      Populate(specs);
      InitialTable(specs);
      UpdateMetrics();
    }

    /** The loop of `start_execution`: file every task, in order, into an empty table. */
    method Populate(specs: seq<TaskSpec>)
      modifies this
      ensures Table(tasks, order) == Initial(specs)
      ensures executionId == old(executionId) && startTime == old(startTime) && endTime == old(endTime)
    {
      tasks := map[];
      order := [];
      var i := 0;
      while i < |specs|
        invariant i <= |specs|
        invariant Table(tasks, order) == Initial(specs[..i])
        invariant executionId == old(executionId) && startTime == old(startTime) && endTime == old(endTime)
      {
        assert specs[..i + 1][..i] == specs[..i];
        var taskId := IdFor(Table(tasks, order), specs[i]);
        if taskId !in tasks {
          order := order + [taskId];
        }
        tasks := tasks[taskId := Fresh(taskId, specs[i])];
        i := i + 1;
      }
      assert specs[..i] == specs;
    }

    /** Replace the record of `id` by `rec`, which keeps the id, and recount. */
    method Put(id: string, rec: Tracked)
      requires Valid() && id in tasks && rec.id == id
      modifies this
      ensures tasks == old(tasks)[id := rec] && order == old(order)
      ensures executionId == old(executionId) && startTime == old(startTime) && endTime == old(endTime)
      ensures Valid()
    {
      tasks := tasks[id := rec];
      UpdateMetrics();
    }

    /** `start_task`; an unknown id changes nothing. */
    method StartTask(id: string, now: real)
      requires Valid()
      modifies this
      ensures tasks == if id in old(tasks) then old(tasks)[id := Started(old(tasks)[id], now)] else old(tasks)
      ensures order == old(order) && executionId == old(executionId) && startTime == old(startTime) && endTime == old(endTime)
      ensures Valid()
    {
      if id in tasks {
        Put(id, Started(tasks[id], now));
      }
    }

    /** `update_task_progress`; the counts need no update since no status changes. */
    method UpdateTaskProgress(id: string, progress: int, step: Option<string>)
      requires Valid()
      modifies this
      ensures tasks == if id in old(tasks) then old(tasks)[id := Progressed(old(tasks)[id], progress, step)] else old(tasks)
      ensures order == old(order) && metrics == old(metrics)
      ensures executionId == old(executionId) && startTime == old(startTime) && endTime == old(endTime)
      ensures Valid()
    {
      if id in tasks {
        RecountIgnoresOtherFields(Table(tasks, order), id, Progressed(tasks[id], progress, step));
        tasks := tasks[id := Progressed(tasks[id], progress, step)];
      }
    }

    /** `update_task`: the compatibility alias, which does nothing without a progress value. */
    method UpdateTask(id: string, progress: Option<int>, step: Option<string>)
      requires Valid()
      modifies this
      ensures tasks ==
        if progress.Some? && id in old(tasks) then old(tasks)[id := Progressed(old(tasks)[id], progress.value, step)]
        else old(tasks)
      ensures order == old(order) && metrics == old(metrics)
      ensures executionId == old(executionId) && startTime == old(startTime) && endTime == old(endTime)
      ensures Valid()
    {
      if progress.Some? {
        UpdateTaskProgress(id, progress.value, step);
      }
    }

    /** `complete_task`; an unknown id changes nothing. */
    method CompleteTask(id: string, now: real, result: Option<Value>)
      requires Valid()
      modifies this
      ensures tasks == if id in old(tasks) then old(tasks)[id := Finished(old(tasks)[id], now, result)] else old(tasks)
      ensures order == old(order) && executionId == old(executionId) && startTime == old(startTime) && endTime == old(endTime)
      ensures Valid()
    {
      if id in tasks {
        Put(id, Finished(tasks[id], now, result));
      }
    }

    /** `fail_task`; an unknown id changes nothing. */
    method FailTask(id: string, error: string, now: real)
      requires Valid()
      modifies this
      ensures tasks == if id in old(tasks) then old(tasks)[id := FailedWith(old(tasks)[id], error, now)] else old(tasks)
      ensures order == old(order) && executionId == old(executionId) && startTime == old(startTime) && endTime == old(endTime)
      ensures Valid()
    {
      if id in tasks {
        Put(id, FailedWith(tasks[id], error, now));
      }
    }

    /** `retry_task`; an unknown id changes nothing. */
    method RetryTask(id: string)
      requires Valid()
      modifies this
      ensures tasks == if id in old(tasks) then old(tasks)[id := Retried(old(tasks)[id])] else old(tasks)
      ensures order == old(order) && executionId == old(executionId) && startTime == old(startTime) && endTime == old(endTime)
      ensures Valid()
    {
      if id in tasks {
        Put(id, Retried(tasks[id]));
      }
    }

    /** `skip_task`; an unknown id changes nothing. */
    method SkipTask(id: string, reason: string, now: real)
      requires Valid()
      modifies this
      ensures tasks == if id in old(tasks) then old(tasks)[id := SkippedFor(old(tasks)[id], reason, now)] else old(tasks)
      ensures order == old(order) && executionId == old(executionId) && startTime == old(startTime) && endTime == old(endTime)
      ensures Valid()
    {
      if id in tasks {
        Put(id, SkippedFor(tasks[id], reason, now));
      }
    }

    /** `end_execution` (and its alias `complete_execution`). */
    method EndExecution(now: real)
      requires Valid()
      modifies this
      ensures endTime == Some(now) && Valid()
      ensures tasks == old(tasks) && order == old(order) && metrics == old(metrics)
      ensures executionId == old(executionId) && startTime == old(startTime)
    {
      endTime := Some(now);
    }

    /** `get_progress` at time `now`. */
    function GetProgress(now: real): (r: Progress)
      reads this
      requires Valid()
      ensures 0 <= r.overallProgress <= 100
      ensures r.metrics == metrics && r.isComplete == endTime.Some?
      ensures r.elapsed.Some? <==> IsSet(startTime)
      ensures r.eta.Some? <==> IsSet(startTime) && metrics.completed > 0
    {
      MetricsAddUp(Table(tasks, order));
      var eta := Estimate(metrics, startTime, now);
      Progress(executionId, OverallProgress(metrics), metrics,
        if IsSet(startTime) then Some(SpanOf((if IsSet(endTime) then endTime.value else now) - startTime.value)) else None,
        if eta.Some? then Some(SpanOf(eta.value)) else None,
        endTime.Some?)
    }

    /** `get_current_task`: the first running task in insertion order. */
    function GetCurrentTask(): (r: Option<Tracked>)
      reads this
      requires Valid()
      ensures r.Some? ==> r.value.status == Running && r.value.id in tasks && tasks[r.value.id] == r.value
      ensures r.None? <==> forall id :: id in tasks ==> tasks[id].status != Running
    {
      var k := FirstRunning(tasks, order);
      if k < 0 then None else Some(tasks[order[k]])
    }
  }

  /** The position of the first task of `ids` that is running, or -1. */
  function FirstRunning(tasks: map<string, Tracked>, ids: seq<string>): (k: int)
    requires forall id :: id in ids ==> id in tasks
    ensures -1 <= k < |ids|
    ensures k >= 0 ==> tasks[ids[k]].status == Running
    ensures forall j :: 0 <= j < |ids| && (k < 0 || j < k) ==> tasks[ids[j]].status != Running
  {
    if ids == [] then -1
    else if tasks[ids[0]].status == Running then 0
    else
      var k := FirstRunning(tasks, ids[1..]);
      if k < 0 then -1 else k + 1
  }
}
