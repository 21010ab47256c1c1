/**
 * The persistent task store: task records keyed by (project id, task id), their
 * lifecycle changes (start, complete, fail with bounded retry), the choice of the next
 * ready task by dependencies and priority, and per-status statistics.
 */
module TaskStateManager {
  import opened Wrappers
  import opened Values
  import opened Strings
  import Lists
  import Sorting

  const Pending := "pending"
  const Running := "running"
  const Completed := "completed"
  const Failed := "failed"
  const Retrying := "retrying"
  const Skipped := "skipped"

  /**
   * One task record. Attributes the store never interprets (branch and PR data, tags,
   * notes, metadata, blocked tasks) are kept together in `other`.
   */
  datatype TaskState = TaskState(
    taskId: string,
    projectId: string,
    title: string,
    description: string,
    taskType: string,
    priority: string,
    status: string,
    progress: real,
    currentStep: string,
    createdAt: real,
    startedAt: Option<real>,
    completedAt: Option<real>,
    estimatedDuration: int,
    result: Value,
    error: Option<string>,
    retryCount: int,
    maxRetries: int,
    dependsOn: seq<string>,
    lastUpdated: real,
    other: map<string, Value>)
  {
    predicate IsComplete() { status == Completed }

    predicate IsFailed() { status == Failed }

    predicate IsRunning() { status == Running }

    predicate CanRetry() { retryCount < maxRetries }

    /** Elapsed time, defined only when both timestamps are set to a non-zero value. */
    function Duration(): (d: Option<real>)
      ensures d.Some? <==> IsSetTime(startedAt) && IsSetTime(completedAt)
      ensures d.Some? ==> completedAt.value == startedAt.value + d.value
    {
      if IsSetTime(startedAt) && IsSetTime(completedAt) then Some(completedAt.value - startedAt.value) else None
    }
  }

  /** A timestamp that Python treats as set: present and non-zero. */
  predicate IsSetTime(t: Option<real>)
  {
    t.Some? && t.value != 0.0
  }

  /** The record `create_task` builds, with the dataclass defaults for every field it does not pass. */
  function NewTask(projectId: string, taskId: string, title: string, description: string,
                   taskType: string, priority: string, estimatedDuration: int,
                   dependsOn: seq<string>, now: real): (t: TaskState)
    ensures t.status == Pending && t.progress == 0.0 && t.retryCount == 0 && t.maxRetries == 3
    ensures t.CanRetry() && !t.IsComplete() && t.Duration().None?
  {
    TaskState(taskId, projectId, title, description, taskType, priority, Pending, 0.0, "",
              now, None, None, estimatedDuration, Null, None, 0, 3, dependsOn, now, map[])
  }

  /**
   * The data attributes of a task record: its dataclass fields, and the optional ones kept
   * in `other`. The record's methods and Python's own attributes, which `hasattr` also
   * finds, are not among them.
   */
  datatype Field =
    | TaskIdField | ProjectIdField | TitleField | DescriptionField | TaskTypeField | PriorityField
    | StatusField | ProgressField | CurrentStepField | CreatedAtField | StartedAtField
    | CompletedAtField | EstimatedDurationField | ResultField | ErrorField | RetryCountField
    | MaxRetriesField | DependsOnField | LastUpdatedField
    | OtherField(name: string)

  /** The attribute a dictionary key names, if any; the uninterpreted ones land in `other`. */
  function FieldNamed(key: string): (f: Option<Field>)
    ensures f == Some(StatusField) ==> key == "status"
    ensures f == Some(TaskIdField) ==> key == "task_id"
    ensures f == Some(ProjectIdField) ==> key == "project_id"
    ensures f == Some(RetryCountField) ==> key == "retry_count"
    ensures f == Some(DependsOnField) ==> key == "depends_on"
  {
    if key == "task_id" then Some(TaskIdField)
    else if key == "project_id" then Some(ProjectIdField)
    else if key == "title" then Some(TitleField)
    else if key == "description" then Some(DescriptionField)
    else if key == "task_type" then Some(TaskTypeField)
    else if key == "priority" then Some(PriorityField)
    else if key == "status" then Some(StatusField)
    else if key == "progress" then Some(ProgressField)
    else if key == "current_step" then Some(CurrentStepField)
    else if key == "created_at" then Some(CreatedAtField)
    else if key == "started_at" then Some(StartedAtField)
    else if key == "completed_at" then Some(CompletedAtField)
    else if key == "estimated_duration" then Some(EstimatedDurationField)
    else if key == "result" then Some(ResultField)
    else if key == "error" then Some(ErrorField)
    else if key == "retry_count" then Some(RetryCountField)
    else if key == "max_retries" then Some(MaxRetriesField)
    else if key == "depends_on" then Some(DependsOnField)
    else if key == "last_updated" then Some(LastUpdatedField)
    else if key in {"branch_name", "pr_url", "pr_number", "commit_sha", "blocks", "tags", "notes", "metadata"} then
      Some(OtherField(key))
    else None
  }

  /** `setattr` on a known attribute, for a value of the kind the attribute holds. */
  function Assign(t: TaskState, f: Field, v: Value): (r: TaskState)
    ensures r.status != t.status ==> f == StatusField
    ensures r.taskId != t.taskId ==> f == TaskIdField
    ensures r.projectId != t.projectId ==> f == ProjectIdField
    ensures r.retryCount != t.retryCount ==> f == RetryCountField
    ensures r.dependsOn != t.dependsOn ==> f == DependsOnField
  {
    match f
    case TaskIdField => if v.Str? then t.(taskId := v.s) else t
    case ProjectIdField => if v.Str? then t.(projectId := v.s) else t
    case TitleField => if v.Str? then t.(title := v.s) else t
    case DescriptionField => if v.Str? then t.(description := v.s) else t
    case TaskTypeField => if v.Str? then t.(taskType := v.s) else t
    case PriorityField => if v.Str? then t.(priority := v.s) else t
    case StatusField => if v.Str? then t.(status := v.s) else t
    case ProgressField => if AsReal(v).Some? then t.(progress := AsReal(v).value) else t
    case CurrentStepField => if v.Str? then t.(currentStep := v.s) else t
    case CreatedAtField => if AsReal(v).Some? then t.(createdAt := AsReal(v).value) else t
    case StartedAtField => if AsOptionalReal(v).Some? then t.(startedAt := AsOptionalReal(v).value) else t
    case CompletedAtField => if AsOptionalReal(v).Some? then t.(completedAt := AsOptionalReal(v).value) else t
    case EstimatedDurationField => if v.Int? then t.(estimatedDuration := v.i) else t
    case ResultField => t.(result := v)
    case ErrorField => if AsOptionalString(v).Some? then t.(error := AsOptionalString(v).value) else t
    case RetryCountField => if v.Int? then t.(retryCount := v.i) else t
    case MaxRetriesField => if v.Int? then t.(maxRetries := v.i) else t
    case DependsOnField => if v.StrList? then t.(dependsOn := v.items) else t
    case LastUpdatedField => if AsReal(v).Some? then t.(lastUpdated := AsReal(v).value) else t
    case OtherField(name) => t.(other := t.other[name := v])
  }

  /** `if hasattr(task, key): setattr(task, key, value)`. */
  function SetAttribute(t: TaskState, key: string, v: Value): (r: TaskState)
    ensures FieldNamed(key).None? ==> r == t
    ensures r.status != t.status ==> key == "status"
    ensures r.taskId != t.taskId ==> key == "task_id"
    ensures r.retryCount != t.retryCount ==> key == "retry_count"
    ensures r.dependsOn != t.dependsOn ==> key == "depends_on"
  {
    match FieldNamed(key)
    case None => t
    case Some(f) => Assign(t, f, v)
  }

  /** The updates applied one after another, in dictionary order. */
  function ApplyUpdates(t: TaskState, updates: seq<(string, Value)>): TaskState
  {
    if updates == [] then t
    else
      var last := updates[|updates| - 1];
      SetAttribute(ApplyUpdates(t, updates[..|updates| - 1]), last.0, last.1)
  }

  predicate IsAttribute(u: (string, Value))
  {
    FieldNamed(u.0).Some?
  }

  lemma ApplyUpdatesSnoc(t: TaskState, updates: seq<(string, Value)>, u: (string, Value))
    ensures ApplyUpdates(t, updates + [u]) == SetAttribute(ApplyUpdates(t, updates), u.0, u.1)
  {
    assert (updates + [u])[..|updates|] == updates;
  }

  /** Keys that are not attributes of a task are skipped: only the known ones take effect. */
  lemma {:induction false} UnknownKeysIgnored(t: TaskState, updates: seq<(string, Value)>)
    ensures ApplyUpdates(t, updates) == ApplyUpdates(t, Lists.Where(updates, IsAttribute))
  {
    if updates != [] {
      var init, last := updates[..|updates| - 1], updates[|updates| - 1];
      assert updates == init + [last];
      UnknownKeysIgnored(t, init);
      ApplyUpdatesSnoc(t, init, last);
      var w := Lists.Where(init, IsAttribute);
      if IsAttribute(last) {
        assert Lists.Where(updates, IsAttribute) == w + [last];
        ApplyUpdatesSnoc(t, w, last);
      } else {
        assert Lists.Where(updates, IsAttribute) == w;
      }
    }
  }

  lemma FieldNamesOfLifecycleKeys()
    ensures FieldNamed("status") == Some(StatusField)
    ensures FieldNamed("started_at") == Some(StartedAtField)
    ensures FieldNamed("completed_at") == Some(CompletedAtField)
    ensures FieldNamed("progress") == Some(ProgressField)
    ensures FieldNamed("result") == Some(ResultField)
    ensures FieldNamed("error") == Some(ErrorField)
    ensures FieldNamed("retry_count") == Some(RetryCountField)
  {
  }

  lemma SetStatus(t: TaskState, v: string)
    ensures SetAttribute(t, "status", Str(v)) == t.(status := v)
  {
    FieldNamesOfLifecycleKeys();
  }

  lemma SetStartedAt(t: TaskState, v: real)
    ensures SetAttribute(t, "started_at", Real(v)) == t.(startedAt := Some(v))
  {
    FieldNamesOfLifecycleKeys();
  }

  lemma SetCompletedAt(t: TaskState, v: real)
    ensures SetAttribute(t, "completed_at", Real(v)) == t.(completedAt := Some(v))
  {
    FieldNamesOfLifecycleKeys();
  }

  lemma SetProgress(t: TaskState, v: real)
    ensures SetAttribute(t, "progress", Real(v)) == t.(progress := v)
  {
    FieldNamesOfLifecycleKeys();
  }

  lemma SetResult(t: TaskState, v: Value)
    ensures SetAttribute(t, "result", v) == t.(result := v)
  {
    FieldNamesOfLifecycleKeys();
  }

  lemma SetError(t: TaskState, v: string)
    ensures SetAttribute(t, "error", Str(v)) == t.(error := Some(v))
  {
    FieldNamesOfLifecycleKeys();
  }

  lemma SetRetryCount(t: TaskState, v: int)
    ensures SetAttribute(t, "retry_count", Int(v)) == t.(retryCount := v)
  {
    FieldNamesOfLifecycleKeys();
  }

  /** The update `start_task` sends. */
  lemma StartUpdates(t: TaskState, now: real)
    ensures ApplyUpdates(t, [("status", Str(Running)), ("started_at", Real(now))])
         == t.(status := Running, startedAt := Some(now))
  {
    var a, b := ("status", Str(Running)), ("started_at", Real(now));
    assert [a, b] == [a] + [b];
    assert [a] == [] + [a];
    ApplyUpdatesSnoc(t, [], a);
    SetStatus(t, Running);
    ApplyUpdatesSnoc(t, [a], b);
    SetStartedAt(t.(status := Running), now);
  }

  /** The update `complete_task` sends. */
  lemma CompleteUpdates(t: TaskState, result: Value, now: real)
    ensures ApplyUpdates(t, [("status", Str(Completed)), ("completed_at", Real(now)), ("progress", Real(100.0)), ("result", result)])
         == t.(status := Completed, completedAt := Some(now), progress := 100.0, result := result)
  {
    var a, b, c, d := ("status", Str(Completed)), ("completed_at", Real(now)), ("progress", Real(100.0)), ("result", result);
    assert [a] == [] + [a];
    assert [a, b] == [a] + [b];
    assert [a, b, c] == [a, b] + [c];
    assert [a, b, c, d] == [a, b, c] + [d];
    ApplyUpdatesSnoc(t, [], a);
    SetStatus(t, Completed);
    var t1 := t.(status := Completed);
    ApplyUpdatesSnoc(t, [a], b);
    SetCompletedAt(t1, now);
    var t2 := t1.(completedAt := Some(now));
    ApplyUpdatesSnoc(t, [a, b], c);
    SetProgress(t2, 100.0);
    var t3 := t2.(progress := 100.0);
    ApplyUpdatesSnoc(t, [a, b, c], d);
    SetResult(t3, result);
  }

  /** The update `fail_task` sends. */
  lemma FailUpdates(t: TaskState, status: string, error: string, count: int)
    ensures ApplyUpdates(t, [("status", Str(status)), ("error", Str(error)), ("retry_count", Int(count))])
         == t.(status := status, error := Some(error), retryCount := count)
  {
    var a, b, c := ("status", Str(status)), ("error", Str(error)), ("retry_count", Int(count));
    assert [a] == [] + [a];
    assert [a, b] == [a] + [b];
    assert [a, b, c] == [a, b] + [c];
    ApplyUpdatesSnoc(t, [], a);
    SetStatus(t, status);
    var t1 := t.(status := status);
    ApplyUpdatesSnoc(t, [a], b);
    SetError(t1, error);
    var t2 := t1.(error := Some(error));
    ApplyUpdatesSnoc(t, [a, b], c);
    SetRetryCount(t2, count);
  }

  /** An update list that does not name `status` leaves the status as it was. */
  lemma {:induction false} StatusUntouched(t: TaskState, updates: seq<(string, Value)>)
    requires forall i :: 0 <= i < |updates| ==> updates[i].0 != "status"
    ensures ApplyUpdates(t, updates).status == t.status
  {
    if updates != [] {
      StatusUntouched(t, updates[..|updates| - 1]);
    }
  }

  /**
   * What `fail_task` does to a record: one more retry is counted, and the task is
   * `retrying` while retries remain, `failed` once they are used up.
   */
  function AfterFailure(t: TaskState, error: string): (r: TaskState)
    ensures r.retryCount == t.retryCount + 1
    ensures r.status == Retrying <==> r.CanRetry()
    ensures r.status == Failed <==> !r.CanRetry()
    ensures r.error == Some(error)
    ensures r.(status := t.status, error := t.error, retryCount := t.retryCount) == t
  {
    var n := t.retryCount + 1;
    t.(retryCount := n, status := if n < t.maxRetries then Retrying else Failed, error := Some(error))
  }

  /** `k` failures in a row. */
  function FailTimes(t: TaskState, error: string, k: nat): TaskState
  {
    if k == 0 then t else AfterFailure(FailTimes(t, error, k - 1), error)
  }

  /**
   * With the default limit of three retries, a new task survives two failures as
   * `retrying`, and the third failure is terminal.
   */
  lemma {:induction false} ThirdFailureIsTerminal(t: TaskState, error: string, k: nat)
    requires t.retryCount == 0 && t.maxRetries == 3 && 1 <= k
    ensures FailTimes(t, error, k).retryCount == k
    ensures FailTimes(t, error, k).maxRetries == 3
    ensures FailTimes(t, error, k).status == (if k < 3 then Retrying else Failed)
  {
    if k > 1 {
      ThirdFailureIsTerminal(t, error, k - 1);
    }
  }

  // ---------------------------------------------------------------------------
  // Choosing the next task

  /** `priority_order.get(priority, 999)`. */
  function PriorityRank(priority: string): (r: int)
    ensures 0 <= r
  {
    if priority == "critical" then 0
    else if priority == "high" then 1
    else if priority == "medium" then 2
    else if priority == "low" then 3
    else 999
  }

  function TaskRank(t: TaskState): real
  {
    PriorityRank(t.priority) as real
  }

  predicate IsAvailable(t: TaskState)
  {
    t.status == Pending || t.status == Retrying
  }

  /** The ids of the completed tasks. */
  function CompletedIds(tasks: seq<TaskState>): set<string>
  {
    set t | t in tasks && t.IsComplete() :: t.taskId
  }

  predicate DependenciesMet(t: TaskState, done: set<string>)
  {
    forall d :: d in t.dependsOn ==> d in done
  }

  /** The available tasks whose every dependency is a completed task, in listing order. */
  function ReadyTasks(tasks: seq<TaskState>): seq<TaskState>
  {
    var done := CompletedIds(tasks);
    Lists.Where(tasks, t => IsAvailable(t) && DependenciesMet(t, done))
  }

  predicate IsReady(t: TaskState, tasks: seq<TaskState>)
  {
    t in tasks && IsAvailable(t) && DependenciesMet(t, CompletedIds(tasks))
  }

  /**
   * `get_next_task` over the tasks in listing order: a ready task of the best priority,
   * the earliest listed among equals; none when no task is ready.
   */
  function NextTask(tasks: seq<TaskState>): (r: Option<TaskState>)
    ensures r.Some? ==> IsReady(r.value, tasks)
    ensures r.None? ==> forall t :: t in tasks ==> !IsReady(t, tasks)
    ensures r.Some? ==> forall t :: IsReady(t, tasks) ==> TaskRank(r.value) <= TaskRank(t)
    ensures r.Some? ==> |Sorting.Filter(ReadyTasks(tasks), TaskRank, TaskRank(r.value))| > 0 &&
                        r.value == Sorting.Filter(ReadyTasks(tasks), TaskRank, TaskRank(r.value))[0]
  {
    var available := Lists.Where(tasks, IsAvailable);
    var ready := ReadyTasks(tasks);
    assert forall t :: IsReady(t, tasks) ==> t in ready by {
      forall t | IsReady(t, tasks) ensures t in ready {
        var i :| 0 <= i < |tasks| && tasks[i] == t;
      }
    }
    if |available| == 0 then
      assert forall t :: t in tasks ==> !IsReady(t, tasks) by {
        forall t | t in tasks ensures !IsReady(t, tasks) {
          var i :| 0 <= i < |tasks| && tasks[i] == t;
        }
      }
      None
    else if |ready| == 0 then
      None
    else
      var sorted := Sorting.SortBy(ready, TaskRank);
      Sorting.SortByHead(ready, TaskRank);
      Sorting.SortByMembers(ready, TaskRank, sorted[0]);
      Some(sorted[0])
  }

  // ---------------------------------------------------------------------------
  // Statistics

  datatype Statistics = Statistics(
    total: int,
    completed: int,
    failed: int,
    running: int,
    pending: int,
    completionPercentage: real,
    averageDuration: real,
    etaSeconds: real)

  predicate HasDuration(t: TaskState)
  {
    t.Duration().Some? && t.Duration().value != 0.0
  }

  function TaskDuration(t: TaskState): real
  {
    if t.Duration().Some? then t.Duration().value else 0.0
  }

  function SumDurations(tasks: seq<TaskState>): real
  {
    if tasks == [] then 0.0
    else SumDurations(tasks[..|tasks| - 1]) + (if HasDuration(tasks[|tasks| - 1]) then TaskDuration(tasks[|tasks| - 1]) else 0.0)
  }

  predicate IsCompleteTask(t: TaskState) { t.IsComplete() }

  predicate IsFailedTask(t: TaskState) { t.IsFailed() }

  predicate IsRunningTask(t: TaskState) { t.IsRunning() }

  predicate IsOtherStatus(t: TaskState)
  {
    !t.IsComplete() && !t.IsFailed() && !t.IsRunning()
  }

  /** Every task has exactly one of: completed, failed, running, or any other status. */
  lemma {:induction false} StatusPartition(tasks: seq<TaskState>)
    ensures Lists.Count(tasks, IsCompleteTask) + Lists.Count(tasks, IsFailedTask)
          + Lists.Count(tasks, IsRunningTask) + Lists.Count(tasks, IsOtherStatus) == |tasks|
  {
    if tasks != [] {
      StatusPartition(tasks[..|tasks| - 1]);
    }
  }

  /** `part / whole * 100` for a part of a non-empty whole lies in [0, 100]. */
  function Percentage(part: nat, whole: nat): (p: real)
    requires part <= whole
    ensures 0.0 <= p <= 100.0
    ensures part == whole && whole > 0 ==> p == 100.0
    ensures whole == 0 ==> p == 0.0
  {
    if whole > 0 then
      var q := part as real / whole as real;
      assert q <= 1.0 by {
        assert q * whole as real == part as real;
      }
      q * 100.0
    else 0.0
  }

  /**
   * `get_statistics`: `pending` is everything neither completed, failed nor running (so
   * retrying and skipped tasks count as pending); the percentage is 0 for no tasks; the
   * ETA is 0 unless there is a positive average duration.
   */
  function GetStatistics(tasks: seq<TaskState>): (s: Statistics)
    ensures s.total == |tasks|
    ensures s.completed + s.failed + s.running + s.pending == s.total
    ensures s.pending == Lists.Count(tasks, IsOtherStatus) && s.pending >= 0
    ensures s.total == 0 ==> s.completionPercentage == 0.0
    ensures 0.0 <= s.completionPercentage <= 100.0
    ensures s.averageDuration <= 0.0 ==> s.etaSeconds == 0.0
    ensures s.etaSeconds >= 0.0
  {
    var total := |tasks|;
    var completed := Lists.Count(tasks, IsCompleteTask);
    var failed := Lists.Count(tasks, IsFailedTask);
    var running := Lists.Count(tasks, IsRunningTask);
    StatusPartition(tasks);
    var pending := total - completed - failed - running;
    var n := Lists.Count(tasks, HasDuration);
    var avg := if n > 0 then SumDurations(tasks) / n as real else 0.0;
    var eta := if avg > 0.0 then (pending + running) as real * avg else 0.0;
    Statistics(total, completed, failed, running, pending, Percentage(completed, total), avg, eta)
  }

  // ---------------------------------------------------------------------------
  // The store

  /**
   * The cache after saving `t`, which was loaded under `key`: the saved object is filed
   * under its own ids, and the entry it was loaded from is that same object.
   */
  function Stored(m: map<(string, string), TaskState>, key: (string, string), t: TaskState): (r: map<(string, string), TaskState>)
    ensures r.Keys == m.Keys + {key, (t.projectId, t.taskId)}
    ensures r[key] == t && r[(t.projectId, t.taskId)] == t
    ensures forall k :: k in m && k != key && k != (t.projectId, t.taskId) ==> r[k] == m[k]
  {
    m[key := t][(t.projectId, t.taskId) := t]
  }

  /**
   * The task store. `tasks` holds every record the store can load, keyed by
   * (project id, task id): the in-memory cache in front of the per-task JSON files.
   */
  class TaskStore {
    var tasks: map<(string, string), TaskState>

    constructor ()
      ensures tasks == map[]
    {
      tasks := map[];
    }

    /** `load_task`. */
    function LoadTask(projectId: string, taskId: string): (r: Option<TaskState>)
      reads this
      ensures r.Some? <==> (projectId, taskId) in tasks
    {
      if (projectId, taskId) in tasks then Some(tasks[(projectId, taskId)]) else None
    }

    /**
     * `load_all_tasks`: the records named by the project directory listing, in listing
     * order. Files not ending in `.json`, and `index.json` itself, are skipped.
     */
    function LoadAllTasks(projectId: string, listing: seq<string>): (r: seq<TaskState>)
      reads this
      ensures |r| <= |listing|
      ensures forall t :: t in r ==> exists k :: k in tasks && k.0 == projectId && tasks[k] == t
    {
      if listing == [] then []
      else
        var rest := LoadAllTasks(projectId, listing[..|listing| - 1]);
        var f := listing[|listing| - 1];
        if EndsWith(f, ".json") && f != "index.json" && (projectId, f[..|f| - 5]) in tasks then
          rest + [tasks[(projectId, f[..|f| - 5])]]
        else rest
    }

    /** `save_task`: stamps the record and stores it under its own ids. */
    method SaveTask(task: TaskState, now: real) returns (saved: TaskState)
      modifies this
      ensures saved == task.(lastUpdated := now)
      ensures tasks == old(tasks)[(task.projectId, task.taskId) := saved]
    {
      saved := task.(lastUpdated := now);
      tasks := tasks[(task.projectId, task.taskId) := saved];
    }

    /** `create_task`: a new pending record, stored (over any record with the same ids). */
    method CreateTask(projectId: string, taskId: string, title: string, description: string,
                      taskType: string, priority: string, estimatedDuration: int,
                      dependsOn: seq<string>, now: real) returns (task: TaskState)
      modifies this
      ensures task == NewTask(projectId, taskId, title, description, taskType, priority, estimatedDuration, dependsOn, now)
      ensures tasks == old(tasks)[(projectId, taskId) := task]
    {
      task := NewTask(projectId, taskId, title, description, taskType, priority, estimatedDuration, dependsOn, now);
      task := SaveTask(task, now);
    }

    /**
     * `update_task`: False for an unknown task; otherwise every key that names an
     * attribute is assigned, in order, and the record is saved. The record stays under
     * its old key as well, since the cache entry is the same object.
     */
    method UpdateTask(projectId: string, taskId: string, updates: seq<(string, Value)>, now: real)
      returns (ok: bool)
      modifies this
      ensures ok <==> (projectId, taskId) in old(tasks)
      ensures !ok ==> tasks == old(tasks)
      ensures ok ==> tasks == Stored(old(tasks), (projectId, taskId),
        ApplyUpdates(old(tasks)[(projectId, taskId)], updates).(lastUpdated := now))
    {
      var found := LoadTask(projectId, taskId);
      if found.None? {
        return false;
      }
      var task := found.value;
      var i := 0;
      while i < |updates|
        invariant 0 <= i <= |updates|
        invariant task == ApplyUpdates(found.value, updates[..i])
      {
        assert updates[..i + 1][..i] == updates[..i];
        task := SetAttribute(task, updates[i].0, updates[i].1);
        i := i + 1;
      }
      assert updates[..i] == updates;
      tasks := tasks[(projectId, taskId) := task];
      var saved := SaveTask(task, now);
      // the cached entry is the object just saved, so it carries the new stamp as well
      tasks := tasks[(projectId, taskId) := saved];
      ok := true;
    }

    /** `start_task`: running from `now`, whatever the status and dependencies were. */
    method StartTask(projectId: string, taskId: string, now: real) returns (ok: bool)
      modifies this
      ensures ok <==> (projectId, taskId) in old(tasks)
      ensures !ok ==> tasks == old(tasks)
      ensures ok ==> tasks == Stored(old(tasks), (projectId, taskId),
        old(tasks)[(projectId, taskId)].(status := Running, startedAt := Some(now), lastUpdated := now))
    {
      if (projectId, taskId) in tasks {
        StartUpdates(tasks[(projectId, taskId)], now);
      }
      ok := UpdateTask(projectId, taskId, [("status", Str(Running)), ("started_at", Real(now))], now);
    }

    /** `complete_task`: completed at `now`, progress 100, with the result stored. */
    method CompleteTask(projectId: string, taskId: string, result: Value, now: real) returns (ok: bool)
      modifies this
      ensures ok <==> (projectId, taskId) in old(tasks)
      ensures !ok ==> tasks == old(tasks)
      ensures ok ==> tasks == Stored(old(tasks), (projectId, taskId),
        old(tasks)[(projectId, taskId)].(status := Completed, completedAt := Some(now), progress := 100.0,
                                         result := result, lastUpdated := now))
    {
      if (projectId, taskId) in tasks {
        CompleteUpdates(tasks[(projectId, taskId)], result, now);
      }
      ok := UpdateTask(projectId, taskId,
        [("status", Str(Completed)), ("completed_at", Real(now)), ("progress", Real(100.0)), ("result", result)], now);
    }

    /** `fail_task`: False for an unknown task; otherwise the record after one more failure. */
    method FailTask(projectId: string, taskId: string, error: string, now: real) returns (ok: bool)
      modifies this
      ensures ok <==> (projectId, taskId) in old(tasks)
      ensures !ok ==> tasks == old(tasks)
      ensures ok ==> tasks == Stored(old(tasks), (projectId, taskId),
        AfterFailure(old(tasks)[(projectId, taskId)], error).(lastUpdated := now))
    {
      var found := LoadTask(projectId, taskId);
      if found.None? {
        return false;
      }
      var task := found.value.(retryCount := found.value.retryCount + 1);
      tasks := tasks[(projectId, taskId) := task];
      var status := if task.CanRetry() then Retrying else Failed;
      FailUpdates(task, status, error, task.retryCount);
      assert AfterFailure(found.value, error) == task.(status := status, error := Some(error));
      ok := UpdateTask(projectId, taskId,
        [("status", Str(status)), ("error", Str(error)), ("retry_count", Int(task.retryCount))], now);
    }

    /** `get_next_task` for a project whose directory lists `listing`. */
    function GetNextTask(projectId: string, listing: seq<string>): (r: Option<TaskState>)
      reads this
      ensures r.Some? ==> IsReady(r.value, LoadAllTasks(projectId, listing))
      ensures r.Some? ==> exists k :: k in tasks && k.0 == projectId && tasks[k] == r.value
      ensures r.Some? ==> forall t :: IsReady(t, LoadAllTasks(projectId, listing)) ==> TaskRank(r.value) <= TaskRank(t)
      ensures r.None? ==> forall t :: t in LoadAllTasks(projectId, listing) ==> !IsReady(t, LoadAllTasks(projectId, listing))
    {
      NextTask(LoadAllTasks(projectId, listing))
    }

    /** `get_statistics` for a project whose directory lists `listing`. */
    function GetProjectStatistics(projectId: string, listing: seq<string>): (s: Statistics)
      reads this
      ensures s.total == |LoadAllTasks(projectId, listing)| <= |listing|
      ensures s.completed + s.failed + s.running + s.pending == s.total
      ensures 0.0 <= s.completionPercentage <= 100.0 && s.etaSeconds >= 0.0
    {
      GetStatistics(LoadAllTasks(projectId, listing))
    }
  }
}
