/**
 * The continuity executor: runs a list of tasks one after another, recording each
 * start, completion and failure in the task store, the progress tracker and the
 * execution session, and checkpointing the session every `interval` tasks.
 *
 * Running one task (`_execute_single_task`) is a parameter, `Runner`. The session
 * manager is represented by the session record the executor writes to.
 */
module ExecutorV2 {
  import opened Wrappers
  import opened Lists
  import opened Values
  import TSM = TaskStateManager
  import PT = ProgressTracker
  import Arith

  /** What running one task gives back. */
  datatype Outcome =
    | Succeeded(result: Value)              // a result whose status is "success"
    | Unsuccessful(error: Option<string>)   // any other status, with its error if it has one
    | Raised(message: string)               // the run raised

  type Runner = TSM.TaskState -> Outcome

  const UnknownError := "Unknown error"
  const NoTasksError := "No tasks available"
  /** The message of the exception `(i + 1) % 0` raises. */
  const ModuloByZero := "integer modulo by zero"
  /** The message of the exception the progress-tracker call raises as written. */
  const StartExecutionTypeError := "ProgressTracker.start_execution() got an unexpected keyword argument 'total_tasks'"

  datatype Summary = Summary(total: nat, completed: nat, failed: nat, completionPercentage: real)

  datatype Snapshot = Periodic(completed: nat, failed: nat) | Final(summary: Summary)

  datatype SessionStatus = Active | Finished(summary: Summary) | Aborted(error: string)

  /** An execution session, reduced to what the executor records in it. */
  class Session {
    const sessionId: string
    /** Whether the session manager would resume this session. */
    var resumable: bool
    var status: SessionStatus
    var currentTaskId: Option<string>
    var completedTaskIds: seq<string>
    var failedTaskIds: seq<string>
    var checkpoints: seq<Snapshot>

    constructor (sessionId: string)
      ensures this.sessionId == sessionId && !resumable && status == Active && currentTaskId == None
      ensures completedTaskIds == [] && failedTaskIds == [] && checkpoints == []
    {
      this.sessionId := sessionId;
      resumable := false;
      status := Active;
      currentTaskId := None;
      completedTaskIds := [];
      failedTaskIds := [];
      checkpoints := [];
    }
  }

  // ---------------------------------------------------------------------------------
  // The tally, as a function of the tasks and what running each one gives
  // ---------------------------------------------------------------------------------

  /** The counters and the session lists the loop builds. */
  datatype Tally = Tally(completed: nat, failed: nat, completedIds: seq<string>, failedIds: seq<string>, checkpoints: seq<Snapshot>)

  /**
   * The checkpoint test after the task at 1-based `position`: a snapshot of the counters
   * every `interval` tasks; with a zero interval the test itself raises, which the loop
   * counts as one more failure.
   */
  function Checkpointed(t: Tally, position: nat, interval: int): Tally
  {
    if interval == 0 then t.(failed := t.failed + 1)
    else if position % interval == 0 then t.(checkpoints := t.checkpoints + [Periodic(t.completed, t.failed)])
    else t
  }

  /** The tally after the task at 1-based `position`, whose run gave `o`. */
  function AfterTask(t: Tally, position: nat, o: Outcome, id: string, interval: int): Tally
  {
    match o
    case Raised(_) => t.(failed := t.failed + 1)
    case Succeeded(_) =>
      Checkpointed(t.(completed := t.completed + 1, completedIds := t.completedIds + [id]), position, interval)
    case Unsuccessful(_) =>
      Checkpointed(t.(failed := t.failed + 1, failedIds := t.failedIds + [id]), position, interval)
  }

  /** The tally after running `tasks` in order. */
  function Tallied(tasks: seq<TSM.TaskState>, run: Runner, interval: int): Tally
  {
    if tasks == [] then Tally(0, 0, [], [], [])
    else
      var last := tasks[|tasks| - 1];
      AfterTask(Tallied(tasks[..|tasks| - 1], run, interval), |tasks|, run(last), last.taskId, interval)
  }

  function Succeeds(run: Runner): TSM.TaskState -> bool
  {
    t => run(t).Succeeded?
  }

  function Fails(run: Runner): TSM.TaskState -> bool
  {
    t => run(t).Unsuccessful?
  }

  function Ids(tasks: seq<TSM.TaskState>): (r: seq<string>)
    ensures |r| == |tasks| && forall i :: 0 <= i < |r| ==> r[i] == tasks[i].taskId
  {
    seq(|tasks|, i requires 0 <= i < |tasks| => tasks[i].taskId)
  }

  lemma IdsSnoc(tasks: seq<TSM.TaskState>, t: TSM.TaskState)
    ensures Ids(tasks + [t]) == Ids(tasks) + [t.taskId]
  {
  }

  /**
   * Every task raises exactly one counter: successes are counted as completed and
   * everything else as failed, so the two add up to the number of tasks. With a zero
   * interval the checkpoint test raises after every task that did not raise itself, so
   * every task is counted as failed once more, and a task whose run reported failure
   * twice. The session lists name the tasks
   * that succeeded and those whose run reported failure, in order.
   */
  lemma {:induction false} TalliedCounts(tasks: seq<TSM.TaskState>, run: Runner, interval: int)
    ensures var t := Tallied(tasks, run, interval);
      && t.completed == Count(tasks, Succeeds(run))
      && (interval != 0 ==> t.completed + t.failed == |tasks|)
      && (interval == 0 ==> t.failed == |tasks| + Count(tasks, Fails(run)))
      && t.completedIds == Ids(Where(tasks, Succeeds(run)))
      && t.failedIds == Ids(Where(tasks, Fails(run)))
  {
    if tasks != [] {
      var init, last := tasks[..|tasks| - 1], tasks[|tasks| - 1];
      TalliedCounts(init, run, interval);
      IdsSnoc(Where(init, Succeeds(run)), last);
      IdsSnoc(Where(init, Fails(run)), last);
    }
  }

  /** When no run raises, a checkpoint is written after every `interval`-th task: `n / interval` of them. */
  lemma {:induction false} CheckpointCadence(tasks: seq<TSM.TaskState>, run: Runner, interval: int)
    requires interval > 0
    requires forall i :: 0 <= i < |tasks| ==> !run(tasks[i]).Raised?
    ensures |Tallied(tasks, run, interval).checkpoints| == |tasks| / interval
  {
    if tasks != [] {
      var init := tasks[..|tasks| - 1];
      CheckpointCadence(init, run, interval);
      Arith.MultiplesStep(|tasks|, interval);
    }
  }

  /**
   * When no run raises, the j-th checkpoint (from 0) is taken after task (j + 1) ·
   * interval, so its two counters add up to that number.
   */
  lemma {:induction false} CheckpointContents(tasks: seq<TSM.TaskState>, run: Runner, interval: int)
    requires interval > 0
    requires forall i :: 0 <= i < |tasks| ==> !run(tasks[i]).Raised?
    ensures var cs := Tallied(tasks, run, interval).checkpoints;
      forall j :: 0 <= j < |cs| ==> cs[j].Periodic? && cs[j].completed + cs[j].failed == (j + 1) * interval
  {
    if tasks != [] {
      var n := |tasks|;
      var init := tasks[..n - 1];
      CheckpointContents(init, run, interval);
      var cs0, cs := Tallied(init, run, interval).checkpoints, Tallied(tasks, run, interval).checkpoints;
      NewCheckpoint(tasks, run, interval);
      if n % interval == 0 {
        CheckpointCadence(init, run, interval);
        TalliedTotal(tasks, run, interval);
        Arith.MultiplesStep(n, interval);
        Arith.DivExact(n, interval);
        assert n == (|cs0| + 1) * interval;
        assert cs[|cs0|].completed + cs[|cs0|].failed == n;
      }
      forall j | 0 <= j < |cs|
        ensures cs[j].Periodic? && cs[j].completed + cs[j].failed == (j + 1) * interval
      {
        if j < |cs0| {
          assert cs[j] == cs0[j];
        }
      }
    }
  }

  /** With a non-zero interval, every task raises exactly one of the two counters. */
  lemma {:induction false} TalliedTotal(tasks: seq<TSM.TaskState>, run: Runner, interval: int)
    requires interval != 0
    ensures Tallied(tasks, run, interval).completed + Tallied(tasks, run, interval).failed == |tasks|
  {
    if tasks != [] {
      TalliedTotal(tasks[..|tasks| - 1], run, interval);
    }
  }

  /** The last task adds a checkpoint of the counters after it exactly when its position is a multiple of the interval. */
  lemma NewCheckpoint(tasks: seq<TSM.TaskState>, run: Runner, interval: int)
    requires interval > 0 && tasks != [] && !run(tasks[|tasks| - 1]).Raised?
    ensures var t0, t := Tallied(tasks[..|tasks| - 1], run, interval), Tallied(tasks, run, interval);
      t.checkpoints == t0.checkpoints + (if |tasks| % interval == 0 then [Periodic(t.completed, t.failed)] else [])
  {
  }

  /** The summary the run returns: the share of tasks completed, as a percentage. */
  function SummaryOf(t: Tally, total: nat): (s: Summary)
    ensures s.total == total && s.completed == t.completed && s.failed == t.failed
    ensures total > 0 ==> s.completionPercentage * total as real == t.completed as real * 100.0
    ensures total == 0 ==> s.completionPercentage == 0.0
  {
    Summary(total, t.completed, t.failed, if total > 0 then t.completed as real / total as real * 100.0 else 0.0)
  }

  /** The summary depends on the counters only. */
  lemma SummaryOfCounters(a: Tally, b: Tally, total: nat)
    requires a.completed == b.completed && a.failed == b.failed
    ensures SummaryOf(a, total) == SummaryOf(b, total)
  {
  }

  /** What the progress tracker is given for a task. */
  function SpecOf(t: TSM.TaskState): PT.TaskSpec
  {
    PT.TaskSpec(Some(t.taskId), Some(t.title), Some(t.taskType), Some(t.priority), None)
  }

  function Specs(tasks: seq<TSM.TaskState>): (r: seq<PT.TaskSpec>)
    ensures |r| == |tasks| && forall i :: 0 <= i < |r| ==> r[i] == SpecOf(tasks[i])
  {
    seq(|tasks|, i requires 0 <= i < |tasks| => SpecOf(tasks[i]))
  }

  /** `_create_pr_for_task`'s pull-request address. */
  function PrUrl(taskId: string): string
  {
    "https://github.com/user/repo/pull/" + taskId
  }

  // ---------------------------------------------------------------------------------
  // What the loop leaves in the task store and the progress tracker
  // ---------------------------------------------------------------------------------

  /** The store's records, keyed by (project id, task id). */
  type Records = map<(string, string), TSM.TaskState>

  /** The tracker's records, keyed by task id. */
  type Board = map<string, PT.Tracked>

  /** What `_create_pr_for_task` writes back to the task. */
  function PrUpdates(id: string): seq<(string, Value)>
  {
    [("pr_url", Str(PrUrl(id))), ("branch_name", Str("task-" + id))]
  }

  /** The pull-request data goes to the record's uninterpreted attributes and nothing else changes. */
  lemma PrLinked(t: TSM.TaskState, id: string)
    ensures TSM.ApplyUpdates(t, PrUpdates(id)) ==
      t.(other := t.other["pr_url" := Str(PrUrl(id))]["branch_name" := Str("task-" + id)])
  {
    var a, b := ("pr_url", Str(PrUrl(id))), ("branch_name", Str("task-" + id));
    assert [a] == [] + [a];
    assert PrUpdates(id) == [a] + [b];
    TSM.ApplyUpdatesSnoc(t, [], a);
    TSM.ApplyUpdatesSnoc(t, [a], b);
    PrFieldsNamed();
    var t1 := TSM.SetAttribute(t, a.0, a.1);
    SetOther(t, a.0, a.1);
    SetOther(t1, b.0, b.1);
  }

  lemma PrFieldsNamed()
    ensures TSM.FieldNamed("pr_url") == Some(TSM.OtherField("pr_url"))
    ensures TSM.FieldNamed("branch_name") == Some(TSM.OtherField("branch_name"))
  {
  }

  lemma SetOther(t: TSM.TaskState, key: string, v: Value)
    requires TSM.FieldNamed(key) == Some(TSM.OtherField(key))
    ensures TSM.SetAttribute(t, key, v) == t.(other := t.other[key := v])
  {
  }

  /** A record that changed nothing but its status, retries, error, timestamps, progress, result or extras. */
  predicate SameTask(a: TSM.TaskState, b: TSM.TaskState)
  {
    a.projectId == b.projectId && a.taskId == b.taskId && a.maxRetries == b.maxRetries
  }

  /** The record after `start_task`. */
  function StartedRecord(t: TSM.TaskState, now: real): (r: TSM.TaskState)
    ensures SameTask(t, r) && r.retryCount == t.retryCount && r.status == TSM.Running
  {
    t.(status := TSM.Running, startedAt := Some(now), lastUpdated := now)
  }

  /** The record after `complete_task`. */
  function CompletedRecord(t: TSM.TaskState, result: Value, now: real): (r: TSM.TaskState)
    ensures SameTask(t, r) && r.retryCount == t.retryCount && r.status == TSM.Completed
    ensures r.result == result && r.completedAt == Some(now) && r.progress == 100.0
  {
    t.(status := TSM.Completed, completedAt := Some(now), progress := 100.0, result := result, lastUpdated := now)
  }

  /** The record after `fail_task`: one more retry counted, retrying while retries remain. */
  function FailedRecord(t: TSM.TaskState, error: string, now: real): (r: TSM.TaskState)
    ensures SameTask(t, r) && r.retryCount == t.retryCount + 1 && r.error == Some(error)
    ensures r.status == if r.CanRetry() then TSM.Retrying else TSM.Failed
  {
    TSM.AfterFailure(t, error).(lastUpdated := now)
  }

  /** The record after `update_task` writes the pull request's address and branch to it (see `PrLinked`). */
  function LinkedRecord(t: TSM.TaskState, id: string, now: real): (r: TSM.TaskState)
    ensures SameTask(t, r) && r.retryCount == t.retryCount && r.status == t.status
    ensures r.other == t.other["pr_url" := Str(PrUrl(id))]["branch_name" := Str("task-" + id)]
  {
    t.(other := t.other["pr_url" := Str(PrUrl(id))]["branch_name" := Str("task-" + id)], lastUpdated := now)
  }

  /** The store after `start_task` on `key`; an unknown key changes nothing. */
  function StoreStarted(m: Records, key: (string, string), now: real): Records
  {
    if key in m then TSM.Stored(m, key, StartedRecord(m[key], now)) else m
  }

  /** The store after `complete_task` on `key`. */
  function StoreCompleted(m: Records, key: (string, string), result: Value, now: real): Records
  {
    if key in m then TSM.Stored(m, key, CompletedRecord(m[key], result, now)) else m
  }

  /** The store after `fail_task` on `key`. */
  function StoreFailed(m: Records, key: (string, string), error: string, now: real): Records
  {
    if key in m then TSM.Stored(m, key, FailedRecord(m[key], error, now)) else m
  }

  /** The store after the pull request's address and branch are written to `key`. */
  function StoreLinked(m: Records, key: (string, string), id: string, now: real): Records
  {
    if key in m then TSM.Stored(m, key, LinkedRecord(m[key], id, now)) else m
  }

  /** The checkpoint test: with a zero interval it raises, and the task is failed once more. */
  function StoreChecked(m: Records, key: (string, string), interval: int, now: real): Records
  {
    if interval == 0 then StoreFailed(m, key, ModuloByZero, now) else m
  }

  /** The store after the run of task `id` gave `o`, from the store as `start_task` left it. */
  function StoreOutcome(m: Records, key: (string, string), id: string, o: Outcome, autoPr: bool, interval: int, now: real): Records
  {
    match o
    case Raised(message) => StoreFailed(m, key, message, now)
    case Succeeded(result) =>
      var done := StoreCompleted(m, key, result, now);
      StoreChecked(if autoPr then StoreLinked(done, key, id, now) else done, key, interval, now)
    case Unsuccessful(error) => StoreChecked(StoreFailed(m, key, error.GetOr(UnknownError), now), key, interval, now)
  }

  /** The store after task `id`, whose run gave `o`. */
  function StoreAfter(m: Records, projectId: string, id: string, o: Outcome, autoPr: bool, interval: int, now: real): Records
  {
    StoreOutcome(StoreStarted(m, (projectId, id), now), (projectId, id), id, o, autoPr, interval, now)
  }

  /** The store after running `tasks` in order. */
  function StoreRun(m: Records, projectId: string, tasks: seq<TSM.TaskState>, run: Runner, autoPr: bool,
                    interval: int, now: real): Records
  {
    if tasks == [] then m
    else
      var last := tasks[|tasks| - 1];
      StoreAfter(StoreRun(m, projectId, tasks[..|tasks| - 1], run, autoPr, interval, now),
        projectId, last.taskId, run(last), autoPr, interval, now)
  }

  /** The tracker after `update_task(id, progress=0)`. */
  function BoardBegun(m: Board, id: string): Board
  {
    if id in m then m[id := PT.Progressed(m[id], 0, None)] else m
  }

  /** The tracker after `complete_task(id)`, with no result. */
  function BoardDone(m: Board, id: string, now: real): Board
  {
    if id in m then m[id := PT.Finished(m[id], now, None)] else m
  }

  /** The tracker after `fail_task(id, error)`. */
  function BoardFailed(m: Board, id: string, error: string, now: real): Board
  {
    if id in m then m[id := PT.FailedWith(m[id], error, now)] else m
  }

  function BoardChecked(m: Board, id: string, interval: int, now: real): Board
  {
    if interval == 0 then BoardFailed(m, id, ModuloByZero, now) else m
  }

  /** The tracker after the run of task `id` gave `o`, from the tracker as the start left it. */
  function BoardOutcome(m: Board, id: string, o: Outcome, interval: int, now: real): Board
  {
    match o
    case Raised(message) => BoardFailed(m, id, message, now)
    case Succeeded(_) => BoardChecked(BoardDone(m, id, now), id, interval, now)
    case Unsuccessful(error) => BoardChecked(BoardFailed(m, id, error.GetOr(UnknownError), now), id, interval, now)
  }

  /** The tracker after task `id`, whose run gave `o`. */
  function BoardAfter(m: Board, id: string, o: Outcome, interval: int, now: real): Board
  {
    BoardOutcome(BoardBegun(m, id), id, o, interval, now)
  }

  /** The tracker after running `tasks` in order. */
  function BoardRun(m: Board, tasks: seq<TSM.TaskState>, run: Runner, interval: int, now: real): Board
  {
    if tasks == [] then m
    else
      var last := tasks[|tasks| - 1];
      BoardAfter(BoardRun(m, tasks[..|tasks| - 1], run, interval, now), last.taskId, run(last), interval, now)
  }

  /** A task counts as completed in the tracker and the store only when it succeeded and the checkpoint test did not raise. */
  predicate Clean(o: Outcome, interval: int)
  {
    o.Succeeded? && interval != 0
  }

  /**
   * The tracker's record of each task after the run: completed when its run succeeded
   * and the checkpoint test passed, failed at `now` otherwise; nothing else is touched
   * and no task is added.
   */
  lemma BoardAfterRecord(m: Board, id: string, o: Outcome, interval: int, now: real)
    ensures BoardAfter(m, id, o, interval, now).Keys == m.Keys
    ensures forall other :: other in m && other != id ==> BoardAfter(m, id, o, interval, now)[other] == m[other]
    ensures id in m ==>
      var r := BoardAfter(m, id, o, interval, now)[id];
      && r.status == (if Clean(o, interval) then PT.Completed else PT.Failed)
      && r.endTime == Some(now) && r.id == m[id].id
  {
  }

  lemma {:induction false} BoardRunRecord(m: Board, tasks: seq<TSM.TaskState>, run: Runner, interval: int, now: real)
    requires NoDuplicates(Ids(tasks))
    ensures BoardRun(m, tasks, run, interval, now).Keys == m.Keys
    ensures forall j :: 0 <= j < |tasks| && tasks[j].taskId in m ==>
      BoardRun(m, tasks, run, interval, now)[tasks[j].taskId].status ==
        (if Clean(run(tasks[j]), interval) then PT.Completed else PT.Failed)
    ensures forall id :: id in m && id !in Ids(tasks) ==> BoardRun(m, tasks, run, interval, now)[id] == m[id]
  {
    if tasks != [] {
      var init, last := tasks[..|tasks| - 1], tasks[|tasks| - 1];
      IdsSnoc(init, last);
      assert tasks == init + [last];
      NoDuplicatesSnoc(Ids(tasks), Ids(init), last.taskId);
      BoardRunRecord(m, init, run, interval, now);
      var before := BoardRun(m, init, run, interval, now);
      BoardAfterRecord(before, last.taskId, run(last), interval, now);
      forall j | 0 <= j < |tasks| - 1
        ensures tasks[j].taskId != last.taskId
      {
        assert Ids(tasks)[j] == tasks[j].taskId;
      }
    }
  }

  /** A task is failed in the store once for a run that did not succeed and once more for a checkpoint test that raised. */
  function Failures(o: Outcome, interval: int): nat
  {
    (if o.Succeeded? then 0 else 1) + (if interval == 0 && !o.Raised? then 1 else 0)
  }

  /** Every record is filed under its own ids. */
  ghost predicate Filed(m: Records)
  {
    forall k :: k in m ==> (m[k].projectId, m[k].taskId) == k
  }

  /**
   * One task's effect on a store whose records are filed under their own ids: only its
   * own record changes, and an unknown task changes nothing.
   */
  lemma StoreAfterRecord(m: Records, projectId: string, id: string, o: Outcome, autoPr: bool, interval: int, now: real)
    requires Filed(m)
    ensures (projectId, id) !in m ==> StoreAfter(m, projectId, id, o, autoPr, interval, now) == m
    ensures (projectId, id) in m ==>
      Changed(m, StoreAfter(m, projectId, id, o, autoPr, interval, now), (projectId, id), Failures(o, interval))
  {
    var key := (projectId, id);
    if key in m {
      match o
      case Raised(message) => RaisedChanges(m, key, message, autoPr, interval, now);
      case Succeeded(result) => SucceededChanges(m, key, id, result, autoPr, interval, now);
      case Unsuccessful(error) => UnsuccessfulChanges(m, key, error, autoPr, interval, now);
    }
  }

  /**
   * A task's record after its run: the same task, its retries grown by the number of
   * failures, and its status `completed` when nothing failed, otherwise `retrying` or
   * `failed` as the retries left decide.
   */
  predicate Settled(t: TSM.TaskState, r: TSM.TaskState, failures: nat)
  {
    && SameTask(t, r)
    && r.retryCount == t.retryCount + failures
    && r.status == (if failures == 0 then TSM.Completed else if r.CanRetry() then TSM.Retrying else TSM.Failed)
  }

  /** `m'` is `m` with only the record under `key` changed, and that one settled after `failures` failures. */
  ghost predicate Changed(m: Records, m': Records, key: (string, string), failures: nat)
  {
    && key in m && key in m' && m' == m[key := m'[key]] && Filed(m')
    && Settled(m[key], m'[key], failures)
  }

  lemma RaisedChanges(m: Records, key: (string, string), message: string, autoPr: bool, interval: int, now: real)
    requires Filed(m) && key in m
    ensures Changed(m, StoreAfter(m, key.0, key.1, Raised(message), autoPr, interval, now), key, 1)
  {
    var t1 := StartedRecord(m[key], now);
    InPlace(m, key, t1);
    var s := StoreStarted(m, key, now);
    InPlace(s, key, FailedRecord(t1, message, now));
    Overwrite(m, key, t1, FailedRecord(t1, message, now));
  }

  lemma SucceededChanges(m: Records, key: (string, string), id: string, result: Value, autoPr: bool, interval: int, now: real)
    requires Filed(m) && key in m && key.1 == id
    ensures Changed(m, StoreAfter(m, key.0, id, Succeeded(result), autoPr, interval, now), key, if interval == 0 then 1 else 0)
  {
    var t1 := StartedRecord(m[key], now);
    var t2 := CompletedRecord(t1, result, now);
    var t3 := if autoPr then LinkedRecord(t2, id, now) else t2;
    var t4 := if interval == 0 then FailedRecord(t3, ModuloByZero, now) else t3;
    InPlace(m, key, t1);
    var s := StoreStarted(m, key, now);
    InPlace(s, key, t2);
    Overwrite(m, key, t1, t2);
    var done := StoreCompleted(s, key, result, now);
    InPlace(done, key, LinkedRecord(t2, id, now));
    Overwrite(m, key, t2, LinkedRecord(t2, id, now));
    var linked := if autoPr then StoreLinked(done, key, id, now) else done;
    InPlace(linked, key, FailedRecord(t3, ModuloByZero, now));
    Overwrite(m, key, t3, FailedRecord(t3, ModuloByZero, now));
    assert StoreChecked(linked, key, interval, now) == m[key := t4];
    assert StoreOutcome(s, key, id, Succeeded(result), autoPr, interval, now) == StoreChecked(linked, key, interval, now);
  }

  /** Two writes to the same key leave the second. */
  lemma Overwrite<K, V>(m: map<K, V>, k: K, a: V, b: V)
    ensures m[k := a][k := b] == m[k := b]
  {
  }

  lemma UnsuccessfulChanges(m: Records, key: (string, string), error: Option<string>, autoPr: bool, interval: int, now: real)
    requires Filed(m) && key in m
    ensures Changed(m, StoreAfter(m, key.0, key.1, Unsuccessful(error), autoPr, interval, now), key, if interval == 0 then 2 else 1)
  {
    var message := error.GetOr(UnknownError);
    var t1 := StartedRecord(m[key], now);
    var t2 := FailedRecord(t1, message, now);
    var t3 := if interval == 0 then FailedRecord(t2, ModuloByZero, now) else t2;
    InPlace(m, key, t1);
    var s := StoreStarted(m, key, now);
    InPlace(s, key, t2);
    Overwrite(m, key, t1, t2);
    var failed := StoreFailed(s, key, message, now);
    InPlace(failed, key, FailedRecord(t2, ModuloByZero, now));
    Overwrite(m, key, t2, FailedRecord(t2, ModuloByZero, now));
    assert StoreChecked(failed, key, interval, now) == m[key := t3];
    assert StoreOutcome(s, key, key.1, Unsuccessful(error), autoPr, interval, now) == StoreChecked(failed, key, interval, now);
  }

  /** Saving a record under its own ids, in a store that files every record so, replaces that one record. */
  lemma InPlace(m: Records, key: (string, string), t: TSM.TaskState)
    requires Filed(m) && key in m && (t.projectId, t.taskId) == key
    ensures TSM.Stored(m, key, t) == m[key := t] && Filed(m[key := t])
  {
  }

  /** Running the tasks adds no record, and every record stays filed under its own ids. */
  lemma {:induction false} StoreRunFiled(m: Records, projectId: string, tasks: seq<TSM.TaskState>, run: Runner,
                                         autoPr: bool, interval: int, now: real)
    requires Filed(m)
    ensures Filed(StoreRun(m, projectId, tasks, run, autoPr, interval, now))
    ensures StoreRun(m, projectId, tasks, run, autoPr, interval, now).Keys == m.Keys
  {
    if tasks != [] {
      var init, last := tasks[..|tasks| - 1], tasks[|tasks| - 1];
      StoreRunFiled(m, projectId, init, run, autoPr, interval, now);
      StoreAfterRecord(StoreRun(m, projectId, init, run, autoPr, interval, now), projectId, last.taskId, run(last), autoPr, interval, now);
    }
  }

  /** Running the tasks leaves the records of other projects and other tasks as they were. */
  lemma {:induction false} StoreRunUntouched(m: Records, projectId: string, tasks: seq<TSM.TaskState>, run: Runner,
                                             autoPr: bool, interval: int, now: real, k: (string, string))
    requires Filed(m) && k in m && (k.0 != projectId || k.1 !in Ids(tasks))
    ensures k in StoreRun(m, projectId, tasks, run, autoPr, interval, now)
    ensures StoreRun(m, projectId, tasks, run, autoPr, interval, now)[k] == m[k]
  {
    StoreRunFiled(m, projectId, tasks, run, autoPr, interval, now);
    if tasks != [] {
      var init, last := tasks[..|tasks| - 1], tasks[|tasks| - 1];
      IdsSnoc(init, last);
      assert tasks == init + [last];
      StoreRunFiled(m, projectId, init, run, autoPr, interval, now);
      StoreRunUntouched(m, projectId, init, run, autoPr, interval, now, k);
      StoreAfterRecord(StoreRun(m, projectId, init, run, autoPr, interval, now), projectId, last.taskId, run(last), autoPr, interval, now);
    }
  }

  /**
   * With distinct task ids, a task the store holds is settled after its own run:
   * `completed` exactly when the run succeeded and the checkpoint test passed.
   */
  lemma {:induction false} StoreRunSettles(m: Records, projectId: string, tasks: seq<TSM.TaskState>, run: Runner,
                                           autoPr: bool, interval: int, now: real, j: nat)
    requires Filed(m) && NoDuplicates(Ids(tasks)) && j < |tasks| && (projectId, tasks[j].taskId) in m
    ensures var key, m' := (projectId, tasks[j].taskId), StoreRun(m, projectId, tasks, run, autoPr, interval, now);
      key in m' && Settled(m[key], m'[key], Failures(run(tasks[j]), interval))
  {
    var init, last := tasks[..|tasks| - 1], tasks[|tasks| - 1];
    var key := (projectId, tasks[j].taskId);
    IdsSnoc(init, last);
    assert tasks == init + [last];
    NoDuplicatesSnoc(Ids(tasks), Ids(init), last.taskId);
    StoreRunFiled(m, projectId, init, run, autoPr, interval, now);
    var before := StoreRun(m, projectId, init, run, autoPr, interval, now);
    if j == |tasks| - 1 {
      StoreRunUntouched(m, projectId, init, run, autoPr, interval, now, key);
      StoreAfterRecord(before, projectId, last.taskId, run(last), autoPr, interval, now);
    } else {
      assert Ids(init)[j] == tasks[j].taskId;
      StoreRunSettles(m, projectId, init, run, autoPr, interval, now, j);
      StoreAfterKeeps(before, projectId, last.taskId, run(last), autoPr, interval, now, key);
    }
  }

  /** A task's run leaves every other record as it was. */
  lemma StoreAfterKeeps(m: Records, projectId: string, id: string, o: Outcome, autoPr: bool, interval: int, now: real,
                        k: (string, string))
    requires Filed(m) && k in m && k != (projectId, id)
    ensures k in StoreAfter(m, projectId, id, o, autoPr, interval, now)
    ensures StoreAfter(m, projectId, id, o, autoPr, interval, now)[k] == m[k]
  {
    StoreAfterRecord(m, projectId, id, o, autoPr, interval, now);
  }

  lemma StoreRunRecord(m: Records, projectId: string, tasks: seq<TSM.TaskState>, run: Runner,
                       autoPr: bool, interval: int, now: real)
    requires Filed(m) && NoDuplicates(Ids(tasks))
    ensures forall j :: 0 <= j < |tasks| && (projectId, tasks[j].taskId) in m ==>
      var key, m' := (projectId, tasks[j].taskId), StoreRun(m, projectId, tasks, run, autoPr, interval, now);
      key in m' && Settled(m[key], m'[key], Failures(run(tasks[j]), interval))
  {
    forall j | 0 <= j < |tasks| && (projectId, tasks[j].taskId) in m
      ensures var key, m' := (projectId, tasks[j].taskId), StoreRun(m, projectId, tasks, run, autoPr, interval, now);
        key in m' && Settled(m[key], m'[key], Failures(run(tasks[j]), interval))
    {
      StoreRunSettles(m, projectId, tasks, run, autoPr, interval, now, j);
    }
  }

  /**
   * After `execute_tasks`, with distinct task ids, the tracker holds a record for every
   * task, completed exactly when its run succeeded and the checkpoint test passed.
   */
  lemma ExecutedBoard(tasks: seq<TSM.TaskState>, run: Runner, interval: int, now: real)
    requires NoDuplicates(Ids(tasks))
    ensures forall j :: 0 <= j < |tasks| ==>
      var b := BoardRun(PT.Initial(Specs(tasks)).tasks, tasks, run, interval, now);
      tasks[j].taskId in b && b[tasks[j].taskId].status == (if Clean(run(tasks[j]), interval) then PT.Completed else PT.Failed)
  {
    var specs := Specs(tasks);
    PT.InitialTable(specs);
    BoardRunRecord(PT.Initial(specs).tasks, tasks, run, interval, now);
    forall j | 0 <= j < |tasks|
      ensures tasks[j].taskId in PT.Initial(specs).tasks
    {
      assert specs[j].id == Some(tasks[j].taskId);
    }
  }

  // ---------------------------------------------------------------------------------
  // The loop
  // ---------------------------------------------------------------------------------

  /** A failure recorded in the store and the tracker (the session is not told). */
  method FailInStores(projectId: string, id: string, message: string, now: real, store: TSM.TaskStore, tracker: PT.Tracker)
    requires tracker.Valid()
    modifies store, tracker
    ensures store.tasks == StoreFailed(old(store.tasks), (projectId, id), message, now)
    ensures tracker.tasks == BoardFailed(old(tracker.tasks), id, message, now) && tracker.order == old(tracker.order)
    ensures tracker.Valid()
  {
    var ok := store.FailTask(projectId, id, message, now);
    tracker.FailTask(id, message, now);
  }

  /** The start of a task in the tracker (progress 0) and the store. */
  method StartInStores(projectId: string, id: string, now: real, store: TSM.TaskStore, tracker: PT.Tracker)
    requires tracker.Valid()
    modifies store, tracker
    ensures store.tasks == StoreStarted(old(store.tasks), (projectId, id), now)
    ensures tracker.tasks == BoardBegun(old(tracker.tasks), id) && tracker.order == old(tracker.order)
    ensures tracker.Valid()
  {
    tracker.UpdateTask(id, Some(0), None);
    var started := store.StartTask(projectId, id, now);
  }

  /** The start of a task: progress 0, started in the store, current in the session. */
  method Begin(projectId: string, id: string, now: real, store: TSM.TaskStore, tracker: PT.Tracker, session: Session)
    requires tracker.Valid()
    modifies store, tracker, session
    ensures store.tasks == StoreStarted(old(store.tasks), (projectId, id), now)
    ensures tracker.tasks == BoardBegun(old(tracker.tasks), id) && tracker.order == old(tracker.order)
    ensures session.currentTaskId == Some(id)
    ensures session.completedTaskIds == old(session.completedTaskIds) && session.failedTaskIds == old(session.failedTaskIds)
    ensures session.checkpoints == old(session.checkpoints) && session.status == old(session.status)
    ensures tracker.Valid()
  {
    StartInStores(projectId, id, now, store, tracker);
    session.currentTaskId := Some(id);
  }

  /** A completion in the store and the tracker, with the pull request's data if one is asked for. */
  method CompleteInStores(projectId: string, id: string, result: Value, autoPr: bool, now: real,
                          store: TSM.TaskStore, tracker: PT.Tracker)
    requires tracker.Valid()
    modifies store, tracker
    ensures var done := StoreCompleted(old(store.tasks), (projectId, id), result, now);
      store.tasks == if autoPr then StoreLinked(done, (projectId, id), id, now) else done
    ensures tracker.tasks == BoardDone(old(tracker.tasks), id, now) && tracker.order == old(tracker.order)
    ensures tracker.Valid()
  {
    var ok := store.CompleteTask(projectId, id, result, now);
    ghost var done := store.tasks;
    tracker.CompleteTask(id, now, None);
    if autoPr {
      var updated := store.UpdateTask(projectId, id, PrUpdates(id), now);
      if (projectId, id) in done {
        PrLinked(done[(projectId, id)], id);
      }
      assert store.tasks == StoreLinked(done, (projectId, id), id, now);
    }
  }

  /** A successful run: completed in the store, the session and the tracker; a pull request if asked for. */
  method RecordSuccess(projectId: string, id: string, result: Value, autoPr: bool, now: real,
                       store: TSM.TaskStore, tracker: PT.Tracker, session: Session)
    requires tracker.Valid()
    modifies store, tracker, session
    ensures var done := StoreCompleted(old(store.tasks), (projectId, id), result, now);
      store.tasks == if autoPr then StoreLinked(done, (projectId, id), id, now) else done
    ensures tracker.tasks == BoardDone(old(tracker.tasks), id, now) && tracker.order == old(tracker.order)
    ensures session.completedTaskIds == old(session.completedTaskIds) + [id]
    ensures session.failedTaskIds == old(session.failedTaskIds)
    ensures session.checkpoints == old(session.checkpoints) && session.status == old(session.status)
    ensures tracker.Valid()
  {
    CompleteInStores(projectId, id, result, autoPr, now, store, tracker);
    session.completedTaskIds := session.completedTaskIds + [id];
  }

  /** A run that reported failure: failed in the store, the session and the tracker. */
  method RecordFailure(projectId: string, id: string, message: string, now: real,
                       store: TSM.TaskStore, tracker: PT.Tracker, session: Session)
    requires tracker.Valid()
    modifies store, tracker, session
    ensures store.tasks == StoreFailed(old(store.tasks), (projectId, id), message, now)
    ensures tracker.tasks == BoardFailed(old(tracker.tasks), id, message, now) && tracker.order == old(tracker.order)
    ensures session.failedTaskIds == old(session.failedTaskIds) + [id]
    ensures session.completedTaskIds == old(session.completedTaskIds)
    ensures session.checkpoints == old(session.checkpoints) && session.status == old(session.status)
    ensures tracker.Valid()
  {
    FailInStores(projectId, id, message, now, store, tracker);
    session.failedTaskIds := session.failedTaskIds + [id];
  }

  /** The checkpoint step after a task that did not raise, at 1-based `position`. */
  method Checkpoint(projectId: string, id: string, position: nat, interval: int, now: real,
                    store: TSM.TaskStore, tracker: PT.Tracker, session: Session,
                    completed: nat, failed: nat)
      returns (failed': nat)
    requires tracker.Valid()
    modifies store, tracker, session
    ensures failed' == if interval == 0 then failed + 1 else failed
    ensures store.tasks == StoreChecked(old(store.tasks), (projectId, id), interval, now)
    ensures tracker.tasks == BoardChecked(old(tracker.tasks), id, interval, now) && tracker.order == old(tracker.order)
    ensures session.checkpoints == old(session.checkpoints) +
      if interval != 0 && position % interval == 0 then [Periodic(completed, failed)] else []
    ensures session.completedTaskIds == old(session.completedTaskIds) && session.failedTaskIds == old(session.failedTaskIds)
    ensures session.status == old(session.status)
    ensures tracker.Valid()
  {
    failed' := failed;
    if interval == 0 {
      FailInStores(projectId, id, ModuloByZero, now, store, tracker);
      failed' := failed + 1;
    } else if position % interval == 0 {
      session.checkpoints := session.checkpoints + [Periodic(completed, failed)];
    }
  }

  /** The session's record as a tally, with the loop's counters. */
  function Recorded(completed: nat, failed: nat, session: Session): Tally
    reads session
  {
    Tally(completed, failed, session.completedTaskIds, session.failedTaskIds, session.checkpoints)
  }

  /** One iteration of the task loop, for the task at 1-based `position`. */
  method RunOne(projectId: string, task: TSM.TaskState, position: nat, run: Runner, autoPr: bool,
                interval: int, now: real, store: TSM.TaskStore, tracker: PT.Tracker, session: Session,
                completed: nat, failed: nat)
      returns (completed': nat, failed': nat)
    requires tracker.Valid()
    modifies store, tracker, session
    ensures Recorded(completed', failed', session) ==
      AfterTask(old(Recorded(completed, failed, session)), position, run(task), task.taskId, interval)
    ensures store.tasks == StoreAfter(old(store.tasks), projectId, task.taskId, run(task), autoPr, interval, now)
    ensures tracker.tasks == BoardAfter(old(tracker.tasks), task.taskId, run(task), interval, now)
    ensures tracker.order == old(tracker.order)
    ensures session.status == old(session.status)
    ensures tracker.Valid()
  {
    var id := task.taskId;
    Begin(projectId, id, now, store, tracker, session);
    var o := run(task);
    if o.Raised? {
      FailInStores(projectId, id, o.message, now, store, tracker);
      completed', failed' := completed, failed + 1;
    } else {
      completed', failed' := Record(projectId, id, o, autoPr, position, interval, now, store, tracker, session, completed, failed);
    }
  }

  /** A run that returned: recorded as completed or failed, then the checkpoint step. */
  method Record(projectId: string, id: string, o: Outcome, autoPr: bool, position: nat, interval: int, now: real,
                store: TSM.TaskStore, tracker: PT.Tracker, session: Session, completed: nat, failed: nat)
      returns (completed': nat, failed': nat)
    requires tracker.Valid() && !o.Raised?
    modifies store, tracker, session
    ensures Recorded(completed', failed', session) ==
      AfterTask(old(Recorded(completed, failed, session)), position, o, id, interval)
    ensures store.tasks == StoreOutcome(old(store.tasks), (projectId, id), id, o, autoPr, interval, now)
    ensures tracker.tasks == BoardOutcome(old(tracker.tasks), id, o, interval, now)
    ensures tracker.order == old(tracker.order)
    ensures session.status == old(session.status)
    ensures tracker.Valid()
  {
    if o.Succeeded? {
      RecordSuccess(projectId, id, o.result, autoPr, now, store, tracker, session);
      completed', failed' := completed + 1, failed;
    } else {
      RecordFailure(projectId, id, o.error.GetOr(UnknownError), now, store, tracker, session);
      completed', failed' := completed, failed + 1;
    }
    failed' := Checkpoint(projectId, id, position, interval, now, store, tracker, session, completed', failed');
  }

  /** Appending to a tally's lists before a task or after it is the same. */
  lemma AfterTaskShift(t: Tally, b: Tally, position: nat, o: Outcome, id: string, interval: int)
    requires b.completed == 0 && b.failed == 0
    ensures AfterTask(Prefixed(b, t), position, o, id, interval) == Prefixed(b, AfterTask(t, position, o, id, interval))
  {
    assert b.completedIds + (t.completedIds + [id]) == b.completedIds + t.completedIds + [id];
    assert b.failedIds + (t.failedIds + [id]) == b.failedIds + t.failedIds + [id];
    assert b.checkpoints + (t.checkpoints + [Periodic(t.completed + 1, t.failed)]) ==
      b.checkpoints + t.checkpoints + [Periodic(t.completed + 1, t.failed)];
    assert b.checkpoints + (t.checkpoints + [Periodic(t.completed, t.failed + 1)]) ==
      b.checkpoints + t.checkpoints + [Periodic(t.completed, t.failed + 1)];
  }

  /** `t` with `b`'s lists in front of its own. */
  function Prefixed(b: Tally, t: Tally): Tally
  {
    Tally(t.completed, t.failed, b.completedIds + t.completedIds, b.failedIds + t.failedIds, b.checkpoints + t.checkpoints)
  }

  /** The task loop of `execute_tasks`: run every task, in order, and count. */
  method RunAll(projectId: string, tasks: seq<TSM.TaskState>, run: Runner, autoPr: bool, interval: int, now: real,
                store: TSM.TaskStore, tracker: PT.Tracker, session: Session)
      returns (completed: nat, failed: nat)
    requires tracker.Valid()
    modifies store, tracker, session
    ensures Recorded(completed, failed, session) == Prefixed(old(Recorded(0, 0, session)), Tallied(tasks, run, interval))
    ensures store.tasks == StoreRun(old(store.tasks), projectId, tasks, run, autoPr, interval, now)
    ensures tracker.tasks == BoardRun(old(tracker.tasks), tasks, run, interval, now) && tracker.order == old(tracker.order)
    ensures session.status == old(session.status)
    ensures tracker.Valid()
  {
    ghost var base := Recorded(0, 0, session);
    completed, failed := 0, 0;
    var i := 0;
    assert base.completedIds + [] == base.completedIds && base.failedIds + [] == base.failedIds;
    assert base.checkpoints + [] == base.checkpoints;
    while i < |tasks|
      invariant i <= |tasks|
      invariant Recorded(completed, failed, session) == Prefixed(base, Tallied(tasks[..i], run, interval))
      invariant store.tasks == StoreRun(old(store.tasks), projectId, tasks[..i], run, autoPr, interval, now)
      invariant tracker.tasks == BoardRun(old(tracker.tasks), tasks[..i], run, interval, now)
      invariant tracker.order == old(tracker.order)
      invariant session.status == old(session.status)
      invariant tracker.Valid()
    {
      assert tasks[..i + 1][..i] == tasks[..i];
      AfterTaskShift(Tallied(tasks[..i], run, interval), base, i + 1, run(tasks[i]), tasks[i].taskId, interval);
      completed, failed := RunOne(projectId, tasks[i], i + 1, run, autoPr, interval, now,
        store, tracker, session, completed, failed);
      i := i + 1;
    }
    assert tasks[..i] == tasks;
  }

  /**
   * What `execute_tasks` leaves behind for `tasks`, from the store's records `before`: the
   * summary of the tally; the session finished with it, its last checkpoint the final
   * one; the store and the tracker as running the tasks leaves them, starting from a
   * tracker that lists every task as pending; the tracker's execution ended at `now`.
   */
  ghost predicate Executed(summary: Summary, projectId: string, tasks: seq<TSM.TaskState>, run: Runner, autoPr: bool,
                           interval: int, now: real, before: Records,
                           store: TSM.TaskStore, tracker: PT.Tracker, session: Session)
    reads store, tracker, session
  {
    && summary == SummaryOf(Tallied(tasks, run, interval), |tasks|)
    && session.status == Finished(summary)
    && |session.checkpoints| > 0 && session.checkpoints[|session.checkpoints| - 1] == Final(summary)
    && store.tasks == StoreRun(before, projectId, tasks, run, autoPr, interval, now)
    && tracker.tasks == BoardRun(PT.Initial(Specs(tasks)).tasks, tasks, run, interval, now)
    && tracker.order == PT.Initial(Specs(tasks)).order
    && tracker.endTime == Some(now) && tracker.Valid()
  }

  /**
   * The body of `execute_tasks` once there are tasks and a session: start the tracker,
   * run the tasks, complete the session with the summary and a final checkpoint.
   */
  method Execute(projectId: string, tasks: seq<TSM.TaskState>, run: Runner, autoPr: bool, interval: int, now: real,
                 store: TSM.TaskStore, tracker: PT.Tracker, session: Session)
      returns (summary: Summary)
    requires tasks != []
    modifies store, tracker, session
    ensures Executed(summary, projectId, tasks, run, autoPr, interval, now, old(store.tasks), store, tracker, session)
  {
    StartTracking(session.sessionId, tasks, now, tracker);
    var completed, failed := RunAll(projectId, tasks, run, autoPr, interval, now, store, tracker, session);
    SummaryOfCounters(Recorded(completed, failed, session), Tallied(tasks, run, interval), |tasks|);
    summary := SummaryOf(Recorded(completed, failed, session), |tasks|);
    Finish(summary, now, tracker, session);
  }

  /** The tracker starts an execution over the tasks: every task pending, in order. */
  method StartTracking(executionId: string, tasks: seq<TSM.TaskState>, now: real, tracker: PT.Tracker)
    modifies tracker
    ensures tracker.tasks == PT.Initial(Specs(tasks)).tasks && tracker.order == PT.Initial(Specs(tasks)).order
    ensures tracker.Valid()
  {
    tracker.StartExecution(executionId, Specs(tasks), now);
  }

  /** The session is completed with the summary and a final checkpoint; the tracker's execution ends. */
  method Finish(summary: Summary, now: real, tracker: PT.Tracker, session: Session)
    requires tracker.Valid()
    modifies tracker, session
    ensures session.status == Finished(summary)
    ensures session.checkpoints == old(session.checkpoints) + [Final(summary)]
    ensures tracker.tasks == old(tracker.tasks) && tracker.order == old(tracker.order)
    ensures tracker.endTime == Some(now) && tracker.Valid()
  {
    session.status := Finished(summary);
    tracker.EndExecution(now);
    session.checkpoints := session.checkpoints + [Final(summary)];
  }

  // ---------------------------------------------------------------------------------
  // The executor
  // ---------------------------------------------------------------------------------

  class Executor {
    const projectId: string
    const store: TSM.TaskStore
    const tracker: PT.Tracker
    var session: Session?

    constructor (projectId: string, store: TSM.TaskStore, tracker: PT.Tracker, session: Session?)
      ensures this.projectId == projectId && this.store == store && this.tracker == tracker && this.session == session
    {
      this.projectId := projectId;
      this.store := store;
      this.tracker := tracker;
      this.session := session;
    }

    /**
     * `_get_remaining_tasks`: the project's tasks, in listing order, that the session
     * has not recorded as completed; none without a session.
     */
    function GetRemainingTasks(listing: seq<string>): (r: seq<TSM.TaskState>)
      reads this, store, session
      ensures session == null ==> r == []
      ensures session != null ==> forall t :: t in r <==>
        t in store.LoadAllTasks(projectId, listing) && t.taskId !in session.completedTaskIds
    {
      if session == null then []
      else
        var done := session.completedTaskIds;
        Where(store.LoadAllTasks(projectId, listing), (t: TSM.TaskState) => t.taskId !in done)
    }

    /**
     * The tasks `execute_tasks` works on: those given; if none, the remaining tasks of a
     * resumable session; otherwise freshly generated ones.
     */
    function ChosenTasks(tasks: seq<TSM.TaskState>, listing: seq<string>, generated: seq<TSM.TaskState>): seq<TSM.TaskState>
      reads this, store, session
    {
      if tasks != [] then tasks
      else if session != null && session.resumable then GetRemainingTasks(listing)
      else generated
    }

    /** Pick the tasks, and open a session for them when there is none. */
    method Prepare(tasks: seq<TSM.TaskState>, listing: seq<string>, generated: seq<TSM.TaskState>, newSessionId: string)
        returns (chosen: seq<TSM.TaskState>)
      modifies this
      ensures chosen == old(ChosenTasks(tasks, listing, generated))
      ensures chosen == [] ==> session == old(session)
      ensures chosen != [] ==> session != null
      ensures chosen != [] && old(session) == null ==> fresh(session) && session.sessionId == newSessionId
      ensures chosen != [] && old(session) != null ==> session == old(session)
      ensures session != null ==> session.status == old(if session == null then Active else session.status)
    {
      chosen := ChosenTasks(tasks, listing, generated);
      if chosen != [] && session == null {
        session := new Session(newSessionId);
      }
    }

    /**
     * `execute_tasks` as intended: no tasks is an error; otherwise the tracker starts an
     * execution over the tasks, every task is run and counted, and the session is
     * completed with the summary and a final checkpoint.
     */
    method ExecuteTasks(tasks: seq<TSM.TaskState>, listing: seq<string>, generated: seq<TSM.TaskState>,
                        run: Runner, autoPr: bool, interval: int, now: real, newSessionId: string)
        returns (r: Result<Summary>)
      modifies this, store, tracker, session
      ensures var chosen := old(ChosenTasks(tasks, listing, generated));
        && (chosen == [] ==> r == Err(NoTasksError))
        && (chosen != [] ==>
              && r.Ok? && session != null
              && Executed(r.value, projectId, chosen, run, autoPr, interval, now, old(store.tasks), store, tracker, session))
    {
      var chosen := Prepare(tasks, listing, generated, newSessionId);
      if chosen == [] {
        return Err(NoTasksError);
      }
      var summary := Execute(projectId, chosen, run, autoPr, interval, now, store, tracker, session);
      r := Ok(summary);
    }

    /**
     * `execute_tasks` as written: the progress tracker is started with keyword arguments
     * its `start_execution` does not accept, so once there are tasks the call raises,
     * the session is marked failed and no task runs.
     */
    method ExecuteTasksAsWritten(tasks: seq<TSM.TaskState>, listing: seq<string>, generated: seq<TSM.TaskState>,
                                 newSessionId: string)
        returns (r: Result<Summary>)
      modifies this, session
      ensures var chosen := old(ChosenTasks(tasks, listing, generated));
        && (chosen == [] ==> r == Err(NoTasksError))
        && (chosen != [] ==>
              && r == Err(StartExecutionTypeError)
              && session != null && session.status == Aborted(StartExecutionTypeError))
    {
      var chosen := Prepare(tasks, listing, generated, newSessionId);
      if chosen == [] {
        return Err(NoTasksError);
      }
      session.status := Aborted(StartExecutionTypeError);
      r := Err(StartExecutionTypeError);
    }
  }
}
