/**
 * The first autonomous executor. It runs the generated website tasks one after another,
 * keeping one counter per kind of outcome:
 *   - success counts as completed;
 *   - "failed" counts as failed;
 *   - any other status counts as skipped;
 *   - an exception counts as failed.
 * With `auto_pr` it opens a pull request for every completed task. It logs every task
 * that did not raise.
 *
 * The task handlers only simulate the work. They are modelled as they are written:
 *   - every handler succeeds;
 *   - a page task without a page name raises before its handler's `try`;
 *   - a page or feature task without a prompt fails inside it.
 * The tally is proved for any runner and any pull-request creator. Timestamps, the
 * two-second pause between tasks and the printed summary are not part of this model.
 */
module AutonomousExecutor {
  import opened Wrappers
  import Strings

  /** One generated task; `page_name` and `prompt` are keys only some tasks carry. */
  datatype Task = Task(id: string, title: string, priority: string, taskType: string, pageName: Option<string>, prompt: Option<string>)

  /** A pull-request result. */
  datatype PrResult = PrResult(success: bool, branchName: string, title: string)

  /** One entry of `task_results`; `detail` is the error text of a failure or an exception. */
  datatype TaskResult = TaskResult(taskId: string, status: string, detail: string, pr: Option<PrResult>)

  /** What running one task gives back. */
  datatype Outcome = Returned(result: TaskResult) | Raised(message: string)

  type Runner = Task -> Outcome
  type PrCreator = (Task, TaskResult) -> PrResult

  const SuccessStatus := "success"
  const FailedStatus := "failed"
  const ErrorStatus := "error"

  // ---------------------------------------------------------------------------------
  // One task
  // ---------------------------------------------------------------------------------

  datatype Handler = PageCreation | FeatureAddition | Fix | Security | Optimization | Generic

  /** `_execute_single_task`'s dispatch on the task type; an unknown type goes to the generic handler. */
  function HandlerFor(taskType: string): (h: Handler)
    ensures h == PageCreation <==> taskType == "create_page"
    ensures h == FeatureAddition <==> taskType == "add_feature"
    ensures h == Fix <==> taskType == "fix"
    ensures h == Security <==> taskType == "security"
    ensures h == Optimization <==> taskType == "optimize"
    ensures h == Generic <==> taskType !in {"create_page", "add_feature", "fix", "security", "optimize"}
  {
    if taskType == "create_page" then PageCreation
    else if taskType == "add_feature" then FeatureAddition
    else if taskType == "fix" then Fix
    else if taskType == "security" then Security
    else if taskType == "optimize" then Optimization
    else Generic
  }

  /** The message of the `KeyError` a missing key raises. */
  function KeyErrorMessage(key: string): string
  {
    "'" + key + "'"
  }

  /** Running one task with the built-in handlers. */
  function ExecuteSingle(task: Task): (o: Outcome)
    ensures o.Raised? <==> HandlerFor(task.taskType) == PageCreation && task.pageName.None?
    ensures o.Returned? ==> o.result.taskId == task.id && o.result.pr == None
    ensures o.Returned? ==> (o.result.status == FailedStatus <==>
      HandlerFor(task.taskType) in {PageCreation, FeatureAddition} && task.prompt.None?)
    ensures o.Returned? ==> o.result.status in {SuccessStatus, FailedStatus}
  {
    match HandlerFor(task.taskType)
    case PageCreation =>
      if task.pageName.None? then Raised(KeyErrorMessage("page_name"))
      else if task.prompt.None? then Returned(TaskResult(task.id, FailedStatus, KeyErrorMessage("prompt"), None))
      else Returned(TaskResult(task.id, SuccessStatus, "Created professional " + task.pageName.value + " page with all required elements", None))
    case FeatureAddition =>
      if task.prompt.None? then Returned(TaskResult(task.id, FailedStatus, KeyErrorMessage("prompt"), None))
      else Returned(TaskResult(task.id, SuccessStatus, "Successfully implemented " + task.title, None))
    case Fix => Returned(TaskResult(task.id, SuccessStatus, "Fixed " + task.title, None))
    case Security => Returned(TaskResult(task.id, SuccessStatus, "Implemented " + task.title, None))
    case Optimization => Returned(TaskResult(task.id, SuccessStatus, "Optimized " + task.title, None))
    case Generic => Returned(TaskResult(task.id, SuccessStatus, "Completed " + task.title, None))
  }

  /** The pull-request title: the upper-cased priority in brackets, then the task title. */
  function PrTitle(task: Task): (r: string)
    ensures |r| == |task.priority| + 3 + |task.title|
    ensures r[0] == '[' && r[1..|task.priority| + 1] == Strings.Upper(task.priority)
    ensures r[|task.priority| + 1..|task.priority| + 3] == "] " && r[|task.priority| + 3..] == task.title
  {
    "[" + Strings.Upper(task.priority) + "] " + task.title
  }

  /** The branch name, from the task id and type and the creation time stamp. */
  function BranchName(task: Task, stamp: string): (r: string)
    ensures |r| == 7 + |task.id| + |task.taskType| + |stamp|
    ensures r[..5] == "task-" && r[5..5 + |task.id|] == task.id
    ensures r[5 + |task.id|] == '-' && r[6 + |task.id|..6 + |task.id| + |task.taskType|] == task.taskType
  {
    "task-" + task.id + "-" + task.taskType + "-" + stamp
  }

  /** `_create_pr_for_task` as written: it always reports success. */
  function CreatePr(stamp: string): (create: PrCreator)
    ensures forall task, result :: create(task, result).success
    ensures forall task, result :: create(task, result).branchName == BranchName(task, stamp)
    ensures forall task, result :: create(task, result).title == PrTitle(task)
  {
    (task, result) => PrResult(true, BranchName(task, stamp), PrTitle(task))
  }

  // ---------------------------------------------------------------------------------
  // The run, as a function of the tasks
  // ---------------------------------------------------------------------------------

  datatype Results = Results(totalTasks: nat, completed: nat, failed: nat, skipped: nat, prsCreated: nat, taskResults: seq<TaskResult>)

  /** One execution-log entry. */
  datatype LogEntry = LogEntry(taskId: string, taskTitle: string, status: string)

  datatype Run = Run(results: Results, log: seq<LogEntry>)

  /** The results and the log after one more task. */
  function AfterTask(r: Run, task: Task, autoPr: bool, run: Runner, pr: PrCreator): Run
  {
    var res := r.results;
    match run(task)
    case Raised(message) =>
      Run(res.(failed := res.failed + 1, taskResults := res.taskResults + [TaskResult(task.id, ErrorStatus, message, None)]), r.log)
    case Returned(result) =>
      var updated :=
        if result.status == SuccessStatus then
          if autoPr then
            var p := pr(task, result);
            (res.(completed := res.completed + 1, prsCreated := res.prsCreated + if p.success then 1 else 0), result.(pr := Some(p)))
          else (res.(completed := res.completed + 1), result)
        else if result.status == FailedStatus then (res.(failed := res.failed + 1), result)
        else (res.(skipped := res.skipped + 1), result);
      var res', result' := updated.0, updated.1;
      Run(res'.(taskResults := res'.taskResults + [result']), r.log + [LogEntry(task.id, task.title, result.status)])
  }

  /** The results and the log after running `tasks` in order. */
  function Executed(tasks: seq<Task>, log: seq<LogEntry>, autoPr: bool, run: Runner, pr: PrCreator): Run
  {
    if tasks == [] then Run(Results(0, 0, 0, 0, 0, []), log)
    else
      var r := Executed(tasks[..|tasks| - 1], log, autoPr, run, pr);
      AfterTask(r, tasks[|tasks| - 1], autoPr, run, pr)
  }

  predicate Succeeds(o: Outcome)
  {
    o.Returned? && o.result.status == SuccessStatus
  }

  predicate Fails(o: Outcome)
  {
    o.Raised? || o.result.status == FailedStatus
  }

  /** The number of tasks whose run satisfies `p`. */
  function CountOf(tasks: seq<Task>, run: Runner, p: Outcome -> bool): nat
  {
    if tasks == [] then 0 else CountOf(tasks[..|tasks| - 1], run, p) + if p(run(tasks[|tasks| - 1])) then 1 else 0
  }

  /** The number of tasks that did not raise. */
  function Logged(tasks: seq<Task>, run: Runner): nat
  {
    CountOf(tasks, run, (o: Outcome) => o.Returned?)
  }

  /**
   * Every task increments exactly one counter; the completed counter counts the
   * successes and the failed counter the failures and exceptions. There is one task
   * result per task, in order, and one log entry per task that did not raise.
   */
  lemma {:induction false} ExecutedTally(tasks: seq<Task>, log: seq<LogEntry>, autoPr: bool, run: Runner, pr: PrCreator)
    ensures var r := Executed(tasks, log, autoPr, run, pr);
      r.results.completed + r.results.failed + r.results.skipped == |tasks| &&
      r.results.completed == CountOf(tasks, run, Succeeds) &&
      r.results.failed == CountOf(tasks, run, Fails) &&
      |r.results.taskResults| == |tasks| &&
      (forall i :: 0 <= i < |tasks| ==> r.results.taskResults[i].taskId == tasks[i].id || run(tasks[i]).Returned?) &&
      |r.log| == |log| + Logged(tasks, run) && r.log[..|log|] == log
  {
    if tasks != [] {
      var init := tasks[..|tasks| - 1];
      ExecutedTally(init, log, autoPr, run, pr);
      var q := Executed(init, log, autoPr, run, pr);
      var r := Executed(tasks, log, autoPr, run, pr);
      assert r.results.taskResults[..|init|] == q.results.taskResults;
      forall i | 0 <= i < |tasks| ensures r.results.taskResults[i].taskId == tasks[i].id || run(tasks[i]).Returned? {
        if i < |init| {
          assert r.results.taskResults[i] == q.results.taskResults[i];
        }
      }
      assert r.log[..|log|] == q.log[..|log|];
    }
  }

  /**
   * Pull requests: none without `auto_pr`, never more than the completed tasks, and one
   * per completed task when every creation succeeds.
   */
  lemma {:induction false} ExecutedPrs(tasks: seq<Task>, log: seq<LogEntry>, autoPr: bool, run: Runner, pr: PrCreator)
    ensures var r := Executed(tasks, log, autoPr, run, pr);
      r.results.prsCreated <= r.results.completed &&
      (!autoPr ==> r.results.prsCreated == 0) &&
      (autoPr && (forall t, res :: pr(t, res).success) ==> r.results.prsCreated == r.results.completed)
  {
    if tasks != [] {
      ExecutedPrs(tasks[..|tasks| - 1], log, autoPr, run, pr);
    }
  }

  /**
   * With the built-in handlers no task is ever skipped, and with `auto_pr` every
   * completed task gets a pull request.
   */
  lemma {:induction false} BuiltInNeverSkips(tasks: seq<Task>, log: seq<LogEntry>, stamp: string)
    ensures var r := Executed(tasks, log, true, ExecuteSingle, CreatePr(stamp));
      r.results.skipped == 0 && r.results.prsCreated == r.results.completed
  {
    if tasks != [] {
      BuiltInNeverSkips(tasks[..|tasks| - 1], log, stamp);
      var t := tasks[|tasks| - 1];
      assert CreatePr(stamp)(t, TaskResult(t.id, SuccessStatus, "", None)).success;
    }
  }

  // ---------------------------------------------------------------------------------
  // The executor
  // ---------------------------------------------------------------------------------

  class Executor {
    var executionLog: seq<LogEntry>

    constructor ()
      ensures executionLog == []
    {
      executionLog := [];
    }

    /** `execute_tasks`. */
    method ExecuteTasks(tasks: seq<Task>, autoPr: bool, run: Runner, pr: PrCreator) returns (results: Results)
      modifies this
      ensures Run(results.(totalTasks := 0), executionLog) == Executed(tasks, old(executionLog), autoPr, run, pr)
      ensures results.totalTasks == |tasks|
    {
      ghost var log0 := executionLog;
      var res := Results(0, 0, 0, 0, 0, []);
      for i := 0 to |tasks|
        invariant res.totalTasks == 0
        invariant Run(res, executionLog) == Executed(tasks[..i], log0, autoPr, run, pr)
      {
        var task := tasks[i];
        assert tasks[..i + 1][..i] == tasks[..i];
        match run(task)
        case Raised(message) =>
          res := res.(failed := res.failed + 1, taskResults := res.taskResults + [TaskResult(task.id, ErrorStatus, message, None)]);
        case Returned(result) =>
          var result' := result;
          if result.status == SuccessStatus {
            res := res.(completed := res.completed + 1);
            if autoPr {
              var p := pr(task, result);
              if p.success {
                res := res.(prsCreated := res.prsCreated + 1);
              }
              result' := result.(pr := Some(p));
            }
          } else if result.status == FailedStatus {
            res := res.(failed := res.failed + 1);
          } else {
            res := res.(skipped := res.skipped + 1);
          }
          res := res.(taskResults := res.taskResults + [result']);
          executionLog := executionLog + [LogEntry(task.id, task.title, result.status)];
      }
      assert tasks[..|tasks|] == tasks;
      results := res.(totalTasks := |tasks|);
    }
  }
}
