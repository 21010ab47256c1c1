# Autonomous agent core, modelled in Dafny

This project models the task-continuity and safe-edit machinery of a distributed AI
agent system that develops and maintains web projects on its own. These are the parts
of the system that keep its state and decide what happens next:

- **Task state.** The persistent task store keeps task records by project and task id.
  It moves tasks through start, completion and failure with bounded retries, picks the
  next ready task by dependencies and priority, and counts tasks per status. The
  progress tracker and the continuity executor record every task's lifecycle and
  checkpoint the execution session. The project orchestrator runs an execution plan
  with dependency gating and a stop on critical failures. The first autonomous executor
  tallies the outcomes of its tasks.
- **Safe editing.** The shadow workspace stages file contents in memory in front of the
  real files. The AI file surgeon vets a model's rewrite of a file. The production
  agent and the cost-optimised agent run bounded self-correction loops around the
  TypeScript compiler. The file editor and the smart editor make targeted text edits.
- **Keyed stores.** These are the context manager, the project memory, the API key
  manager with its sliding-window rate limiter, and the knowledge graph of components
  with paired dependency edges and transitive queries.
- **Text and list processing.** This covers the todo parsers of the three driver
  scripts, the deployment task list, the task generator's numbering, sorting and time
  estimates, the coaching-standards gaps and recommendations, the research-response
  parser, the file-path filter, the website structure classifier and crawl
  bookkeeping, the learning engine's classifiers, the LLM retry policy and the health
  monitor's service transitions.

Each source file is one Dafny module of the same name. Shared modules hold Python's
string and list behaviour (`Strings`, `Lists`, `Sorting`), option and result values
(`Wrappers`), dynamically typed values (`Values`), a filesystem (`Files`) and a few
facts about division (`Arith`). Code that updates objects in place is modelled as
classes with `modifies` clauses. Their methods run the source's loops and are proved
against specification functions, and the properties of those functions are proved as
lemmas.

Everything the system reaches outside itself is a parameter of the model:

- language-model calls;
- the TypeScript compiler;
- HTTP responses and the health checks;
- the docker restart;
- the clock and the random jitter;
- regular-expression matches;
- the SHA-256 and MD5 digests.

JSON files on disk are modelled as in-memory maps.

## Model

| member | source | states |
|---|---|---|
| AIFileSurgeon.CheckEdit | shared/autonomous/ai_file_surgeon.py:88-116 | an exception fails with its text; a stripped reply starting with `ERROR:` fails; a reply shorter than half the current content fails as truncated; otherwise, and only then, the stripped reply is the new content |
| AIFileSurgeon.ErrorReplyReportsExplanation | shared/autonomous/ai_file_surgeon.py:91-95 | a refusal `ERROR: <explanation>` reports exactly the explanation |
| AIFileSurgeon.FullReplyAccepted | shared/autonomous/ai_file_surgeon.py:97-108 | a trimmed reply that is not a refusal and is at least as long as the file is accepted unchanged |
| AIFileSurgeon.CheckCreate | shared/autonomous/ai_file_surgeon.py:206-224 | `create_file` succeeds exactly when the stripped reply has at least ten characters, and then returns it; an exception fails with its text |
| AIFileSurgeon.RunChain | shared/autonomous/ai_file_surgeon.py:145-153 | the number of edits applied never exceeds the intents, and the run has no failure exactly when every intent was applied |
| AIFileSurgeon.RunChainStopsAtFailure | shared/autonomous/ai_file_surgeon.py:145-153 | a failed run stops at the failing edit: the edits before it succeed and produce the returned content, and that edit fails on it |
| AIFileSurgeon.RunChainAppend | shared/autonomous/ai_file_surgeon.py:145-153 | applying two lists of edits one after the other is applying their concatenation |
| AIFileSurgeon.Report | shared/autonomous/ai_file_surgeon.py:155-160 | the intended report: success iff no errors, at most one error, and the edit count is the number of edits that succeeded |
| AIFileSurgeon.ReportAsWritten | shared/autonomous/ai_file_surgeon.py:155-160 | the report as written: success iff no errors, and the edit count is the number of intents minus the number of errors |
| AIFileSurgeon.ApplyEdits | shared/autonomous/ai_file_surgeon.py:142-153 | the loop leaves the content and count of `RunChain`, and records the failure as `Edit i: error` |
| AIFileSurgeon.ApplyMultipleEditsAsWritten | shared/autonomous/ai_file_surgeon.py:118-160 | `apply_multiple_edits` as written returns `ReportAsWritten` of the run |
| AIFileSurgeon.ApplyMultipleEdits | shared/autonomous/ai_file_surgeon.py:118-160 | `apply_multiple_edits` with the count corrected returns `Report` of the run |
| AIFileSurgeon.EditsAppliedMiscount | shared/autonomous/ai_file_surgeon.py:158 | with two intents and a model that always raises, no edit is applied, but the count as written is 1 |
| AIFileSurgeon.Committed | shared/autonomous/ai_file_surgeon.py:256-277 | after committing, a path holds its staged copy unless it cannot be written; every other file is unchanged |
| AIFileSurgeon.CommitResults | shared/autonomous/ai_file_surgeon.py:272-277 | `commit_all` gives one result per staged path, true exactly when the path can be written |
| AIFileSurgeon.ShadowWorkspace.constructor | shared/autonomous/ai_file_surgeon.py:234-236 | a new workspace stages nothing |
| AIFileSurgeon.ShadowWorkspace.LoadFile | shared/autonomous/ai_file_surgeon.py:238-250 | returns the staged copy if there is one, else the file on disk, which is staged from then on; a missing file reads as empty and stages nothing; no path's view changes |
| AIFileSurgeon.ShadowWorkspace.UpdateFile | shared/autonomous/ai_file_surgeon.py:252-254 | stages the content; the disk is untouched |
| AIFileSurgeon.ShadowWorkspace.Commit | shared/autonomous/ai_file_surgeon.py:256-270 | succeeds exactly when the path is staged and writable; then the disk holds the staged copy, otherwise nothing changes |
| AIFileSurgeon.ShadowWorkspace.CommitAll | shared/autonomous/ai_file_surgeon.py:272-277 | writes every writable staged file and reports `CommitResults` for all staged paths |
| AIFileSurgeon.ShadowWorkspace.CommitEach | shared/autonomous/ai_file_surgeon.py:274-276 | the commit loop over a set of staged paths writes exactly those that are writable |
| AIFileSurgeon.ShadowWorkspace.Rollback | shared/autonomous/ai_file_surgeon.py:279-282 | drops the staged copy; the path shows the disk again |
| AIFileSurgeon.ShadowWorkspace.RollbackAll | shared/autonomous/ai_file_surgeon.py:284-286 | drops every staged copy; every path shows the disk |
| AutonomousExecutor.HandlerFor | shared/autonomous/autonomous_executor.py:111-124 | each of the five task types goes to its own handler, and exactly the other types go to the generic one |
| AutonomousExecutor.ExecuteSingle | shared/autonomous/autonomous_executor.py:101-277 | a handler raises only for a page task without a page name; a returned result carries the task id and no pull request, and is failed exactly for a page or feature task without a prompt |
| AutonomousExecutor.PrTitle | shared/autonomous/autonomous_executor.py:296 | the pull-request title is `[`, the upper-cased priority, `] `, then the task title |
| AutonomousExecutor.CreatePr | shared/autonomous/autonomous_executor.py:279-335 | as written, the pull-request step always reports success, with the branch name and title built from the task |
| AutonomousExecutor.BranchName | shared/autonomous/autonomous_executor.py:294 | the branch is `task-<id>-<type>-<stamp>` |
| AutonomousExecutor.ExecutedTally | shared/autonomous/autonomous_executor.py:42-90 | every task increments exactly one counter; completed counts successes, failed counts failures and exceptions; one task result per task; one log entry per task that did not raise, appended after the old log |
| AutonomousExecutor.ExecutedPrs | shared/autonomous/autonomous_executor.py:52-62 | no pull requests without `auto_pr`, never more than the completed tasks, and one per completed task when every creation succeeds |
| AutonomousExecutor.BuiltInNeverSkips | shared/autonomous/autonomous_executor.py:101-335 | with the built-in handlers no task is skipped, and with `auto_pr` every completed task gets a pull request |
| AutonomousExecutor.Executor.constructor | shared/autonomous/autonomous_executor.py:14-16 | a new executor has an empty log |
| AutonomousExecutor.Executor.ExecuteTasks | shared/autonomous/autonomous_executor.py:18-99 | the task loop produces the counters, results and log of the `Executed` specification, and records the number of tasks |
| ExecutorV2.Session.constructor | shared/autonomous/autonomous_executor_v2.py:213-221 | a new session is active and not resumable, with no current task, no recorded tasks and no checkpoints |
| ExecutorV2.TalliedCounts | shared/autonomous/autonomous_executor_v2.py:235-321 | completed counts the successful runs; with a non-zero interval completed and failed add up to the number of tasks; with interval 0 every task is counted failed and every reported failure once more (the checkpoint test raises); the session lists name the successful and the failed tasks in order |
| ExecutorV2.CheckpointCadence | shared/autonomous/autonomous_executor_v2.py:301-312 | when no run raises, `n / interval` checkpoints are written for n tasks |
| ExecutorV2.CheckpointContents | shared/autonomous/autonomous_executor_v2.py:301-312 | when no run raises, the j-th checkpoint is taken after task (j+1)·interval, so its two counters add up to that number |
| ExecutorV2.TalliedTotal | shared/autonomous/autonomous_executor_v2.py:235-321 | with a non-zero interval every task raises exactly one of the two counters |
| ExecutorV2.NewCheckpoint | shared/autonomous/autonomous_executor_v2.py:301-312 | the last task adds a checkpoint of the counters after it exactly when its position is a multiple of the interval |
| ExecutorV2.SummaryOf | shared/autonomous/autonomous_executor_v2.py:324-329 | the summary carries total, completed and failed, and its percentage is completed·100/total, 0 with no tasks |
| ExecutorV2.StartedRecord | shared/autonomous/autonomous_executor_v2.py:252 | `start_task` leaves the task's ids, retry limit and retry count alone and makes it running |
| ExecutorV2.CompletedRecord | shared/autonomous/autonomous_executor_v2.py:263-267 | `complete_task` makes the task completed with progress 100, the run's result and the completion time, retries untouched |
| ExecutorV2.FailedRecord | shared/autonomous/autonomous_executor_v2.py:285-290 | `fail_task` records the error and one more retry; the task is retrying while retries remain and failed once they are used up |
| ExecutorV2.LinkedRecord | shared/autonomous/autonomous_executor_v2.py:434-444 | the pull request's address and `task-<id>` branch are written to the task's extra attributes; status and retries are untouched |
| ExecutorV2.PrLinked | shared/autonomous/autonomous_executor_v2.py:437-444 | the store's `update_task` with the pull-request dictionary changes exactly the two extra attributes `pr_url` and `branch_name` |
| ExecutorV2.StoreAfterRecord | shared/autonomous/autonomous_executor_v2.py:244-321 | in a store whose records sit under their own ids, one task's iteration changes only that task's record and adds none; the record is settled (`Settled`) after the number of failures the outcome gives (`Failures`) |
| ExecutorV2.RaisedChanges | shared/autonomous/autonomous_executor_v2.py:314-319 | a run that raises leaves the task started and then failed once |
| ExecutorV2.SucceededChanges | shared/autonomous/autonomous_executor_v2.py:262-283 | a successful run leaves the task completed, with the pull-request data when asked for, unless the checkpoint test raises, which fails it once |
| ExecutorV2.UnsuccessfulChanges | shared/autonomous/autonomous_executor_v2.py:285-319 | a run that reports failure fails the task once, twice when the checkpoint test raises |
| ExecutorV2.StoreRunFiled | shared/autonomous/autonomous_executor_v2.py:238-321 | the task loop adds no record to the store and keeps every record under its own ids |
| ExecutorV2.StoreRunUntouched | shared/autonomous/autonomous_executor_v2.py:238-321 | the loop leaves the records of other projects and of tasks it does not run as they were |
| ExecutorV2.StoreRunSettles | shared/autonomous/autonomous_executor_v2.py:238-321 | with distinct task ids, each task the store holds ends settled after its own run: completed exactly when the run succeeded and the checkpoint test passed, otherwise retrying or failed with one retry counted per failure |
| ExecutorV2.StoreRunRecord | shared/autonomous/autonomous_executor_v2.py:238-321 | the same for every task of the run at once |
| ExecutorV2.BoardAfterRecord | shared/autonomous/autonomous_executor_v2.py:244-321 | one iteration changes only the task's own tracker record, adds none, and leaves it completed when the run succeeded and the checkpoint test passed, failed at `now` otherwise |
| ExecutorV2.BoardRunRecord | shared/autonomous/autonomous_executor_v2.py:238-321 | with distinct task ids, after the loop every tracked task is completed exactly when its run succeeded and the checkpoint test passed, failed otherwise; untracked ids are not added and other records are untouched |
| ExecutorV2.ExecutedBoard | shared/autonomous/autonomous_executor_v2.py:227-321 | after `execute_tasks` with distinct task ids the tracker holds a record for every task, completed exactly when its run succeeded and the checkpoint test passed |
| ExecutorV2.FailInStores | shared/autonomous/autonomous_executor_v2.py:314-319 | a raised run is failed in the store (`StoreFailed`) and in the tracker (`BoardFailed`) with the exception's message |
| ExecutorV2.StartInStores | shared/autonomous/autonomous_executor_v2.py:244-252 | the tracker's record is set to progress 0 and the store's record is started |
| ExecutorV2.Begin | shared/autonomous/autonomous_executor_v2.py:244-257 | starting a task starts it in the store and the tracker and makes it the session's current task, changing none of the session's lists, checkpoints or status |
| ExecutorV2.CompleteInStores | shared/autonomous/autonomous_executor_v2.py:262-283 | a successful run is completed in the store and the tracker; with `auto_pr` the store's record then also gets the pull request's address and branch |
| ExecutorV2.RecordSuccess | shared/autonomous/autonomous_executor_v2.py:262-283 | the store and tracker as `CompleteInStores` says, and the task appended to the session's completed list; its failed list, checkpoints and status are unchanged |
| ExecutorV2.RecordFailure | shared/autonomous/autonomous_executor_v2.py:284-299 | the task is failed in the store and the tracker with the run's error (`Unknown error` when it has none) and appended to the session's failed list; its completed list, checkpoints and status are unchanged |
| ExecutorV2.Checkpoint | shared/autonomous/autonomous_executor_v2.py:301-321 | a checkpoint of the counters is appended exactly at multiples of a non-zero interval; with interval 0 the modulo raises, and the task is failed in the store and the tracker and counted failed once more |
| ExecutorV2.RunOne | shared/autonomous/autonomous_executor_v2.py:238-321 | one loop iteration moves the counters and the session's lists and checkpoints exactly as `AfterTask` says, and the store and the tracker as `StoreAfter` and `BoardAfter` say, for every outcome including a raised exception |
| ExecutorV2.Record | shared/autonomous/autonomous_executor_v2.py:262-312 | a run that returned is recorded as `AfterTask`, `StoreOutcome` and `BoardOutcome` say |
| ExecutorV2.AfterTaskShift | shared/autonomous/autonomous_executor_v2.py:238-321 | what one iteration appends does not depend on what the session already held |
| ExecutorV2.RunAll | shared/autonomous/autonomous_executor_v2.py:234-321 | the task loop leaves counters and session lists equal to `Tallied` of the tasks, appended to what the session held, the store as `StoreRun` and the tracker as `BoardRun` say |
| ExecutorV2.StartTracking | shared/autonomous/autonomous_executor_v2.py:223-227 | the tracker's table becomes the initial table of the tasks |
| ExecutorV2.Finish | shared/autonomous/autonomous_executor_v2.py:332-342 | the session is completed with the summary and gets the final checkpoint; the tracker's execution ends and its records are kept |
| ExecutorV2.Execute | shared/autonomous/autonomous_executor_v2.py:223-351 | `Executed`: the summary is `SummaryOf` the tally; the session is completed with it and its last checkpoint is the final one; the store is `StoreRun` of the tasks and the tracker `BoardRun` from the initial table; the tracker's execution has ended |
| ExecutorV2.Executor.constructor | shared/autonomous/autonomous_executor_v2.py:37-56 | the executor holds the given project, store, tracker and session |
| ExecutorV2.Executor.GetRemainingTasks | shared/autonomous/autonomous_executor_v2.py:359-372 | no tasks without a session; otherwise a task is returned exactly when it is one of the project's stored tasks and the session has not recorded it as completed |
| ExecutorV2.Executor.Prepare | shared/autonomous/autonomous_executor_v2.py:198-221 | the chosen tasks are the given ones, else the remaining ones of a resumable session, else generated ones; a fresh session is opened for them when there is none, and an existing one is kept |
| ExecutorV2.Executor.ExecuteTasks | shared/autonomous/autonomous_executor_v2.py:176-357 | as intended: no tasks is an error; otherwise the summary is returned and the session, the store and the tracker end as `Executed` says |
| ExecutorV2.Executor.ExecuteTasksAsWritten | shared/autonomous/autonomous_executor_v2.py:223-227 | as written: once there are tasks, `start_execution` is called with keyword arguments it does not accept, so the run returns that error, the session is marked failed and no task runs |
| CoachingStandards.Gaps | shared/autonomous/coaching_standards.py:262-275 | there are never more gaps than required pages |
| CoachingStandards.GapsAppend | shared/autonomous/coaching_standards.py:265-273 | gaps follow the page table's order: the gaps of two tables in a row are the gaps of each, in a row |
| CoachingStandards.GapsMembers | shared/autonomous/coaching_standards.py:265-273 | a required page yields a gap exactly when the site lacks it (absent or false), and every gap comes from such a page |
| CoachingStandards.AnalyzeGaps | shared/autonomous/coaching_standards.py:252-275 | the loop returns the gaps of the required-page table against the site's structure |
| CoachingStandards.StructureRecommendationInjective | shared/autonomous/coaching_standards.py:294-302 | two gaps with the same structure recommendation are the same gap |
| CoachingStandards.StructureRecommendations | shared/autonomous/coaching_standards.py:294-302 | one structure recommendation per gap, in gap order |
| CoachingStandards.GenerateRecommendations | shared/autonomous/coaching_standards.py:278-341 | the loop and the sort return the recommendations of the analysis |
| CoachingStandards.RecommendationsOrdered | shared/autonomous/coaching_standards.py:289-341 | the recommendations are sorted by priority rank, the sort is stable (each rank keeps production order) and there is one per gap plus one per failed check |
| CoachingStandards.InUnsorted | shared/autonomous/coaching_standards.py:305-331 | a contact-form, SSL or speed recommendation is produced exactly when its check fails |
| CoachingStandards.ConditionalRecommendations | shared/autonomous/coaching_standards.py:308-331 | the contact-form recommendation appears iff there is no contact form, the SSL one iff there is no SSL, the speed one iff the load time exceeds 3 seconds |
| CoachingStandards.PageRecommendation | shared/autonomous/coaching_standards.py:294-302 | a required page gets its "Add <Page> Page" structure recommendation exactly when the site lacks it |
| CoachingStandards.CriticalFirst | shared/autonomous/coaching_standards.py:316-341 | a site without SSL gets a critical recommendation first |
| CoachingStandards.RankZero | shared/autonomous/coaching_standards.py:334-335 | only "critical" has the lowest priority rank; unknown priorities rank after "low" |
| ContextManager.SetAttribute | shared/autonomous/context_manager.py:212-214 | a key that is not an attribute of the context changes nothing; an attribute changes only the field of that name |
| ContextManager.ApplyUpdatesSnoc | shared/autonomous/context_manager.py:212-214 | the updates are applied one after the other, in order |
| ContextManager.UnknownKeysIgnored | shared/autonomous/context_manager.py:212-214 | applying the updates is the same as applying only the ones whose key is an attribute |
| ContextManager.CompletionPercentage | shared/autonomous/context_manager.py:261 | the percentage is completed·100/total for a positive total and 0 otherwise, and lies within 0..100 when completed is within 0..total |
| ContextManager.CompletionUpdates | shared/autonomous/context_manager.py:261-267 | the three updates of `update_completion` set exactly the two counts and the percentage |
| ContextManager.Lookup | shared/autonomous/context_manager.py:126-158 | a context is found exactly when it is cached or stored |
| ContextManager.FileId | shared/autonomous/context_manager.py:318-319 | the project id of a store file is its name without the `.json` suffix |
| ContextManager.Listed | shared/autonomous/context_manager.py:317-330 | at most one summary per listed file |
| ContextManager.Manager.constructor | shared/autonomous/context_manager.py:72-75 | a manager starts over the given store with an empty cache |
| ContextManager.Manager.Save | shared/autonomous/context_manager.py:107-118 | a save stamps the time and raises the version by one, and writes the context to the store and the cache under its project id |
| ContextManager.Manager.SaveContext | shared/autonomous/context_manager.py:85-118 | saving a context object always succeeds, and afterwards the context is found under its id with the new version and time |
| ContextManager.Manager.SaveContextById | shared/autonomous/context_manager.py:97-118 | saving by id succeeds exactly when the id is cached, and then saves that cached context; otherwise nothing changes |
| ContextManager.Manager.LoadContext | shared/autonomous/context_manager.py:126-158 | the result is the cached context, else the stored one, else none; a stored one is cached; the store is unchanged |
| ContextManager.Manager.CreateContext | shared/autonomous/context_manager.py:160-188 | a new context under the id derived from the path, saved once (version 2), found again by that id |
| ContextManager.Manager.GetProjectByPath | shared/autonomous/context_manager.py:295-306 | the result is the load of the id derived from the path |
| ContextManager.Manager.UpdateContext | shared/autonomous/context_manager.py:190-216 | fails and changes nothing when the context does not load; otherwise the attribute updates are applied and the context saved under its id (and cached under the requested id) |
| ContextManager.Manager.UpdateCompletion | shared/autonomous/context_manager.py:244-267 | fails and changes nothing when the context does not load; otherwise the saved context has the two counts and their percentage |
| ContextManager.Manager.UpdateAnalysis | shared/autonomous/context_manager.py:218-242 | fails and changes nothing when the context does not load; otherwise the analysis time and results are stored with the context |
| ContextManager.Manager.AddDomainKnowledge | shared/autonomous/context_manager.py:269-293 | fails and changes nothing when the context does not load; otherwise one domain-knowledge entry is set and the context saved |
| ContextManager.Manager.DeleteContext | shared/autonomous/context_manager.py:334-353 | always succeeds; the file and the cache entry are gone, and nothing is found under the id |
| ContextManager.Manager.ListProjects | shared/autonomous/context_manager.py:308-332 | one summary per listed store file that loads, sorted most recently updated first, ties in listing order; the store is unchanged |
| CostOptimizedAgent.Charge | shared/autonomous/cost_optimized_agent.py:479-494 | an answered call adds one call and its cost to the session, and keeps the per-call breakdown summing to the session cost |
| CostOptimizedAgent.Settle | shared/autonomous/cost_optimized_agent.py:459-502 | only an answered call is counted and charged; a call that raised leaves the ledger as it was |
| CostOptimizedAgent.ValidateFast | shared/autonomous/cost_optimized_agent.py:377-397 | the file passes exactly when the compiler exits 0 or its errors mention the UI components directory; a run that raises reports a timeout; otherwise the error is a prefix of stderr, cut to 500 characters |
| CostOptimizedAgent.FollowsIff | shared/autonomous/cost_optimized_agent.py:339-348 | the `a.*b` pattern test holds exactly when some occurrence of `b` starts after an occurrence of `a` ends on one line |
| CostOptimizedAgent.FixableNeedsKeyword | shared/autonomous/cost_optimized_agent.py:337-348 | an error is fixable only if its lower-cased text contains one of the patterns' leading words |
| CostOptimizedAgent.LineHolds | shared/autonomous/cost_optimized_agent.py:339-348 | a pattern that matches on some line finds its first word in the whole text |
| CostOptimizedAgent.ImproveCheap | shared/autonomous/cost_optimized_agent.py:350-375 | the improved intent is the stripped reply exactly when the call answered and the stripped reply is longer than 20 characters; an answered call is charged either way |
| CostOptimizedAgent.FirstTry | shared/autonomous/cost_optimized_agent.py:236-268 | the first try touches only the edit's file; an exception leaves the files as they were and nothing staged; a validated try committed the produced content; it passes exactly when the file is committed as staged |
| CostOptimizedAgent.FirstChecked | shared/autonomous/cost_optimized_agent.py:262-268 | committing writes exactly the staged content and validates it; a failed commit leaves the files as they were |
| CostOptimizedAgent.FirstCheckedIgnoresStaged | shared/autonomous/cost_optimized_agent.py:262-268 | what was staged for the file before does not change the outcome |
| CostOptimizedAgent.Retry | shared/autonomous/cost_optimized_agent.py:281-313 | the retry touches only the edit's file, and a passing retry leaves the file committed as staged |
| CostOptimizedAgent.SmartImproved | shared/autonomous/cost_optimized_agent.py:279-325 | the follow-up of a fixable rejection touches only the edit's file |
| CostOptimizedAgent.SmartEdit | shared/autonomous/cost_optimized_agent.py:229-333 | one edit touches only its own file in the shadow workspace |
| CostOptimizedAgent.SmartEditCalls | shared/autonomous/cost_optimized_agent.py:276-313 | one edit makes at most one model call, only after a rejection the classifier calls fixable, and a retried success follows such a rejection |
| CostOptimizedAgent.SmartEditReports | shared/autonomous/cost_optimized_agent.py:268-333 | the edit fails exactly when the first try raised, reporting its error; a rejection reports the first validation's error; it passes without retry exactly when the first validation passed |
| CostOptimizedAgent.SmartEditStaging | shared/autonomous/cost_optimized_agent.py:268-333 | a success leaves the file committed as staged; any failure leaves it rolled back, with nothing staged |
| CostOptimizedAgent.SmartAll | shared/autonomous/cost_optimized_agent.py:221-335 | one result per edit |
| CostOptimizedAgent.SmartAllCalls | shared/autonomous/cost_optimized_agent.py:221-335 | the edits together make at most one model call each, and the ledger stays balanced |
| CostOptimizedAgent.MapEntries | shared/autonomous/cost_optimized_agent.py:418-422 | at most 50 entries, each a line of the listing that mentions neither `node_modules` nor `.git` |
| CostOptimizedAgent.LookUp | shared/autonomous/cost_optimized_agent.py:399-430 | a fresh cached map is returned as it is; otherwise a listing builds a new map and caches it with the time; a failed listing returns the placeholder and caches nothing |
| CostOptimizedAgent.CacheReuse | shared/autonomous/cost_optimized_agent.py:402-406 | a non-empty map built at a non-zero time is reused, whatever the listing says by then, for 300 seconds; an empty map is never reused |
| CostOptimizedAgent.Loaded | shared/autonomous/cost_optimized_agent.py:172-182 | of the first five files the analysis names, exactly those on disk are loaded, each cut to 1500 characters |
| CostOptimizedAgent.Summary | shared/autonomous/cost_optimized_agent.py:103-118 | the report counts the edits and the successful ones; its status is success, partial or failed by those counts; the success rate is successful/edits, 0 with no edits |
| CostOptimizedAgent.CostLimitGate | shared/autonomous/cost_optimized_agent.py:89-91 | at or over the cost limit a task makes no call, changes nothing and reports the limit error at no cost |
| CostOptimizedAgent.TaskSpending | shared/autonomous/cost_optimized_agent.py:83-127 | the cost a task reports is what the session spent on it; the ledger stays balanced; a task makes at most two calls of its own plus one per edit; only a task that reaches its edits is counted completed |
| CostOptimizedAgent.CostReportOf | shared/autonomous/cost_optimized_agent.py:527-538 | the remaining budget is the limit minus the session cost; the average cost per call is cost/calls, 0 with no calls; the breakdown has one entry per call summing to the session cost |
| CostOptimizedAgent.Agent.constructor | shared/autonomous/cost_optimized_agent.py:46-81 | a new agent has spent nothing, made no calls, cached no map and completed no task |
| CostOptimizedAgent.Agent.GetCostReport | shared/autonomous/cost_optimized_agent.py:527-538 | the report of the agent's ledger, whose breakdown sums to the session cost |
| CostOptimizedAgent.Agent.ProduceContent | shared/autonomous/cost_optimized_agent.py:237-260 | the content is what the surgeon produces for the edit; a modify loads the committed file into the shadow when it is not staged yet |
| CostOptimizedAgent.Agent.TryFirst | shared/autonomous/cost_optimized_agent.py:236-268 | the agent's first try leaves the workspace and outcome `FirstTry` gives |
| CostOptimizedAgent.Agent.RetryWith | shared/autonomous/cost_optimized_agent.py:290-305 | the agent's retry leaves the workspace and verdict `Retry` gives |
| CostOptimizedAgent.Agent.ImproveIntentCheap | shared/autonomous/cost_optimized_agent.py:350-375 | the improved intent and the ledger are those `ImproveCheap` gives; metrics and cache unchanged |
| CostOptimizedAgent.Agent.RetryImproved | shared/autonomous/cost_optimized_agent.py:279-325 | the agent's follow-up of a fixable rejection leaves the workspace, ledger and result `SmartImproved` gives |
| CostOptimizedAgent.Agent.ApplyOne | shared/autonomous/cost_optimized_agent.py:229-333 | one edit leaves the workspace, ledger and result `SmartEdit` gives; metrics and cache unchanged |
| CostOptimizedAgent.Agent.ApplyEditsSmart | shared/autonomous/cost_optimized_agent.py:221-335 | the loop leaves the workspace, ledger and results `SmartAll` gives; metrics and cache unchanged |
| CostOptimizedAgent.Agent.ProjectMap | shared/autonomous/cost_optimized_agent.py:399-430 | the map and the cache are those `LookUp` gives; a cache hit counts one cached call; the ledger is unchanged |
| CostOptimizedAgent.Agent.ExecuteTask | shared/autonomous/cost_optimized_agent.py:83-127 | the report and the agent's new state are those `Executed` gives |
| CostOptimizedAgent.Agent.Begin | shared/autonomous/cost_optimized_agent.py:129-164 | the project map and the charged analysis call leave the state `Started` gives |
| CostOptimizedAgent.Agent.Analyse | shared/autonomous/cost_optimized_agent.py:166-219 | loading the files and generating the edits leave the state and report `Analysed` gives |
| CostOptimizedAgent.Agent.Finish | shared/autonomous/cost_optimized_agent.py:97-118 | applying the edits and rolling up leave the state and report `Finished` gives |
| CostOptimizedAgent.LoadedFrom | shared/autonomous/cost_optimized_agent.py:172-182 | the loaded files are at most one per listed file, each an existing file cut to the length limit, and every listed existing file is loaded |
| CostOptimizedAgent.Agent.CheckFirst | shared/autonomous/cost_optimized_agent.py:262-268 | the first check of produced content moves the agent to the specified checked state |
| FileEditor.InsertAfterEdit | shared/autonomous/file_editor.py:76-91 | a missing file or an absent pattern is refused; an empty pattern raises; otherwise the text goes on a new line right after the first occurrence of the pattern |
| FileEditor.InsertBeforeEdit | shared/autonomous/file_editor.py:100-113 | a missing file or an absent pattern is refused; an empty pattern raises; otherwise the text goes on a line of its own right before the first occurrence |
| FileEditor.InsertAfterRemovable | shared/autonomous/file_editor.py:88-89 | removing the inserted line gives the file back, and the first occurrence of the pattern stays right before it |
| FileEditor.InsertBeforeRemovable | shared/autonomous/file_editor.py:110-111 | removing the inserted line gives the file back, and the first occurrence of the pattern follows right after it |
| FileEditor.ReplaceEdit | shared/autonomous/file_editor.py:122-134 | a missing file or an absent pattern is refused; otherwise exactly the first occurrence of the pattern is replaced and everything around it kept |
| FileEditor.AppendEdit | shared/autonomous/file_editor.py:136-145 | a missing file is created with the content alone; otherwise the old text is kept, followed by a newline and the content |
| FileEditor.LastImport | shared/autonomous/file_editor.py:168-171 | the index of the last line that starts with `import ` after stripping, or -1 when there is none |
| FileEditor.ImportEdit | shared/autonomous/file_editor.py:147-181 | a missing file is refused; a statement already in the file keeps it and succeeds; otherwise the new text contains the statement |
| FileEditor.ImportIdempotent | shared/autonomous/file_editor.py:160-163 | adding the same import twice changes the file only once |
| FileEditor.ImportPlacement | shared/autonomous/file_editor.py:165-180 | the new lines are the old lines with the statement inserted right after the last import line, or at the top when there is none |
| FileEditor.InfoOf | shared/autonomous/file_editor.py:196-205 | a missing file is reported as not existing, with no lines, imports or exports |
| FileEditor.InfoCaps | shared/autonomous/file_editor.py:207-221 | an existing file's line count is its number of lines; the import and export lists are the first ten lines of their kind from the whole file, in file order (all of them when there are fewer); the preview splits back into exactly the first fifty lines |
| FileEditor.ExecutedAccounts | shared/autonomous/file_editor.py:276-312 | every operation adds exactly one entry, to the files written or to the errors, and every unknown action adds an error |
| FileEditor.ExecutedFrame | shared/autonomous/file_editor.py:279-306 | a file no operation names, or a read-only one, is unchanged |
| FileEditor.Editor.constructor | shared/autonomous/file_editor.py:22-23 | the editor works on the given workspace |
| FileEditor.Editor.Perform | shared/autonomous/file_editor.py:39-53 | a refused edit returns false, a kept one true, a raised one its error; a rewrite is written unless the file is read-only, and nothing else changes |
| FileEditor.Editor.InsertAfterPattern | shared/autonomous/file_editor.py:60-91 | the result and the new files are those of `InsertAfterEdit` written to the file |
| FileEditor.Editor.InsertBeforePattern | shared/autonomous/file_editor.py:93-113 | the result and the new files are those of `InsertBeforeEdit` written to the file |
| FileEditor.Editor.ReplacePattern | shared/autonomous/file_editor.py:115-134 | the result and the new files are those of `ReplaceEdit` written to the file |
| FileEditor.Editor.AppendToFile | shared/autonomous/file_editor.py:136-145 | succeeds exactly when the file is writable, and then holds the appended text |
| FileEditor.Editor.AddImport | shared/autonomous/file_editor.py:147-181 | the loop finds the last import line; the result and the new files are those of `ImportEdit` written to the file |
| FileEditor.Editor.GetFileInfo | shared/autonomous/file_editor.py:183-221 | the information is `InfoOf` the file's content |
| FileEditor.Editor.ExecuteOperations | shared/autonomous/file_editor.py:265-312 | the files and the report are those `Executed` gives, and success means no errors |
| FileExtractor.Section | shared/autonomous/file_extractor.py:30-32 | a section exists exactly when "files to modify" occurs in the text in any case, and it is at most 500 characters |
| FileExtractor.SectionWindow | shared/autonomous/file_extractor.py:30-32 | the section starts at the first case-insensitive occurrence of the phrase and runs for 500 characters or to the end of the text |
| FileExtractor.ExtractFiles | shared/autonomous/file_extractor.py:8-48 | distinct paths, each a candidate from the three patterns that survives the filter; min(10, number kept) of them, and all of them when at most ten survive |
| FileExtractor.FilterPaths | shared/autonomous/file_extractor.py:37-46 | each candidate once, exactly those without `node_modules`, `dist/` or `build/` and of length at least 5 |
| FileExtractor.AllKeptWhenFew | shared/autonomous/file_extractor.py:48 | when at most ten paths survive, the cut keeps all of them |
| KnowledgeGraph.SourceFiles | shared/autonomous/knowledge_graph.py:210-212 | a file is a source file exactly when it is in the tree and ends in one of the extensions |
| KnowledgeGraph.FilterAsWritten | shared/autonomous/knowledge_graph.py:222-226 | as written: a file is kept exactly when no ignore pattern occurs in its full path, project directory included |
| KnowledgeGraph.FilterAsWrittenDropsWholeProject | shared/autonomous/knowledge_graph.py:216-226 | a project under `/tmp` loses every file to the filter as written |
| KnowledgeGraph.Filter | shared/autonomous/knowledge_graph.py:216-226 | as intended: a file is kept exactly when no ignore pattern occurs in its project-relative path |
| KnowledgeGraph.ReplaceChar | shared/autonomous/knowledge_graph.py:247 | the result has the same length and replaces exactly the given character |
| KnowledgeGraph.ComponentId | shared/autonomous/knowledge_graph.py:247 | the id has the length of the path, holds no separator of either kind and keeps every other character |
| KnowledgeGraph.LastSegment | shared/autonomous/knowledge_graph.py:375 | the last `/`-separated segment holds no `/` and ends the path |
| KnowledgeGraph.Stem | shared/autonomous/knowledge_graph.py:269 | the stem holds no `/` and is a prefix of the file name |
| KnowledgeGraph.Suffix | shared/autonomous/knowledge_graph.py:257-260 | the suffix is empty or starts with a dot |
| KnowledgeGraph.StemSuffix | shared/autonomous/knowledge_graph.py:257-260 | the stem followed by the suffix is the whole file name |
| KnowledgeGraph.CountChar | shared/autonomous/knowledge_graph.py:264 | the count is 0 exactly when the character does not occur |
| KnowledgeGraph.Classify | shared/autonomous/knowledge_graph.py:288-301 | the kind of the first rule one of whose words occurs, or `utility` when none does |
| KnowledgeGraph.DetermineType | shared/autonomous/knowledge_graph.py:284-301 | the type is one of the seven component types |
| KnowledgeGraph.DetermineTypeIgnoresCase | shared/autonomous/knowledge_graph.py:286 | the type does not depend on letter case |
| KnowledgeGraph.PagesComeFirst | shared/autonomous/knowledge_graph.py:288-289 | a path mentioning `pages` or `routes` is a page whatever else it mentions |
| KnowledgeGraph.UtilityIsTheDefault | shared/autonomous/knowledge_graph.py:300-301 | a path mentioning none of the rule words is a utility |
| KnowledgeGraph.MatchesImport | shared/autonomous/knowledge_graph.py:371-376 | a name equal to the import's last segment matches, ignoring case; so does any component against an import ending in `/`, and a component with an empty name against every import |
| KnowledgeGraph.AddOnce | shared/autonomous/knowledge_graph.py:364-369 | appending unless present keeps the old list as a prefix and keeps the list free of duplicates |
| KnowledgeGraph.LinkPair | shared/autonomous/knowledge_graph.py:362-369 | one matching pair adds exactly the edge in both directions |
| KnowledgeGraph.StepAdds | shared/autonomous/knowledge_graph.py:361-369 | one step of the inner loop adds the edge when the other component is different and matches the import, and nothing otherwise |
| KnowledgeGraph.BuildAllAddsWanted | shared/autonomous/knowledge_graph.py:356-369 | the whole build adds exactly the wanted edges: `a` depends on `b` for every other component `b` matching one of `a`'s imports |
| KnowledgeGraph.AddsKeepsSymmetric | shared/autonomous/knowledge_graph.py:364-369 | adding edges keeps `depends_on` and `used_by` mirror images of each other |
| KnowledgeGraph.AddsKeepsNoSelfEdges | shared/autonomous/knowledge_graph.py:362 | adding edges never makes a component depend on itself |
| KnowledgeGraph.AddsKeepsNoDuplicateEdges | shared/autonomous/knowledge_graph.py:364-369 | adding edges never lists one twice |
| KnowledgeGraph.BuildTwiceAddsNothing | shared/autonomous/knowledge_graph.py:356-369 | building the relationships a second time adds no edge |
| KnowledgeGraph.Gather | shared/autonomous/knowledge_graph.py:405-408 | collecting keeps what was collected before, and keeps it free of duplicates |
| KnowledgeGraph.AnalyzedComponent | shared/autonomous/knowledge_graph.py:243-279 | the component is identified by its path with separators replaced, named by its stem, typed by its path, incomplete, without edges, with one more line than newlines |
| KnowledgeGraph.KnowledgeGraph.constructor | shared/autonomous/knowledge_graph.py:114-118 | a new graph has no components |
| KnowledgeGraph.KnowledgeGraph.Put | shared/autonomous/knowledge_graph.py:180 | the component is stored under its id; a new id goes last in the iteration order, a replaced one keeps its place |
| KnowledgeGraph.KnowledgeGraph.AddComponent | shared/autonomous/knowledge_graph.py:178-181 | the component is stored under its id, replacing any earlier one, and the call reports success |
| KnowledgeGraph.KnowledgeGraph.GetComponent | shared/autonomous/knowledge_graph.py:183-185 | the stored component under the id, or none |
| KnowledgeGraph.KnowledgeGraph.AnalyzeFile | shared/autonomous/knowledge_graph.py:243-282 | a readable file's component is stored under its id; an unreadable one changes nothing |
| KnowledgeGraph.KnowledgeGraph.Link | shared/autonomous/knowledge_graph.py:364-369 | records `a` depends on `b` and `b` is used by `a`, each unless already there |
| KnowledgeGraph.KnowledgeGraph.LinkImport | shared/autonomous/knowledge_graph.py:361-369 | the innermost loop links `a` to every other component matching the import |
| KnowledgeGraph.KnowledgeGraph.LinkComponent | shared/autonomous/knowledge_graph.py:359-369 | the two inner loops link `a` for each of its imports |
| KnowledgeGraph.KnowledgeGraph.BuildRelationships | shared/autonomous/knowledge_graph.py:356-369 | the set of components is unchanged; afterwards `a` depends on `b` exactly when it did before or `b` is another component matching one of `a`'s imports; symmetry, no self edges and no duplicates are kept |
| KnowledgeGraph.AnalyzedLatest | shared/autonomous/knowledge_graph.py:230-232 | after the file loop a readable file's id holds the component analysed from that file, unless a later readable file has the same id |
| KnowledgeGraph.AnalyzedKeys | shared/autonomous/knowledge_graph.py:230-232 | the file loop gives every listed readable file its id and adds no other id |
| KnowledgeGraph.KnowledgeGraph.AnalyzeFiles | shared/autonomous/knowledge_graph.py:230-232 | the components become those of the file loop (`Analyzed`): every listed file that exists gets its component, earlier components stay, and each new component comes from a listed existing file |
| KnowledgeGraph.KnowledgeGraph.BuildFromCodebase | shared/autonomous/knowledge_graph.py:196-241 | with the ignore filter as intended: every readable source file the filter keeps gets its component, no other component is added, and the analysed components then gain exactly the wanted edges (`a` depends on `b` for every other component `b` matching one of `a`'s imports) |
| KnowledgeGraph.KnowledgeGraph.CollectDirect | shared/autonomous/knowledge_graph.py:405-408 | the non-recursive walk returns the existing named components, each once, in list order |
| KnowledgeGraph.KnowledgeGraph.CollectAll | shared/autonomous/knowledge_graph.py:396-410 | the recursive walk visits the component once, keeps the list free of duplicates, collects every existing neighbour of every component it visits and collects only components reachable from the start |
| KnowledgeGraph.KnowledgeGraph.CollectNeighbour | shared/autonomous/knowledge_graph.py:405-410 | one neighbour is collected if it exists, and visited in turn; what it adds is reachable from the start |
| KnowledgeGraph.KnowledgeGraph.Related | shared/autonomous/knowledge_graph.py:378-450 | nothing for an unknown id; only stored components, none twice; without recursion exactly the existing direct neighbours in list order; with it, exactly the stored components reachable from the start by one or more neighbour links (the start itself only through a cycle) |
| KnowledgeGraph.KnowledgeGraph.GetDependencies | shared/autonomous/knowledge_graph.py:378-413 | nothing for an unknown id; no component twice; without recursion exactly the existing direct dependencies in list order; with it, exactly the components reachable along `depends_on` |
| KnowledgeGraph.KnowledgeGraph.GetDependents | shared/autonomous/knowledge_graph.py:415-450 | nothing for an unknown id; no component twice; without recursion exactly the existing direct dependents in list order; with it, exactly the components reachable along `used_by` |
| KnowledgeGraph.KnowledgeGraph.FindAffectedComponents | shared/autonomous/knowledge_graph.py:452-463 | the transitive dependents: no duplicates, and exactly the components reachable from the id along `used_by` links |
| KnowledgeGraph.ReachableNext | shared/autonomous/knowledge_graph.py:405-410 | a neighbour of a component reached from the start is reached from the start |
| KnowledgeGraph.ClosedHoldsWalk | shared/autonomous/knowledge_graph.py:396-410 | a list closed under the neighbour relation holds every component reached from the start |
| KnowledgeGraph.KnowledgeGraph.GetStatistics | shared/autonomous/knowledge_graph.py:465-491 | the component total, and the average number of dependencies, 0 for an empty graph |
| LearningEngine.PatternsUpTo | shared/autonomous/learning_engine.py:31-79 | at most one name per pattern considered |
| LearningEngine.PatternsUpToMembers | shared/autonomous/learning_engine.py:31-79 | a pattern among those considered is reported exactly when its entry in the table of test results holds |
| LearningEngine.PatternsMembers | shared/autonomous/learning_engine.py:31-82 | every pattern is reported exactly when the code shows its markers |
| LearningEngine.ProcedurePatterns | shared/autonomous/learning_engine.py:34-40 | the tRPC query, mutation and Zod patterns are reported only for code that defines a public or protected procedure |
| LearningEngine.ExtractPatterns | shared/autonomous/learning_engine.py:20-82 | the conditional appends return exactly the patterns the code shows, in table order |
| LearningEngine.AppendIfShown | shared/autonomous/learning_engine.py:31-79 | one conditional append takes the reported names from the first k patterns to the first k+1 |
| LearningEngine.ErrorKindsMembers | shared/autonomous/learning_engine.py:106-118 | a kind is collected exactly when some initial error shows it |
| LearningEngine.KindLessons | shared/autonomous/learning_engine.py:120-149 | at most one lesson per kind, only for collected kinds |
| LearningEngine.KindLessonsMembers | shared/autonomous/learning_engine.py:120-149 | a kind's lesson is given exactly when the kind was collected |
| LearningEngine.KindLessonsOrdered | shared/autonomous/learning_engine.py:120-149 | kind lessons keep the order of the kinds in the lesson table |
| LearningEngine.LessonsShape | shared/autonomous/learning_engine.py:101-164 | no lessons without initial errors; a kind lesson exactly for each kind some error shows; the recovery or give-up lesson last, present exactly when there were fix attempts, chosen by the final outcome |
| LearningEngine.LessonsOrdered | shared/autonomous/learning_engine.py:120-149 | kind lessons come in the order TypeScript, import, tRPC, null safety, type mismatch |
| LearningEngine.CollectKinds | shared/autonomous/learning_engine.py:106-118 | the loop over the initial errors collects exactly the kinds `ErrorKinds` describes |
| LearningEngine.KindLessonsFor | shared/autonomous/learning_engine.py:120-149 | the five conditional appends give exactly the kind lessons, in the fixed kind order |
| LearningEngine.ExtractLessons | shared/autonomous/learning_engine.py:84-164 | the loop and the appends return exactly the lessons `Lessons` describes |
| LearningEngine.RoundHundredths | shared/autonomous/learning_engine.py:234 | the result is a whole number of hundredths within half a hundredth of the input, and a tie goes to an even number of hundredths |
| LearningEngine.RoundHundredthsIdempotent | shared/autonomous/learning_engine.py:234 | rounding a rounded figure changes nothing |
| LearningEngine.PerformanceOf | shared/autonomous/learning_engine.py:221-239 | the time is a whole number of hundredths within half a hundredth of the given time; first-attempt success exactly when there were no fix attempts; the score is 1 exactly then, and lies within 0..1 |
| LearningEngine.EfficiencyMonotone | shared/autonomous/learning_engine.py:238 | more fix attempts never raise the score, and five or more bring it to 0 |
| LlmRetry.IsTransientIff | shared/autonomous/llm_retry.py:65-73 | an error is transient exactly when its lower-cased message contains `timeout`, `rate`, `overloaded`, `429`, `503` or `504` |
| LlmRetry.IsTransient | shared/autonomous/llm_retry.py:65-73 | the transient-error test on the lower-cased message (its meaning is stated by `IsTransientIff`) |
| LlmRetry.TransientIgnoresCase | shared/autonomous/llm_retry.py:65 | a message and its lower-cased form are classified alike |
| LlmRetry.RetriedCalls | shared/autonomous/llm_retry.py:47-101 | from attempt k the function is invoked at most maxRetries+1-k times, not at all (raising the exhaustion error) once k is past maxRetries, with one sleep after every invocation but the last |
| LlmRetry.RetriedDelays | shared/autonomous/llm_retry.py:76-99 | every sleep follows an invocation that raised a transient error within the limits, and lasts that attempt's backoff |
| LlmRetry.RetriedLast | shared/autonomous/llm_retry.py:52-89 | the run ends with what its last invocation did: the value it returned, or its error, which failed fast |
| LlmRetry.CallBound | shared/autonomous/llm_retry.py:47 | the function is invoked at most maxRetries+1 times, and at least once exactly when maxRetries >= 0 |
| LlmRetry.PermanentRaisedAtOnce | shared/autonomous/llm_retry.py:76-89 | a permanent error on the first invocation is re-raised at once, with no sleep |
| LlmRetry.ReturnsFirstSuccess | shared/autonomous/llm_retry.py:52-57 | the value returned is that of the first invocation that succeeds, and every earlier one raised a transient error |
| LlmRetry.RaisesOnlyWhenFailingFast | shared/autonomous/llm_retry.py:76-89 | an error is re-raised only when it is permanent, came from the last allowed attempt, or the time budget was exceeded |
| LlmRetry.DelaysBounded | shared/autonomous/llm_retry.py:92 | with jitter in [0, 0.1], the sleep before retry k lies in [base·2^k, base·2^k + 0.1] |
| LlmRetry.RetriedStep | shared/autonomous/llm_retry.py:91-99 | a retried attempt adds one invocation and one sleep in front of the rest of the run |
| LlmRetry.Retry | shared/autonomous/llm_retry.py:16-101 | the loop returns the outcome, the number of invocations and the sleeps `RetriedFrom` describes |
| ProductionAgent.ValidateFile | shared/autonomous/production_agent.py:419-444 | the file passes exactly when the compiler exits 0 or its errors mention the UI components directory; a run that raises is rejected with its message; otherwise the error is a prefix of stderr cut to 1000 characters |
| ProductionAgent.UnfencedBlock | shared/autonomous/production_agent.py:406-411 | a trimmed body wrapped in a fenced code block with any language tag comes back unwrapped |
| ProductionAgent.ClosingLineDropped | shared/autonomous/production_agent.py:410 | a closing fence on its own line is removed with the newline before it |
| ProductionAgent.OpeningLineDropped | shared/autonomous/production_agent.py:409 | the opening fence line is removed up to and including its newline |
| ProductionAgent.ImproveIntent | shared/autonomous/production_agent.py:362-417 | the improved intent is the unfenced reply exactly when the call answered and that is longer than 20 characters; nothing otherwise |
| ProductionAgent.Attempt | shared/autonomous/production_agent.py:273-348 | one attempt touches only the edit's file; a raised attempt leaves the files and drops the staged copy; a validated one committed the produced content and validated it; it passes exactly when the file is committed as staged |
| ProductionAgent.Checked | shared/autonomous/production_agent.py:304-309 | committing writes exactly the staged content and validates it |
| ProductionAgent.CheckedIgnoresStaged | shared/autonomous/production_agent.py:304-309 | what was staged for the file before does not change the outcome |
| ProductionAgent.Improved | shared/autonomous/production_agent.py:329-338 | the improved edit keeps its file, operation and original intent, and only a usable rewrite replaces the improved intent |
| ProductionAgent.RejectedEditStaysOnDisk | shared/autonomous/production_agent.py:304-327 | the file is committed before it is validated and a rejection does not restore it: the real file keeps the rejected content |
| ProductionAgent.TriesBounded | shared/autonomous/production_agent.py:268-357 | at most three attempts; a success names the attempt that passed; the edit keeps its file, operation and intent |
| ProductionAgent.TriesOutcome | shared/autonomous/production_agent.py:305-357 | a successful edit's file is on disk exactly as staged; a given-up edit has nothing staged |
| ProductionAgent.ThrowingAttemptsKeepIntent | shared/autonomous/production_agent.py:343-357 | when every attempt raises, no improvement is asked for and the edit is given up as it came |
| ProductionAgent.FailingModelThrows | shared/autonomous/production_agent.py:277-302 | an attempt raises whenever the surgeon's and the creator's model calls fail |
| ProductionAgent.RejectedThroughout | shared/autonomous/production_agent.py:324-357 | when the compiler rejects every attempt, the edit is given up after three |
| ProductionAgent.Iterated | shared/autonomous/production_agent.py:259-360 | one result per edit |
| ProductionAgent.IteratedResults | shared/autonomous/production_agent.py:259-360 | each result is for its own edit's file, operation and original intent, in order, and a success names one of the three attempts |
| ProductionAgent.CountedAllCounts | shared/autonomous/production_agent.py:319-320 | the loop counts every given-up edit as failed and every success after a retry, and no other metric |
| ProductionAgent.RollUp | shared/autonomous/production_agent.py:94-111 | the report counts the edits and the successes; its status is success, partial or failed by those counts; the success rate is successful/edits, 0 with no edits |
| ProductionAgent.Rate | shared/autonomous/production_agent.py:110 | the rate is k/n, 0 when n is 0, and lies within 0..1 |
| ProductionAgent.EditList | shared/autonomous/production_agent.py:245-247 | a single edit is wrapped in a list of one; a list is kept |
| ProductionAgent.Parent | shared/autonomous/production_agent.py:171 | the parent directory is a prefix of the path |
| ProductionAgent.VerifiedFiles | shared/autonomous/production_agent.py:159-176 | a named file is verified exactly when it exists, or its reason mentions `create`, or its directory does not exist |
| ProductionAgent.TaskAccounting | shared/autonomous/production_agent.py:70-119 | a task that fails before its edits changes neither files nor metrics; one that reaches them counts a completed task, the edits, the successes and the failures, and a first-attempt success exactly when every edit succeeded |
| ProductionAgent.NoFilesNoEdits | shared/autonomous/production_agent.py:178-179 | with no verified file the task fails with "No valid files found to modify" and tries no edit |
| ProductionAgent.Agent.constructor | shared/autonomous/production_agent.py:43-68 | a new agent starts with every metric at 0 |
| ProductionAgent.Agent.ProduceContent | shared/autonomous/production_agent.py:275-302 | the content is what the surgeon or the creator produces; only the edit's file may be staged |
| ProductionAgent.Agent.TryOnce | shared/autonomous/production_agent.py:273-348 | the agent's attempt leaves the workspace and outcome `Attempt` gives |
| ProductionAgent.Agent.Check | shared/autonomous/production_agent.py:304-327 | staging, committing and validating leave the workspace and outcome `Checked` gives |
| ProductionAgent.Agent.Improve | shared/autonomous/production_agent.py:329-338 | the edit after a rejection is `Improved` |
| ProductionAgent.Agent.IterateEdit | shared/autonomous/production_agent.py:264-358 | up to three attempts at one edit leave the workspace and result `Tries` gives, and the metrics count a retried success or a give-up |
| ProductionAgent.Agent.ApplyEditsWithIteration | shared/autonomous/production_agent.py:249-360 | the loop leaves the workspace and results `Iterated` gives, and the metrics `CountedAll` gives |
| ProductionAgent.Agent.ExecuteTask | shared/autonomous/production_agent.py:70-119 | the report, the workspace and the metrics are those `Executed` gives |
| ProductionAgent.Agent.Conclude | shared/autonomous/production_agent.py:94-111 | the task's totals are added to the metrics and the report is `RollUp` of the results |
| ProgressTracker.Trunc | shared/autonomous/progress_tracker.py:293 | Python's `int` on a float truncates toward zero |
| ProgressTracker.DurationParts | shared/autonomous/progress_tracker.py:290-301 | under a minute the truncated seconds; under an hour whole minutes (at least 1) and the remaining seconds, adding up to the whole seconds; otherwise whole hours and the remaining minutes, within a minute of the duration |
| ProgressTracker.FormatDuration | shared/autonomous/progress_tracker.py:290-301 | the text is never shorter than two characters and ends in the unit of its last figure: `s` under an hour, `m` from an hour on |
| ProgressTracker.Fresh | shared/autonomous/progress_tracker.py:62-77 | a newly tracked task is pending with progress 0, no retries, no steps and no times |
| ProgressTracker.RegisterKeepsWellKeyed | shared/autonomous/progress_tracker.py:60-77 | filing a task keeps every record under its own id and the order listing each id once |
| ProgressTracker.InitialTable | shared/autonomous/progress_tracker.py:58-82 | after `start_execution` the table is well keyed, every task is pending with progress 0, and every task that brought an id is filed under it |
| ProgressTracker.Statuses | shared/autonomous/progress_tracker.py:194-195 | the statuses of the tasks, one per task, in insertion order |
| ProgressTracker.StatusCountsSum | shared/autonomous/progress_tracker.py:194-207 | every status falls in exactly one of the six counters |
| ProgressTracker.MetricsAddUp | shared/autonomous/progress_tracker.py:182-207 | the six status counts add up to the total number of tasks |
| ProgressTracker.RecountIgnoresOtherFields | shared/autonomous/progress_tracker.py:107-112 | changing a record without changing its status leaves the counts as they are |
| ProgressTracker.Started | shared/autonomous/progress_tracker.py:87-90 | a started task is running from now with progress 0; its id, retries and steps are kept |
| ProgressTracker.Progressed | shared/autonomous/progress_tracker.py:108-112 | progress is clamped to 0..100; a non-empty step becomes the current step and is counted; the status is kept |
| ProgressTracker.Measured | shared/autonomous/progress_tracker.py:122-126 | the duration is end minus start when the task had a (truthy) start time, else unchanged |
| ProgressTracker.Finished | shared/autonomous/progress_tracker.py:117-129 | a completed task has progress 100, the end time and its measured duration; only a truthy result is stored |
| ProgressTracker.FailedWith | shared/autonomous/progress_tracker.py:136-145 | a failed task has the error, the end time and its measured duration; its progress is kept |
| ProgressTracker.Retried | shared/autonomous/progress_tracker.py:152-154 | a retried task is retrying with one more retry counted |
| ProgressTracker.SkippedFor | shared/autonomous/progress_tracker.py:160-163 | a skipped task keeps the reason as its error and the end time; no duration is taken |
| ProgressTracker.OverallProgress | shared/autonomous/progress_tracker.py:215-219 | the completed percentage rounded down, within 0..100, and 0 with no tasks |
| ProgressTracker.Estimate | shared/autonomous/progress_tracker.py:221-231 | an estimate exists exactly when the execution started and a task completed, and is the elapsed time per completed task times the remaining tasks |
| ProgressTracker.FirstRunning | shared/autonomous/progress_tracker.py:274-277 | the position of the first running task in insertion order, every earlier one not running, or -1 when none runs |
| ProgressTracker.Tracker.constructor | shared/autonomous/progress_tracker.py:27-43 | a new tracker has no tasks, no execution and no times |
| ProgressTracker.Tracker.UpdateMetrics | shared/autonomous/progress_tracker.py:182-207 | the one-pass loop sets the metrics to the status counts of the table; nothing else changes |
| ProgressTracker.Tracker.StartExecution | shared/autonomous/progress_tracker.py:45-82 | the table is the initial one for the tasks, the execution id and start time are set and the end time cleared |
| ProgressTracker.Tracker.Populate | shared/autonomous/progress_tracker.py:59-77 | the loop files every task, in order, into an empty table |
| ProgressTracker.Tracker.StartTask | shared/autonomous/progress_tracker.py:84-91 | a known task is `Started`; an unknown id changes nothing |
| ProgressTracker.Tracker.UpdateTaskProgress | shared/autonomous/progress_tracker.py:93-112 | a known task is `Progressed`; the counts are not touched; an unknown id changes nothing |
| ProgressTracker.Tracker.UpdateTask | shared/autonomous/progress_tracker.py:175-180 | with a progress value as `UpdateTaskProgress`; without one nothing changes |
| ProgressTracker.Tracker.CompleteTask | shared/autonomous/progress_tracker.py:114-131 | a known task is `Finished`; an unknown id changes nothing |
| ProgressTracker.Tracker.FailTask | shared/autonomous/progress_tracker.py:133-147 | a known task is `FailedWith` the error; an unknown id changes nothing |
| ProgressTracker.Tracker.RetryTask | shared/autonomous/progress_tracker.py:149-155 | a known task is `Retried`; an unknown id changes nothing |
| ProgressTracker.Tracker.SkipTask | shared/autonomous/progress_tracker.py:157-164 | a known task is `SkippedFor` the reason; an unknown id changes nothing |
| ProgressTracker.Tracker.EndExecution | shared/autonomous/progress_tracker.py:166-173 | the end time is set; tasks and metrics are unchanged |
| ProgressTracker.Tracker.GetProgress | shared/autonomous/progress_tracker.py:209-250 | the overall progress lies within 0..100; the elapsed time exists exactly when the execution started; the estimate exactly when it started and a task completed; complete exactly when ended |
| ProgressTracker.Tracker.GetCurrentTask | shared/autonomous/progress_tracker.py:271-277 | a running task stored under its id, or none exactly when no task is running |
| ProjectMemory.InsertedOrdered | shared/autonomous/project_memory.py:92-117 | setting a dictionary key keeps the key order listing every key once, a new key going last |
| ProjectMemory.DecisionsOf | shared/autonomous/project_memory.py:80-88 | one decision per input item, in order, with the task id, decision, rationale and files of that item |
| ProjectMemory.LessonsOf | shared/autonomous/project_memory.py:123-128 | one lesson per input item, in order, with the task id |
| ProjectMemory.CreatedOwners | shared/autonomous/project_memory.py:91-97 | every created file is owned by the task, created and last modified by it, with the task's title and dependencies; no other entry changes |
| ProjectMemory.ModifiedOwners | shared/autonomous/project_memory.py:99-108 | a modified file with an entry keeps it with the task as last modifier; a new one is created by "unknown" and modified by the task; no other entry changes |
| ProjectMemory.UsedPatternsCount | shared/autonomous/project_memory.py:111-120 | recording pattern uses keeps every usage count equal to the number of its examples |
| ProjectMemory.UsedPatternsEntries | shared/autonomous/project_memory.py:111-120 | the task is the last example of every pattern it used, a new pattern names it as establishing task, and unused patterns are unchanged |
| ProjectMemory.UsedPatternsLast | shared/autonomous/project_memory.py:111-120 | the task is the last example of every pattern it used |
| ProjectMemory.UsedPatternsEstablished | shared/autonomous/project_memory.py:111-116 | a pattern the task introduced names it as the establishing task |
| ProjectMemory.UsedPatternsUnused | shared/autonomous/project_memory.py:111-120 | a pattern the task did not use is unchanged |
| ProjectMemory.UsedOneEntries | shared/autonomous/project_memory.py:112-120 | one use makes the task the pattern's last example, names it as establishing task of a new pattern, and changes no other pattern |
| ProjectMemory.Conflicts | shared/autonomous/project_memory.py:186-203 | one warning per proposed file that has an owner entry |
| ProjectMemory.NoConflicts | shared/autonomous/project_memory.py:194-203 | with no owned file among them, no proposed file draws a warning |
| ProjectMemory.MatchingIds | shared/autonomous/project_memory.py:217-220 | a task id is listed, once, exactly when one of its decisions' text contains a keyword of the description |
| ProjectMemory.SuggestSimilar | shared/autonomous/project_memory.py:205-222 | as intended: at most five distinct ids of matching tasks, and five whenever that many match |
| ProjectMemory.SuggestSimilarAsWritten | shared/autonomous/project_memory.py:218 | as written: the query raises exactly when a stored decision or rationale is `None`; otherwise it returns what `SuggestSimilar` does |
| ProjectMemory.MissingRationaleBreaksSuggestions | shared/autonomous/project_memory.py:85 | a decision recorded without a rationale makes every later suggestion query raise |
| ProjectMemory.PatternLines | shared/autonomous/project_memory.py:155-160 | every pattern in dictionary order with its usage count and its first three examples |
| ProjectMemory.FileLines | shared/autonomous/project_memory.py:163-168 | the first twenty files in dictionary order with their owner entries |
| ProjectMemory.Memory.constructor | shared/autonomous/project_memory.py:40-52 | a new memory has no tasks, decisions, lessons, patterns or owners |
| ProjectMemory.Memory.RecordTaskCompletion | shared/autonomous/project_memory.py:62-130 | one more task; the task's decisions and lessons are appended; ownership and patterns are updated as `Owned` and `Used` say; the save stamps the time |
| ProjectMemory.Memory.RecordDecisions | shared/autonomous/project_memory.py:80-88 | the decisions are appended and nothing else changes |
| ProjectMemory.Memory.RecordOwnership | shared/autonomous/project_memory.py:91-108 | created files, then modified files, update the ownership as `Owned` says; nothing else changes |
| ProjectMemory.Memory.RecordPatterns | shared/autonomous/project_memory.py:111-120 | the pattern table is updated as `Used` says; nothing else changes |
| ProjectMemory.Memory.CheckForConflicts | shared/autonomous/project_memory.py:186-203 | the loop returns `Conflicts` of the proposed files |
| ProjectMemory.Memory.ContextForTask | shared/autonomous/project_memory.py:132-184 | the context holds the last ten decisions and lessons, every pattern, and the first twenty files |
| ProjectOrchestrator.Ids | shared/autonomous/project_orchestrator.py:284-287 | the checkpoint's id lists hold one id per task, in list order |
| ProjectOrchestrator.DependenciesMetIff | shared/autonomous/project_orchestrator.py:243-250 | a task may run exactly when every dependency names a completed task; a task without dependencies always may |
| ProjectOrchestrator.FindFrom | shared/autonomous/project_orchestrator.py:194-199 | the first plan entry at or after the position with the id, or -1 when none has it |
| ProjectOrchestrator.StartIndex | shared/autonomous/project_orchestrator.py:194-199 | the run starts at the first task carrying the resume id, and at the first task when the id is absent, empty or not in the plan |
| ProjectOrchestrator.StepEffect | shared/autonomous/project_orchestrator.py:202-241 | a skipped task changes nothing; an executed one joins exactly one list, the completed list exactly when its status is "completed"; a checkpoint of both id lists follows unless the executor raised; a raise stops the run exactly for a critical task |
| ProjectOrchestrator.StoppedStays | shared/autonomous/project_orchestrator.py:238-241 | once a critical task has raised, no later plan entry changes anything |
| ProjectOrchestrator.StopIsCritical | shared/autonomous/project_orchestrator.py:234-241 | the run stops only when a critical task raised, and that task is the last one in the failed list |
| ProjectOrchestrator.RunAppends | shared/autonomous/project_orchestrator.py:202-241 | the run only appends to the completed, failed and checkpoint lists, and adds at most one task per plan entry it reaches |
| ProjectOrchestrator.RunAddsFromPlan | shared/autonomous/project_orchestrator.py:202-236 | every task added to either list is a plan entry in the range run over |
| ProjectOrchestrator.RunKeepsOrder | shared/autonomous/project_orchestrator.py:205-225 | every completed task's dependencies were completed before it, if that held at the start |
| ProjectOrchestrator.ResumedStartRunsOnlyWithoutDependencies | shared/autonomous/project_orchestrator.py:191-208 | resuming with nothing completed, the start task runs exactly when it has no dependencies |
| ProjectOrchestrator.SummaryOf | shared/autonomous/project_orchestrator.py:162-171 | status "completed" exactly when no task failed, "partial" otherwise; the counts of plan, completed and failed tasks, and the failed ids in order |
| ProjectOrchestrator.Orchestrator.constructor | shared/autonomous/project_orchestrator.py:61-65 | no plan, nothing completed or failed, no checkpoint |
| ProjectOrchestrator.Orchestrator.ExecuteTasks | shared/autonomous/project_orchestrator.py:191-241 | the completed, failed and checkpoint lists become the run of the plan from the start index to its end or to a critical raise |
| ProjectOrchestrator.Orchestrator.RunFrom | shared/autonomous/project_orchestrator.py:202-241 | the loop from a given index leaves the completed, failed and checkpoint lists that `Ran` gives up to the end of the plan |
| ProjectOrchestrator.Orchestrator.FindStart | shared/autonomous/project_orchestrator.py:194-199 | the loop finds the start index the specification function gives |
| ProjectOrchestrator.Orchestrator.Reach | shared/autonomous/project_orchestrator.py:203-241 | one plan entry's turn: the state becomes the specified step, and the result says whether the run stops |
| ProjectOrchestrator.Orchestrator.DevelopProject | shared/autonomous/project_orchestrator.py:87-185 | the new plan is stored, run from the start task, and summarised over the lists the run leaves |
| ResearchEngine.RunBySection | shared/autonomous/research_engine.py:134-171 | the parse collects, per section, what that section's lines give: the section in effect is the one the last header opened; findings and practices come from its dash lines; recommendations are its non-blank lines |
| ResearchEngine.EntriesFromLines | shared/autonomous/research_engine.py:162-167 | every collected finding or practice comes from a dash line, not a header, lying in that section |
| ResearchEngine.HeaderFreeIgnored | shared/autonomous/research_engine.py:144-167 | with no header line nothing is collected |
| ResearchEngine.HeaderFreePrefix | shared/autonomous/research_engine.py:144-167 | lines before the first header do not change the parse |
| ResearchEngine.ParseResponse | shared/autonomous/research_engine.py:134-171 | the line loop with its current section computes the specified parse |
| ResearchEngine.Unavailable | shared/autonomous/research_engine.py:126-132 | a failed call yields no findings and no practices |
| ResearchEngine.CacheKeyCollision | shared/autonomous/research_engine.py:53-56 | two different features share a cache key, so a lookup returns the other feature's research without a call |
| ResearchEngine.CachedAsWritten | shared/autonomous/research_engine.py:53-56 | as written: the research cached under the name and description joined by `:`, if any |
| ResearchEngine.FeatureName | shared/autonomous/research_engine.py:188-189 | the name is the start of the text up to, and excluding, the first ":", or the whole text when it has none |
| ResearchEngine.GuidanceKeysDistinct | shared/autonomous/research_engine.py:188-195 | from the guidance path the joined key determines the task text, so different tasks never share a key there |
| ResearchEngine.StoreIsolated | shared/autonomous/research_engine.py:53-56 | under a key of the (name, description) pair, caching one feature answers its own lookup and no other |
| ResearchEngine.Engine.constructor | shared/autonomous/research_engine.py:27-29 | the cache starts empty |
| ResearchEngine.Engine.ResearchFeature | shared/autonomous/research_engine.py:31-132 | a call is made exactly when the feature is not cached; a cached feature gets its cached research; a reply is parsed and cached; a failed call gives the fallback and caches nothing (as intended: the cache key keeps name and description apart) |
| ResearchEngine.Engine.Guidance | shared/autonomous/research_engine.py:173-210 | the guidance uses the cached research of the text's feature name when there is some, else the new research; the text is the formatted guidance |
| ResearchEngine.GuidanceOpening | shared/autonomous/research_engine.py:198-210 | the guidance opens with its heading |
| ResearchEngine.GuidancePrefix | shared/autonomous/research_engine.py:198-210 | stripping leaves the heading, the recommendations and the findings list in place at the front |
| ResearchEngine.GuidanceListsFindings | shared/autonomous/research_engine.py:203-204 | every key finding appears in the guidance as a bullet |
| SmartEditor.Terminated | shared/autonomous/smart_editor.py:86-88 | the content keeps all its text and ends with a newline, gaining one only when it had none |
| SmartEditor.FirstMarked | shared/autonomous/smart_editor.py:90-97 | the first line containing the marker, with no earlier line containing it, or -1 when no line does |
| SmartEditor.InsertAfterTextAsWritten | shared/autonomous/smart_editor.py:78-111 | as written: the insertion fails exactly when no line contains the marker |
| SmartEditor.InsertAfterText | shared/autonomous/smart_editor.py:78-111 | as intended (the marked line is ended with a newline first): the insertion fails exactly when no line contains the marker |
| SmartEditor.InsertBeforeText | shared/autonomous/smart_editor.py:114-144 | the insertion fails exactly when no line contains the marker |
| SmartEditor.InsertAfterPlacement | shared/autonomous/smart_editor.py:78-111 | the content goes right after the end of the first marked line, on a line of its own; everything before and after is kept |
| SmartEditor.InsertAfterGlues | shared/autonomous/smart_editor.py:87-97 | as written, content inserted after a last line without a newline joins that line: "abc" with marker "b" and content "X" becomes "abcX\n" |
| SmartEditor.InsertAfterKeepsLine | shared/autonomous/smart_editor.py:87-97 | with the corrected insertion, the same input becomes "abc\nX\n" |
| SmartEditor.InsertBeforePlacement | shared/autonomous/smart_editor.py:114-144 | the content goes at the start of the first marked line, which is the start of the file or follows a newline; everything else is kept |
| SmartEditor.AppendText | shared/autonomous/smart_editor.py:173-186 | the old text, or nothing when the file is missing, is kept, followed by a newline and ending with the content |
| SmartEditor.PrependText | shared/autonomous/smart_editor.py:189-205 | the content, newline-terminated, comes first and the old text follows intact |
| SmartEditor.InsertedTouchesOnlyPath | shared/autonomous/smart_editor.py:78-144 | an insertion changes at most its own file, nothing on failure, and nothing in a read-only file |
| SmartEditor.ReplacedTouchesOnlyPath | shared/autonomous/smart_editor.py:147-170 | a replacement changes at most its own file, and nothing in a read-only file |
| SmartEditor.AppliedTouchesOnlyPath | shared/autonomous/smart_editor.py:21-62 | any edit changes at most the file it names, and never a file whose writes fail |
| SmartEditor.AppliedFailureKeepsFiles | shared/autonomous/smart_editor.py:21-75 | a failed edit leaves the files unchanged, except a create without content, which has already emptied its file; a successful edit has written its file |
| SmartEditor.UnknownOperation | shared/autonomous/smart_editor.py:52-56 | an operation other than the six is refused with its name and changes nothing |
| SmartEditor.MissingFile | shared/autonomous/smart_editor.py:58-62 | every operation but create and append fails on a missing file with the no-such-file message |
| SmartEditor.BackupRestores | shared/autonomous/smart_editor.py:208-222 | restoring a backup gives the file back as it was when backed up, or removes it when it did not exist, and leaves other files alone |
| SmartEditor.Insert | shared/autonomous/smart_editor.py:78-144 | the search loop over the lines computes the specified insertion, new files and reply (as intended: inserted after a marked line, the content goes on a line of its own) |
| SmartEditor.Write | shared/autonomous/smart_editor.py:105-106 | a write gives the planned reply, or the permission error for a read-only file |
| SmartEditor.ApplyEdit | shared/autonomous/smart_editor.py:21-62 | the files and the reply become the specified result of the edit (as intended: content inserted after a marked line goes on a line of its own) |
| SmartEditor.BackupFile | shared/autonomous/smart_editor.py:208-213 | the file's text, or None when it does not exist |
| SmartEditor.RestoreBackup | shared/autonomous/smart_editor.py:216-222 | the files and the success flag become the specified restore |
| TaskGenerator.TaskFromRecommendation | shared/autonomous/task_generator.py:46-59 | the task carries the given id and the recommendation's priority, title and description |
| TaskGenerator.Dispatch | shared/autonomous/task_generator.py:46-59 | each of the four categories makes its own kind of task, and every other category a generic one |
| TaskGenerator.Numbered | shared/autonomous/task_generator.py:33-36 | one task per recommendation, in order, numbered from 1 |
| TaskGenerator.Bullets | shared/autonomous/task_generator.py:254-255 | one "- " line per broken link, in order |
| TaskGenerator.FixTask | shared/autonomous/task_generator.py:240-256 | id 1000, kind fix, priority high, listing the first ten broken links (all of them when fewer) |
| TaskGenerator.FixTasks | shared/autonomous/task_generator.py:237-259 | one fix task exactly when there are broken links |
| TaskGenerator.GenerateFixTasks | shared/autonomous/task_generator.py:237-259 | the method returns the specified fix tasks |
| TaskGenerator.Prioritized | shared/autonomous/task_generator.py:261-268 | the tasks sorted by priority rank, each rank keeping its tasks in their original order (a stable sort) |
| TaskGenerator.NumberRecommendations | shared/autonomous/task_generator.py:34-36 | the loop over the recommendations returns exactly the numbered tasks `Numbered` describes |
| TaskGenerator.GenerateTasks | shared/autonomous/task_generator.py:18-44 | the method returns the specified task list for the analysis |
| TaskGenerator.FilterAscending | shared/autonomous/task_generator.py:261-268 | keeping the tasks of one rank keeps ascending ids ascending |
| TaskGenerator.UnsortedAscending | shared/autonomous/task_generator.py:33-39 | before sorting, the ids run 1, 2, ... and the fix task's 1000 comes last |
| TaskGenerator.TasksOrdered | shared/autonomous/task_generator.py:18-44 | the tasks are ordered by rank, and within one rank by id; there is one per recommendation plus the fix task when links are broken |
| TaskGenerator.RecommendationCount | shared/autonomous/coaching_standards.py:278-341 | there are at most eleven recommendations: one per required page and one per check |
| TaskGenerator.GeneratedOrder | shared/autonomous/task_generator.py:18-44 | the generated tasks are sorted by rank, within one rank by id, and their number is the recommendations plus the fix task |
| TaskGenerator.TasksMembers | shared/autonomous/task_generator.py:28-39 | a task is in the list exactly when it is the task of some recommendation numbered by its position, or the fix task when links are broken |
| TaskGenerator.TitleOfLowerWord | shared/autonomous/task_generator.py:63 | lower-casing undoes title-casing on a lower-case word, which only raises its first letter |
| TaskGenerator.NoAddInTitle | shared/autonomous/task_generator.py:63 | the title of a lower-case word other than "add" contains no "Add " |
| TaskGenerator.PageNameOfTitle | shared/autonomous/task_generator.py:63 | the page name is recovered from its "Add <Page> Page" title for every lower-case word but "add" |
| TaskGenerator.RequiredPageNames | shared/autonomous/coaching_standards.py:19-115 | every required page is a lower-case word other than "add" |
| TaskGenerator.PageTaskNamesPage | shared/autonomous/task_generator.py:61-77 | the page task made for a missing required page names that page and prompts for it |
| TaskGenerator.ParseTimeEstimate | shared/autonomous/task_generator.py:302-312 | the estimate in minutes is never negative |
| TaskGenerator.ParseIntNegative | shared/autonomous/task_generator.py:306-310 | a negative number is written with a "-" |
| TaskGenerator.RangeEstimate | shared/autonomous/task_generator.py:306-308 | "a-b ..." gives a |
| TaskGenerator.WordEstimate | shared/autonomous/task_generator.py:309-310 | "n minutes" gives n |
| TaskGenerator.LeadingDashEstimate | shared/autonomous/task_generator.py:306-312 | a leading "-" leaves nothing to parse before it, giving the default 30 |
| TaskGenerator.BlankEstimate | shared/autonomous/task_generator.py:309-312 | a blank estimate has no first word, giving the default 30 |
| TaskGenerator.KindEstimates | shared/autonomous/task_generator.py:74-116 | the estimates the task kinds carry parse to 30, 20, 15 and 30 minutes |
| TaskGenerator.Lines | shared/autonomous/task_generator.py:289-290 | one summary line per task, in order |
| TaskGenerator.Summary | shared/autonomous/task_generator.py:270-300 | the fixed no-tasks text is returned exactly when there are no tasks |
| TaskGenerator.SummaryTime | shared/autonomous/task_generator.py:292-298 | the summary ends with the total estimate split into whole hours and the remaining minutes under 60 |
| TaskGenerator.SectionListsTask | shared/autonomous/task_generator.py:286-290 | a task's line is in its priority's block |
| TaskGenerator.SectionsListTask | shared/autonomous/task_generator.py:286-290 | a task of one of the four priorities has its line among the blocks |
| TaskGenerator.SummaryListsTask | shared/autonomous/task_generator.py:270-300 | every task of a known priority is listed in the summary |
| TaskGenerator.UnknownPriorityNotListed | shared/autonomous/task_generator.py:286-290 | a priority no task has gets an empty block, so a task of any other priority is counted and timed but never listed |
| TaskStateManager.TaskState.Duration | shared/autonomous/task_state_manager.py:102-106 | the elapsed time exists exactly when both timestamps are set and non-zero, and is their difference |
| TaskStateManager.NewTask | shared/autonomous/task_state_manager.py:33-75 | a new record is pending, at progress 0, with no retries out of three, so it can be retried, is not complete and has no duration |
| TaskStateManager.FieldNamed | shared/autonomous/task_state_manager.py:33-75 | each attribute is named by its own dictionary key |
| TaskStateManager.Assign | shared/autonomous/task_state_manager.py:321-323 | assigning one attribute changes no other of the status, ids, retry count and dependencies |
| TaskStateManager.SetAttribute | shared/autonomous/task_state_manager.py:321-323 | a key that names no attribute changes nothing; each key changes only its own attribute |
| TaskStateManager.UnknownKeysIgnored | shared/autonomous/task_state_manager.py:321-323 | applying an update list equals applying only its keys that name attributes |
| TaskStateManager.StartUpdates | shared/autonomous/task_state_manager.py:327-332 | start_task's update makes the task running from the given time and changes nothing else |
| TaskStateManager.CompleteUpdates | shared/autonomous/task_state_manager.py:334-346 | complete_task's update sets completed, the completion time, progress 100 and the result, and nothing else |
| TaskStateManager.FailUpdates | shared/autonomous/task_state_manager.py:367-371 | fail_task's update sets the status, the error and the retry count, and nothing else |
| TaskStateManager.StatusUntouched | shared/autonomous/task_state_manager.py:321-323 | an update list that does not name status leaves the status as it was |
| TaskStateManager.AfterFailure | shared/autonomous/task_state_manager.py:355-371 | a failure counts one more retry; the task is retrying exactly while retries remain and failed exactly once they are used up; the error is recorded and nothing else changes |
| TaskStateManager.ThirdFailureIsTerminal | shared/autonomous/task_state_manager.py:58-59 | with the default three retries, a new task is retrying after one or two failures and failed from the third on |
| TaskStateManager.PriorityRank | shared/autonomous/task_state_manager.py:409-416 | the rank is never negative |
| TaskStateManager.NextTask | shared/autonomous/task_state_manager.py:373-418 | a pending or retrying task whose dependencies are all completed, of the best rank among those, the first listed among equals; none exactly when no task is ready |
| TaskStateManager.StatusPartition | shared/autonomous/task_state_manager.py:432-436 | every task is counted exactly once among completed, failed, running and the rest |
| TaskStateManager.Percentage | shared/autonomous/task_state_manager.py:452 | the completion percentage lies between 0 and 100, is 100 when all are completed and 0 for no tasks |
| TaskStateManager.GetStatistics | shared/autonomous/task_state_manager.py:420-455 | the four counts add up to the total; pending is every task neither completed, failed nor running; the percentage is 0 without tasks and within 0-100; the ETA is 0 unless the average duration is positive, and never negative |
| TaskStateManager.Stored | shared/autonomous/task_state_manager.py:152-168 | the saved record is filed under its own ids, the entry it was loaded from is the same record, and all other entries are kept |
| TaskStateManager.TaskStore.constructor | shared/autonomous/task_state_manager.py:121-124 | the store starts empty |
| TaskStateManager.TaskStore.LoadTask | shared/autonomous/task_state_manager.py:174-209 | a record is found exactly when one is stored under the ids |
| TaskStateManager.TaskStore.LoadAllTasks | shared/autonomous/task_state_manager.py:233-253 | at most one record per listed file, each a stored record of the project |
| TaskStateManager.TaskStore.GetNextTask | shared/autonomous/task_state_manager.py:373-418 | a stored task of the project that is ready among the project's loaded tasks, of the best rank among the ready ones; none exactly when no loaded task is ready |
| TaskStateManager.TaskStore.GetProjectStatistics | shared/autonomous/task_state_manager.py:420-455 | the total is the number of the project's loaded tasks, at most one per listed file; the four counts add up to it; the percentage lies within 0-100 and the ETA is never negative |
| TaskStateManager.TaskStore.SaveTask | shared/autonomous/task_state_manager.py:142-172 | the record is stamped with the time and stored under its own ids |
| TaskStateManager.TaskStore.CreateTask | shared/autonomous/task_state_manager.py:255-295 | a new pending record is returned and stored under its ids, over any earlier one |
| TaskStateManager.TaskStore.UpdateTask | shared/autonomous/task_state_manager.py:297-325 | false and no change for an unknown task; otherwise the keys naming attributes are applied in order and the record is saved |
| TaskStateManager.TaskStore.StartTask | shared/autonomous/task_state_manager.py:327-332 | a known task becomes running from the given time, whatever its status and dependencies; an unknown one gives false |
| TaskStateManager.TaskStore.CompleteTask | shared/autonomous/task_state_manager.py:334-346 | a known task becomes completed with progress 100 and the result; an unknown one gives false |
| TaskStateManager.TaskStore.FailTask | shared/autonomous/task_state_manager.py:348-371 | an unknown task gives false and no change; a known one gets the record after one more failure |
| WebsiteAnalyzer.PageFrom | shared/autonomous/website_analyzer.py:83-92 | the page keeps its URL, takes "No title" and "No description" when those are missing, and has forms exactly when the page holds one |
| WebsiteAnalyzer.TrimSlashes | shared/autonomous/website_analyzer.py:16 | the base URL is its input with the trailing slashes, and only those, removed |
| WebsiteAnalyzer.FirstDelimiter | shared/autonomous/website_analyzer.py:115-117 | the host ends at the first '/', '?' or '#', or at the end of the text |
| WebsiteAnalyzer.NetlocOf | shared/autonomous/website_analyzer.py:115-117 | a host never contains '/' |
| WebsiteAnalyzer.NetlocTrimSlashes | shared/autonomous/website_analyzer.py:16 | trailing slashes never change the host |
| WebsiteAnalyzer.InternalIgnoresTrailingSlashes | shared/autonomous/website_analyzer.py:113-117 | stripping the base URL's trailing slashes keeps every link's internal-or-not verdict |
| WebsiteAnalyzer.IsInternal | shared/autonomous/website_analyzer.py:113-117 | a link is internal exactly when its host equals the base URL's host |
| WebsiteAnalyzer.PageKind | shared/autonomous/website_analyzer.py:144-161 | a page sets at most one structure entry, one of the seven kinds, and the base URL's own page sets the homepage entry (as intended: both sides compared lower-cased) |
| WebsiteAnalyzer.PageKindAsWritten | shared/autonomous/website_analyzer.py:144-161 | as written: a page sets at most one of the seven entries, and the homepage entry when its lower-cased URL equals the base URL as given, with or without one trailing slash |
| WebsiteAnalyzer.KeywordKind | shared/autonomous/website_analyzer.py:150-161 | the keyword tests only ever give one of the six kinds other than homepage |
| WebsiteAnalyzer.HomepageMissedAsWritten | shared/autonomous/website_analyzer.py:145-149 | as written, with a capital letter in the base URL its own page is not recognised as the homepage; the case-insensitive test recognises it |
| WebsiteAnalyzer.NoKeyword | shared/autonomous/website_analyzer.py:150-161 | a text without 'b', 'c', 'e' or 'r' holds none of the keywords |
| WebsiteAnalyzer.StructureOf | shared/autonomous/website_analyzer.py:132-163 | the structure has exactly the seven kind entries |
| WebsiteAnalyzer.StructureFlags | shared/autonomous/website_analyzer.py:132-163 | an entry is set exactly when some page is of that kind |
| WebsiteAnalyzer.StructureMonotone | shared/autonomous/website_analyzer.py:144-161 | a set entry stays set however many pages follow |
| WebsiteAnalyzer.OnePerPage | shared/autonomous/website_analyzer.py:148-161 | a page newly sets only the entry of its own kind |
| WebsiteAnalyzer.FeaturesOf | shared/autonomous/website_analyzer.py:165-184 | the count of meta descriptions is at most the number of pages, which is the page total |
| WebsiteAnalyzer.PageInfoUrls | shared/autonomous/website_analyzer.py:84 | one URL per page, in order |
| WebsiteAnalyzer.BrokenLinkUrls | shared/autonomous/website_analyzer.py:73-76 | one URL per broken link, in order |
| WebsiteAnalyzer.Analyzer.constructor | shared/autonomous/website_analyzer.py:15-20 | the base URL without its trailing slashes; nothing visited, no pages, no broken links |
| WebsiteAnalyzer.Analyzer.FetchedOnce | shared/autonomous/website_analyzer.py:63-66 | no URL is recorded twice, neither as two pages nor as a page and a broken link |
| WebsiteAnalyzer.Analyzer.Record | shared/autonomous/website_analyzer.py:72-111 | a fetched URL is appended as a page or as a broken link, and nothing else changes |
| WebsiteAnalyzer.Analyzer.Visit | shared/autonomous/website_analyzer.py:70-94 | a fresh URL's response appends exactly one record: its page for status 200, a broken link with the status for any other status, an unreachable link with the error for a failed request |
| WebsiteAnalyzer.GrewTrans | shared/autonomous/website_analyzer.py:96-104 | the crawl's bookkeeping (visited set only grows within the limit, records only appended, each for a URL not visited before, every visited URL recorded) composes over successive link crawls |
| WebsiteAnalyzer.Analyzer.CrawlLinks | shared/autonomous/website_analyzer.py:96-104 | the link loop visits only internal URLs and keeps the crawl's bookkeeping |
| WebsiteAnalyzer.Analyzer.Crawl | shared/autonomous/website_analyzer.py:58-111 | nothing changes past depth 3, at the page limit or for a visited URL; otherwise the URL is visited and recorded as its page (status 200), a broken link with its status (other status) or an unreachable link with the error (failed request); only the URL itself and internal links are visited, every visited URL is recorded, the visited set never grows past the limit, and pages and broken links are only appended, each for a URL not visited before |
| WebsiteAnalyzer.Analyzer.AnalyzeStructure | shared/autonomous/website_analyzer.py:132-163 | the loop computes the specified structure of the pages found, with the homepage test as intended |
| WebsiteAnalyzer.Analyzer.CheckFeatures | shared/autonomous/website_analyzer.py:165-184 | the loop computes the specified features of the pages found |
| WebsiteAnalyzer.Analyzer.Analyze | shared/autonomous/website_analyzer.py:22-56 | the report has the base URL, the pages found and their count, their structure and features (the homepage test as intended), and the broken links |
| Auth.Used | shared/security/auth.py:148-151 | a successful verification counts one more use and stamps the time, changing nothing else |
| Auth.RevokedNotUsable | shared/security/auth.py:213-218 | a revoked key no longer verifies, every other key verifies as before, and no key is removed |
| Auth.PermissionIgnoresRevocation | shared/security/auth.py:194-218 | revocation leaves permissions alone, so the permission check of any key answers as before |
| Auth.Live | shared/security/auth.py:181-184 | exactly the request times still inside the window, taken from the record |
| Auth.AfterCheck | shared/security/auth.py:177-192 | expired times are dropped and the current time is added exactly when the request is admitted; limit and window are kept |
| Auth.CheckKeepsLimit | shared/security/auth.py:181-192 | a check keeps the record within its limit and holding only times inside the window |
| Auth.Remaining | shared/security/auth.py:259 | the remaining count is between 0 and the limit, and positive exactly when a request would be admitted |
| Auth.LiveIdempotent | shared/security/auth.py:181-184 | dropping expired times twice is dropping them once |
| Auth.AdmittedUsesOne | shared/security/auth.py:187-192 | each admitted request uses up exactly one of the remaining requests |
| Auth.RefusedChangesNothing | shared/security/auth.py:187-188 | a refused request leaves the remaining count at 0 |
| Auth.StatusCode | shared/security/auth.py:293-310 | a request is let through exactly when the status is 200 |
| Auth.AuthManager.constructor | shared/security/auth.py:39-63 | the keys loaded from storage and no rate-limit records |
| Auth.AuthManager.GenerateApiKey | shared/security/auth.py:86-123 | a new active, unused key is stored under the token's hash, with read and write when no permissions are given, and the token is returned |
| Auth.AuthManager.VerifyKey | shared/security/auth.py:129-153 | an unknown or inactive key gives nothing and changes nothing; otherwise the key's use is recorded and the key returned |
| Auth.AuthManager.CheckRateLimit | shared/security/auth.py:155-192 | an unknown key is refused; otherwise the key's record, created with its limit the first time, drops expired times and admits and records the request exactly when fewer than the limit are live |
| Auth.AuthManager.CheckPermission | shared/security/auth.py:194-211 | only a known key can hold a permission |
| Auth.AuthManager.RevokeKey | shared/security/auth.py:213-218 | the key is made inactive and nothing else changes |
| Auth.AuthManager.RateLimitStatus | shared/security/auth.py:235-271 | an error for an unknown key; the full limit for a key with no history; otherwise expired times are dropped and the limit, the remaining count and the reset time of the oldest live request are reported |
| Auth.AuthManager.Authorize | shared/security/auth.py:288-310 | the key is `api_key`, else `x_api_key`; a missing key (401) or one that does not verify (401) changes nothing; otherwise the use is recorded and the rate-limit slot taken, and the answer is 429 when the limit refuses, 403 when the key lacks the permission, and access when both pass |
| Auth.PresentedKey | shared/security/auth.py:291 | the `api_key` argument unless it is missing or empty, else the `x_api_key` argument |
| Auth.AllowedExactly | shared/security/auth.py:293-310 | a request is let through exactly when a non-empty key verifies, is admitted by the rate limit and holds the permission, and then one more use is counted |
| Auth.GeneratedKeyUsable | shared/security/auth.py:103-120 | a freshly generated key verifies, and without explicit permissions may read and write but not administer |
| HealthMonitor.Registered | shared/health_monitor.py:38-47 | a newly registered service has its name and URL, status unknown, no failures and no restarts |
| HealthMonitor.Restarted | shared/health_monitor.py:60-84 | a successful restart counts itself and clears the failures, changing nothing else; a failed one changes nothing |
| HealthMonitor.ContainerName | shared/health_monitor.py:67 | the container name has the service name's length and no spaces |
| HealthMonitor.CheckedConsistent | shared/health_monitor.py:92-116 | after any check the status agrees with the failure count (healthy and unknown have none; degraded has some below the limit; down has reached the limit or was just restarted), restarts are never forgotten, and name and URL are kept |
| HealthMonitor.CheckOutcome | shared/health_monitor.py:92-116 | a healthy check clears the failures; a failure below the limit gives degraded with one more failure; at the limit without a restart, down with one more failure; with a restart, no failures, one more restart, and healthy or down as the recheck says |
| HealthMonitor.FailureStreak | shared/health_monitor.py:101-116 | from no failures, k failed checks without restart leave exactly k failures, degraded until the limit and down from then on |
| HealthMonitor.Monitor.constructor | shared/health_monitor.py:32-36 | the interval and the failure limit as given, and no services |
| HealthMonitor.Monitor.RegisterService | shared/health_monitor.py:38-47 | a fresh record under the name, replacing any earlier one in its place |
| HealthMonitor.Monitor.CheckRound | shared/health_monitor.py:91-118 | one round checks every registered service once, each ending in the specified checked state, and adds or removes none |
| StandaloneAgent.SetDefault | run_standalone_agent.py:50-52 | the key is added with the default only when absent; every other entry, and a present key, is kept |
| StandaloneAgent.DefaultsKeepConfigured | run_standalone_agent.py:49-54 | every configured key keeps its value, and each of auto_pr (true), checkpoint_interval (5) and todo_file ("todo.md") is present, taking the default only when the file is silent |
| StandaloneAgent.DefaultsIdempotent | run_standalone_agent.py:49-52 | filling in the defaults a second time changes nothing |
| StandaloneAgent.FirstMissing | run_standalone_agent.py:43-47 | the first required field the configuration lacks, every earlier one being present, or the end when none is missing |
| StandaloneAgent.LoadConfig | run_standalone_agent.py:20-54 | a missing file exits; a configuration lacking a required field exits naming the first one missing; otherwise the configuration with its defaults, so success holds exactly when the file exists with all required fields |
| StandaloneAgent.HeadingSection | run_standalone_agent.py:78-80 | a section name never contains "#" |
| StandaloneAgent.EntriesFollowTaskLines | run_standalone_agent.py:76-84 | one item per unchecked-item line, in file order, holding the text after the marker; heading lines never become items |
| StandaloneAgent.SectionIsLastHeading | run_standalone_agent.py:74-80 | the section in force is the one the last heading opened, or "General" before any |
| StandaloneAgent.TaskIdsDistinct | run_standalone_agent.py:111 | different positions get different task ids |
| StandaloneAgent.TasksDescribeEntries | run_standalone_agent.py:109-119 | one record per item: ids task_1, task_2, ... in order and all different; the title is the text cut to 100 characters; the description names the section; one hour; pending; type and priority by the rules |
| StandaloneAgent.ParseTodoLines | run_standalone_agent.py:73-121 | the line loop produces the specified records of the unchecked items |
| StandaloneAgent.SectionPriority | run_standalone_agent.py:86-95 | the priority is one of critical, high, medium and low |
| StandaloneAgent.SectionPriorityCases | run_standalone_agent.py:86-95 | critical exactly under a CRITICAL or URGENT heading, high exactly under P0 or HIGH without those, low only under LOW with no earlier keyword, P1 winning over LOW, medium otherwise |
| StandaloneAgent.KeywordType | run_standalone_agent.py:97-107 | the type is one of bugfix, testing, documentation, refactor and feature |
| StandaloneAgent.DocumentImpliesDoc | run_standalone_agent.py:104 | a text mentioning "document" mentions "doc", so that test decides nothing of its own |
| StandaloneAgent.FeatureWhenNoKeyword | run_standalone_agent.py:97-107 | a task is a plain feature exactly when its text mentions none of the keywords, in any case |
| StandaloneAgent.ParseTodoMd | run_standalone_agent.py:56-121 | no tasks when the todo file is missing; otherwise the records of the unchecked items under the section and keyword rules |
| JustTalkComplete.FilesWhere | run_just_talk_complete.py:55-61 | the files whose existence is as asked, never more than there are |
| JustTalkComplete.FilesPartition | run_just_talk_complete.py:55-61 | each critical file is in exactly one of the present and absent lists, which together hold them all |
| JustTalkComplete.CheckFiles | run_just_talk_complete.py:55-61 | the loop over the critical files builds the specified file report |
| JustTalkComplete.AnalyzeJustTalk | run_just_talk_complete.py:23-127 | the file checks then the todo checks give the specified analysis |
| JustTalkComplete.MissingFilesReported | run_just_talk_complete.py:55-61 | one found or missing line per file, one blocker per missing line, the k-th blocker naming the k-th missing file |
| JustTalkComplete.EveryFileReported | run_just_talk_complete.py:55-61 | a missing file gets a missing line and a blocker, a present one a found line |
| JustTalkComplete.TodoNotes | run_just_talk_complete.py:64-85 | each todo note is reported exactly when the todo file exists and mentions its keywords, after the file checks' blockers, leaving the file lines unchanged |
| JustTalkComplete.Each | run_just_talk_complete.py:142-175 | one task per analysis entry |
| JustTalkComplete.TodoTasks | run_just_talk_complete.py:179-190 | at most one task per todo line |
| JustTalkComplete.TodoTasksMedium | run_just_talk_complete.py:184-189 | every todo task is a medium-priority feature |
| JustTalkComplete.AppendEach | run_just_talk_complete.py:142-175 | the loop appends one task per entry, in order, after the tasks so far |
| JustTalkComplete.AppendTodo | run_just_talk_complete.py:179-190 | the loop over the todo lines appends the specified todo tasks |
| JustTalkComplete.GenerateDeploymentTasks | run_just_talk_complete.py:130-193 | blockers, then gaps, then bugs, then the todo file's unchecked lines, as specified |
| JustTalkComplete.TasksInUrgencyOrder | run_just_talk_complete.py:130-193 | every critical task precedes every high one and every high one every medium one, with one task per analysis entry plus one per unchecked todo line |
| JustTalkComplete.TodoTitleOfItem | run_just_talk_complete.py:182-183 | an unchecked item with any indentation is recognised, and its unpadded text is the title |
| JustTalkCompletion.CompletionPriority | run_just_talk_completion.py:47-53 | the priority is critical, high or medium |
| JustTalkCompletion.AlwaysFeature | run_just_talk_completion.py:62 | every task is a feature |
| JustTalkCompletion.PriorityTablesCompared | run_just_talk_completion.py:47-53 | this driver agrees with the standalone one on critical, says high exactly for P0 without critical keywords, gives medium where only HIGH or LOW decided the standalone table, and never says low |
| JustTalkCompletion.ParseTodoMd | run_just_talk_completion.py:21-67 | a missing file is an error; otherwise one feature per unchecked item with this driver's priorities |
| JustTalkCompletion.SameRecordsAsStandalone | run_just_talk_completion.py:21-67 | on the same todo file the two drivers make the same records item for item, except the priority and the type |

## Left out

- Language-model calls are parameters of the model. Their prompt texts are not modelled, including the project architect's analysis and plan generation and the real executor.
- The analysis steps of the production agent and the cost-optimised agent (`_analyze_task`) are parameters. So are their JSON repair (`_parse_json_robust`) and the `find` subprocess behind the project map.
- Regular-expression extraction is a parameter giving the matches:
  - the knowledge graph's import and export extractors;
  - `parse_llm_file_operations` in the file editor;
  - the match stage of the file extractor.
  The driver scripts' unused `re.findall` of the todo text is also not modelled, and neither is the learning engine's `extract_decisions_from_understanding` (learning_engine.py:166-219): it matches decision phrases and list items with regular expressions.
- Floating-point arithmetic is modelled as exact real arithmetic. The cost-optimised agent's token pricing (cost_optimized_agent.py:466-494) is left out: every call's price is part of its reply.
- Disk persistence is modelled as in-memory maps, and the JSON round trip (`to_dict`/`from_dict`, `asdict`/`cls(**data)`) is taken as the identity. This covers:
  - the task store's files, `save_tasks`, the index file, and `export_tasks`/`import_tasks`;
  - the context files and `export_context`/`import_context`;
  - the knowledge graph's `save`, `save_to_file`, `load` and `export_graph`;
  - the project memory file;
  - the API key file (`save_keys`).
- The identifier and key digests are parameters: the MD5 project id in the context manager and the SHA-256 key hash in the API key manager.
- Clocks, sleeps, the jitter of the retry policy and the progress tracker's lock are left out. Time is a parameter, and sleeps are recorded as delays or not modelled.
- Reporting that only formats or prints is not modelled:
  - the progress tracker's `get_task_details`, `get_summary` and `export_to_json`;
  - the first executor's `_print_summary`, `get_execution_log` and `save_execution_report`;
  - the orchestrator's print helpers;
  - the health monitor's `get_status`;
  - the key manager's `list_keys`;
  - the continuity executor's `get_status`.
- Prompt assembly is modelled only in part. The orchestrator's `_build_task_prompt` is not modelled, because the task executor is a parameter. The task generator's four prompt templates are modelled by their template and inputs.
- The continuity executor's `initialize` and `analyze_and_generate_tasks` (autonomous_executor_v2.py:58-160) are not modelled. They load or create the project context, build the knowledge graph when it is empty, resume a session through the session manager, and call `create_task` for each incomplete feature and component. Its `_execute_single_task` is the parameter `Runner`. Of `_create_pr_for_task`, the store update is modelled (`PrUpdates`, `StoreLinked`); its one-second sleep, its printing and the `retry_on_git_error` decorator are not.
- The first executor's `execute_autonomous_workflow` driver and the drivers' `main` functions are not modelled. These cover configuration from the environment, printing and the wiring of components. run_just_talk_complete.py:233 calls `create_task` without a project id and is not modelled either.
- The pre-flight build in run_just_talk_completion.py:105-141 and the `tsc` runs are not modelled; the compiler is a parameter.
- The docker restart and the health check's HTTP request are parameters (`Observation`). The health monitor's endless loop with its `running` flag and interval sleep is modelled as one round (`CheckRound`).
- The website crawl's HTTP fetch is the parameter `site`. Its HTML parsing (title, meta description, headings, forms, images) is an `Html` record given with each response, and `urljoin` is not modelled: each page's links are given already resolved against the page's URL. `_check_performance` (timing a request) and the `analyze_website` driver are not modelled.
- The knowledge graph's features (`add_feature`/`get_feature`) and the file size and modification time of each component are not modelled.
- The project memory's feature map and integration points, and the string formatting of `get_context_for_task` beyond its caps, are not modelled.
- The coaching standards' `get_required_features`, `get_content_guidelines` and `get_design_principles` tables are not modelled: they are fixed reference data that the gap and recommendation logic does not consult.
- The orchestrator's call at project_orchestrator.py:218 does not match the real executor's signature. The model calls an abstract `Executor` instead.
- shared/autonomous/code_executor.py, project_architect.py, real_executor.py and retry_decorator.py, shared/github_pr_manager.py, shared/security/middleware.py and the HTTP and queue services (hp_omen, predator_helios, lenovo) are not part of this model. The session manager that the continuity executor and the orchestrator import is not part of this model either; it is modelled abstractly.
- Strings.IsSpace: `strip`, `split()` and case mapping are modelled over ASCII letters and the ASCII white space characters space, tab, newline, carriage return, vertical tab and form feed only. Python's `str.strip()` and `str.split()` also treat the separators `\x1c`–`\x1f` and the non-ASCII Unicode white space as white space; the model keeps them.
- TaskStateManager.Assign: a value of the wrong kind for a known attribute (for example a string assigned to `retry_count`) leaves the attribute unchanged, where Python would store it.
- TaskStateManager.SetAttribute: `hasattr` is also true for the record's methods (`to_dict`, `from_dict`, `is_complete`, `is_failed`, `is_running`, `can_retry`, `duration`) and for Python's own attributes such as `__class__`. The source then overwrites that attribute of the record, and a later `to_dict` in `save_task` can fail. The model treats these keys as unknown and leaves the record unchanged.
- TaskStateManager.FieldNamed: names only the data attributes, not the methods and Python attributes that `hasattr` also accepts (see `SetAttribute`).
- ContextManager.SetAttribute: a value of the wrong kind for a known attribute leaves it unchanged, where Python would store it. `hasattr` is also true for the context's methods (`to_dict`, `from_dict`) and Python's own attributes; the source overwrites them, and the model leaves the context unchanged.
- ContextManager.IsAttribute: names only the data attributes, not the methods and Python attributes that `hasattr` also accepts.
- WebsiteAnalyzer.Analyzer.Crawl: a malformed link on which `urljoin` or `urlparse` raise `ValueError` (website_analyzer.py:98-111) is not modelled. The source then records the page's URL a second time, as a broken link, after it was already appended as a page.
- WebsiteAnalyzer.Analyzer.FetchedOnce: holds only because that `ValueError` path is left out; in the source such a page's URL is both a page and a broken link.
- File contents are the text as stored. Python opens files in text mode, which turns `\r\n` and `\r` into `\n` on reading; for files with such line ends the line splitting of the file editor, the smart editor and the todo parsers differs from the model's.
- FileEditor.Editor.ExecuteOperations: every operation carries a `file`. An operation without one has the path `None` in the source (`op.get('file')`); for a known action, joining it to the workspace raises a `TypeError`, which is reported as one error `Error processing None: …`.
- CostOptimizedAgent.Agent.ExecuteTask: the cost-limit error is only its fixed text `Cost limit reached`. The spent cost and the limit that the source formats after it (cost_optimized_agent.py:91) are left out, because float formatting is not modelled.
- ContextManager.Manager.SaveContextById: contexts are values. In the source the cached context and the one a caller got from `load_context` are the same object, so the caller also sees the new version and time; in the model the caller's copy keeps its old ones.
- Auth.AuthManager.VerifyKey: the key returned is a copy equal to the stored one after the call. In the source it is the stored object itself, so a caller's later change to it would change the store; no modelled caller changes it.
- ProjectMemory.SuggestSimilar: the source takes five ids from `list(set(...))`, whose order depends on string hashing; the model takes the first five distinct ids in decision order. Its contract states only what holds for every order.
- WebsiteAnalyzer.PageFrom: a `<title>` element without a single string (empty, or holding nested tags) is not modelled; the parser gives either a title text or none. In the source `soup.title.string` is then `None` (website_analyzer.py:85), and `.lower()` in `_analyze_structure` (website_analyzer.py:146) raises `AttributeError`.
- StandaloneAgent.LoadConfig: the printed messages, including the sample configuration, are not modelled; the error result names the case and the missing field, and stands for `sys.exit(1)`. The file is given already parsed, so a file that is not valid JSON, on which `json.load` raises, is not modelled.
- Lists.Take: a negative count gives the empty sequence, where Python's `s[:n]` drops the last `-n` elements. Every caller passes a non-negative constant.

## Findings

| source | as written | input that shows it | evidently intended | confidence | as-written member | corrected member |
|---|---|---|---|---|---|---|
| shared/autonomous/knowledge_graph.py:222-226 | the ignore patterns are matched against the full path, project root included | root "/tmp/app" with the file "src/App.tsx": "tmp" occurs in the path, so every file is dropped | match the patterns against the path relative to the project root | high, not executed | KnowledgeGraph.FilterAsWrittenDropsWholeProject | KnowledgeGraph.Filter |
| shared/autonomous/ai_file_surgeon.py:158 | `edits_applied` is the number of intents minus the number of errors | two intents whose first edit fails: the chain stops with one error, so one edit is reported applied where none was | the number of edits that succeeded before the first failure | high, not executed | AIFileSurgeon.EditsAppliedMiscount | AIFileSurgeon.ApplyMultipleEdits |
| shared/autonomous/autonomous_executor_v2.py:223-227 | `start_execution` is called with keyword arguments `total_tasks` and `project_name`, which it does not take | any non-empty task list: the call raises a TypeError, the session is marked failed and no task runs | start the tracker with an execution id and the task list | high, not executed | ExecutorV2.Executor.ExecuteTasksAsWritten | ExecutorV2.Executor.ExecuteTasks |
| shared/autonomous/project_memory.py:218 | a decision's text concatenates `decision` and `rationale`, which may be stored as None | a recorded decision without a rationale: concatenating None raises a TypeError | treat a missing decision or rationale as empty text | medium, not executed | ProjectMemory.MissingRationaleBreaksSuggestions | ProjectMemory.SuggestSimilar |
| shared/autonomous/smart_editor.py:87-97 | the content is inserted after the marked line even when that line has no final newline | the file "abc", marker "b", content "X": the result is "abcX\n" | the content on a line of its own: "abc\nX\n" | medium, not executed | SmartEditor.InsertAfterGlues | SmartEditor.InsertAfterKeepsLine |
| shared/autonomous/research_engine.py:53 | the cache key joins the feature name and description with ":" | the feature "a:b" described as "c" and the feature "a" described as "b:c" share the key "a:b:c" | a key that keeps name and description apart | medium, not executed | ResearchEngine.CacheKeyCollision | ResearchEngine.StoreIsolated |
| shared/autonomous/website_analyzer.py:145-148 | the page URL is lower-cased but compared with the base URL as given | base "http://A": its own page "http://A" lower-cases to "http://a" and is never the homepage | compare both sides lower-cased | medium, not executed | WebsiteAnalyzer.HomepageMissedAsWritten | WebsiteAnalyzer.PageKind |
