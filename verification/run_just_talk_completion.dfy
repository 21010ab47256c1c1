/**
 * The Just Talk completion driver's todo parser: the same line loop as the standalone
 * driver's, with a shorter priority table and every task a feature.
 *
 * Reading the todo file is a parameter: `None` when it is missing, which makes the
 * source's `open` raise; the model returns an `Err` there.
 */
module JustTalkCompletion {
  import opened Wrappers
  import opened Strings
  import SA = StandaloneAgent
  import TSM = TaskStateManager

  /** The section rules of this driver, first match wins; P1 and every other heading give medium. */
  function CompletionPriority(section: string): (r: string)
    ensures r in {"critical", "high", "medium"}
  {
    if Contains(section, "CRITICAL") || Contains(section, "URGENT") then "critical"
    else if Contains(section, "P0") then "high"
    else "medium"
  }

  /** Every task of this driver is a feature, whatever its text. */
  function AlwaysFeature(text: string): (r: string)
    ensures r == "feature"
  {
    "feature"
  }

  /**
   * How the two drivers' priority tables relate: they agree on critical; this one says high
   * only for P0, where the standalone table says high too; the HIGH and LOW headings the
   * standalone table honours give medium here unless P0 is present; it never says low.
   */
  lemma PriorityTablesCompared(section: string)
    ensures CompletionPriority(section) == "critical" <==> SA.SectionPriority(section) == "critical"
    ensures CompletionPriority(section) == "high" <==>
      !Contains(section, "CRITICAL") && !Contains(section, "URGENT") && Contains(section, "P0")
    ensures CompletionPriority(section) == "high" ==> SA.SectionPriority(section) == "high"
    ensures SA.SectionPriority(section) in {"high", "low"} && !Contains(section, "P0") ==> CompletionPriority(section) == "medium"
    ensures CompletionPriority(section) != "low"
  {
    SA.SectionPriorityCases(section);
  }

  /**
   * `parse_todo_md` of this driver: a missing file raises; otherwise one task per unchecked
   * item, each a feature, with this driver's priority table.
   */
  method ParseTodoMd(todo: Option<string>, projectId: string, now: real) returns (r: Result<seq<TSM.TaskState>>)
    ensures todo.None? <==> r.Err?
    ensures todo.Some? ==>
      r.value == SA.TasksFor(SA.ScanLines(Split(todo.value, "\n")).entries, projectId, CompletionPriority, AlwaysFeature, now)
    ensures r.Ok? ==> forall k :: 0 <= k < |r.value| ==>
      r.value[k].taskType == "feature" && r.value[k].priority in {"critical", "high", "medium"}
  {
    if todo.None? {
      return Err("No such file or directory");
    }
    var tasks := SA.ParseTodoLines(todo.value, projectId, CompletionPriority, AlwaysFeature, now);
    SA.TasksDescribeEntries(SA.ScanLines(Split(todo.value, "\n")).entries, projectId, CompletionPriority, AlwaysFeature, now);
    return Ok(tasks);
  }

  /**
   * On the same todo file the two drivers make the same records, item for item, except
   * for the priority and the task type.
   */
  lemma SameRecordsAsStandalone(content: string, projectId: string, now: real)
    ensures var entries := SA.ScanLines(Split(content, "\n")).entries;
      var mine := SA.TasksFor(entries, projectId, CompletionPriority, AlwaysFeature, now);
      var theirs := SA.TasksFor(entries, projectId, SA.SectionPriority, SA.KeywordType, now);
      |mine| == |theirs| && forall k :: 0 <= k < |mine| ==>
        mine[k] == theirs[k].(priority := CompletionPriority(entries[k].section), taskType := "feature")
  {
  }
}
