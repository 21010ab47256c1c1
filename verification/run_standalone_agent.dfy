/**
 * The standalone driver: its configuration with required fields and defaults, and the
 * todo-list parser that turns every unchecked item of a markdown todo file into a task
 * record, taking the priority from the section heading it sits under and the task type
 * from keywords in its text.
 *
 * Reading the files is a parameter: a missing file is `None`, a present one its content
 * (or, for the configuration, its decoded JSON object). Exiting the process is a
 * `Err` carrying the message printed before the exit.
 */
module StandaloneAgent {
  import opened Wrappers
  import opened Values
  import opened Strings
  import opened Lists
  import TSM = TaskStateManager

  /* ---------------------------------------------------------------- configuration */

  /** The fields a configuration must name, in the order they are checked. */
  const Required: seq<string> := ["project_id", "project_path", "project_name"]

  const NotFound := "Configuration file not found: standalone_config.json"

  function MissingField(field: string): string
  {
    "Missing required field in config: " + field
  }

  /** Python's `dict.setdefault`, as far as the dictionary is concerned. */
  function SetDefault(config: map<string, Value>, key: string, v: Value): (r: map<string, Value>)
    ensures r.Keys == config.Keys + {key}
    ensures key in config ==> r == config
    ensures key !in config ==> r[key] == v && forall k :: k in config ==> r[k] == config[k]
  {
    if key in config then config else config[key := v]
  }

  /** The three defaults a loaded configuration receives. */
  function WithDefaults(config: map<string, Value>): map<string, Value>
  {
    SetDefault(SetDefault(SetDefault(config, "auto_pr", Bool(true)), "checkpoint_interval", Int(5)), "todo_file", Str("todo.md"))
  }

  /** Every key the file set keeps its value; each default is present and is used only where the file is silent. */
  lemma DefaultsKeepConfigured(config: map<string, Value>)
    ensures WithDefaults(config).Keys == config.Keys + {"auto_pr", "checkpoint_interval", "todo_file"}
    ensures forall k :: k in config ==> WithDefaults(config)[k] == config[k]
    ensures "auto_pr" !in config ==> WithDefaults(config)["auto_pr"] == Bool(true)
    ensures "checkpoint_interval" !in config ==> WithDefaults(config)["checkpoint_interval"] == Int(5)
    ensures "todo_file" !in config ==> WithDefaults(config)["todo_file"] == Str("todo.md")
  {
  }

  /** Loading the defaults a second time changes nothing. */
  lemma DefaultsIdempotent(config: map<string, Value>)
    ensures WithDefaults(WithDefaults(config)) == WithDefaults(config)
  {
  }

  /** The index of the first required field the configuration lacks, or `|Required|`. */
  function FirstMissing(config: map<string, Value>, i: nat): (r: nat)
    requires i <= |Required|
    ensures i <= r <= |Required|
    ensures forall j :: i <= j < r ==> Required[j] in config
    ensures r < |Required| ==> Required[r] !in config
    decreases |Required| - i
  {
    if i == |Required| || Required[i] !in config then i else FirstMissing(config, i + 1)
  }

  /**
   * `load_config`: a missing file exits, so does a configuration that lacks a required field
   * (the message names the first one missing); otherwise the configuration with its defaults.
   */
  method LoadConfig(file: Option<map<string, Value>>) returns (r: Result<map<string, Value>>)
    ensures file.None? ==> r == Err(NotFound)
    ensures file.Some? && FirstMissing(file.value, 0) < |Required| ==>
      r == Err(MissingField(Required[FirstMissing(file.value, 0)]))
    ensures file.Some? && FirstMissing(file.value, 0) == |Required| ==> r == Ok(WithDefaults(file.value))
    ensures r.Ok? <==> file.Some? && forall f :: f in Required ==> f in file.value
  {
    if file.None? {
      return Err(NotFound);
    }
    var config := file.value;
    for i := 0 to |Required|
      invariant forall j :: 0 <= j < i ==> Required[j] in config
      invariant FirstMissing(config, 0) >= i
    {
      if Required[i] !in config {
        return Err(MissingField(Required[i]));
      }
    }
    config := SetDefault(config, "auto_pr", Bool(true));
    config := SetDefault(config, "checkpoint_interval", Int(5));
    config := SetDefault(config, "todo_file", Str("todo.md"));
    return Ok(config);
  }

  /* ---------------------------------------------------------------- todo parsing */

  /** The marker of an unchecked item. */
  const Unchecked := "- [ ]"

  /** The section in force before the first heading. */
  const DefaultSection := "General"

  /** Titles are cut to this many characters. */
  const TitleLength := 100

  /** Every parsed task is estimated at one hour. */
  const EstimatedSeconds := 3600

  predicate IsHeading(line: string)
  {
    StartsWith(line, "##")
  }

  /** A line that becomes a task: not a heading, and holding the unchecked marker. */
  predicate IsTaskLine(line: string)
  {
    !IsHeading(line) && Contains(line, Unchecked)
  }

  /** The section a heading line opens: the line without its `#` characters, stripped. */
  function HeadingSection(line: string): (r: string)
    ensures !Contains(r, "#")
  {
    var bare := ReplaceAll(line, "#", "");
    assert !Contains(bare, "#") by {
      NoHashAfterRemoval(line);
    }
    StripKeepsAbsence(bare, '#');
    Strip(bare)
  }

  /** Removing every `#` leaves none. */
  lemma NoHashAfterRemoval(line: string)
    ensures !Contains(ReplaceAll(line, "#", ""), "#")
  {
    var parts := Split(line, "#");
    var r := ReplaceAll(line, "#", "");
    forall k | 0 <= k < |r|
      ensures r[k] != '#'
    {
      JoinCharFromPart(parts, k);
    }
    NotContainsChar(r, '#');
  }

  /** Every character of parts joined with nothing between them comes from one of the parts. */
  lemma {:induction false} JoinCharFromPart(parts: seq<string>, k: int)
    requires forall i :: 0 <= i < |parts| ==> !Contains(parts[i], "#")
    requires 0 <= k < |Join(parts, "")|
    ensures Join(parts, "")[k] != '#'
    decreases |parts|
  {
    var first := parts[0];
    if k < |first| {
      if first[k] == '#' {
        assert OccursAt(first, "#", k);
        ContainsIff(first, "#");
        assert false;
      }
    } else {
      assert |parts| > 1;
      assert Join(parts, "") == first + Join(parts[1..], "");
      JoinCharFromPart(parts[1..], k - |first|);
    }
  }

  /** Stripping a string without some character cannot introduce it. */
  lemma StripKeepsAbsence(s: string, c: char)
    requires !Contains(s, [c])
    ensures !Contains(Strip(s), [c])
  {
    var l := LStrip(s);
    var r := RStrip(l);
    CharAbsent(s, c);
    SliceAvoids(s, l, |s| - |l|, |s|, c);
    SliceAvoids(l, r, 0, |r|, c);
    NotContainsChar(r, c);
  }

  /** A string holding the separator splits into at least two parts. */
  lemma SplitAtLeastTwo(s: string, sep: string)
    requires |sep| > 0 && Contains(s, sep)
    ensures |Split(s, sep)| >= 2
  {
  }

  /** The text of a task line: what lies between the first marker and the next, stripped. */
  function TaskText(line: string): string
    requires Contains(line, Unchecked)
  {
    SplitAtLeastTwo(line, Unchecked);
    Strip(Split(line, Unchecked)[1])
  }

  /** The section and text of one unchecked item. */
  datatype Entry = Entry(section: string, text: string)

  /** Where the line loop stands: the section in force and the items met so far. */
  datatype Scan = Scan(section: string, entries: seq<Entry>)

  /** The line loop's specification: a heading opens a section, a task line adds an item. */
  function ScanLines(lines: seq<string>): Scan
    decreases |lines|
  {
    if lines == [] then Scan(DefaultSection, [])
    else ScanStep(ScanLines(lines[..|lines| - 1]), lines[|lines| - 1])
  }

  /** One line of the loop. */
  function ScanStep(s: Scan, line: string): Scan
  {
    if IsHeading(line) then s.(section := HeadingSection(line))
    else if Contains(line, Unchecked) then s.(entries := s.entries + [Entry(s.section, TaskText(line))])
    else s
  }

  lemma ScanSnoc(lines: seq<string>, i: int)
    requires 0 <= i < |lines|
    ensures ScanLines(lines[..i + 1]) == ScanStep(ScanLines(lines[..i]), lines[i])
  {
    assert lines[..i + 1][..i] == lines[..i];
  }

  /**
   * One item per task line, in file order, each holding that line's text; heading lines
   * never become items, even when they hold the marker.
   */
  lemma {:induction false} EntriesFollowTaskLines(lines: seq<string>)
    ensures |ScanLines(lines).entries| == |Where(lines, IsTaskLine)|
    ensures forall k :: 0 <= k < |ScanLines(lines).entries| ==>
      ScanLines(lines).entries[k].text == TaskText(Where(lines, IsTaskLine)[k])
    decreases |lines|
  {
    if lines != [] {
      var init, last := lines[..|lines| - 1], lines[|lines| - 1];
      EntriesFollowTaskLines(init);
      var s0, kept := ScanLines(init), Where(init, IsTaskLine);
      assert ScanLines(lines) == ScanStep(s0, last);
      assert Where(lines, IsTaskLine) == kept + (if IsTaskLine(last) then [last] else []);
      EntriesStep(s0, last, kept);
    }
  }

  /** One line keeps the items in step with the task lines met. */
  lemma EntriesStep(s0: Scan, last: string, kept: seq<string>)
    requires |s0.entries| == |kept|
    requires forall k :: 0 <= k < |kept| ==> IsTaskLine(kept[k]) && s0.entries[k].text == TaskText(kept[k])
    ensures var s1, kept1 := ScanStep(s0, last), kept + (if IsTaskLine(last) then [last] else []);
      |s1.entries| == |kept1| &&
      forall k :: 0 <= k < |kept1| ==> IsTaskLine(kept1[k]) && s1.entries[k].text == TaskText(kept1[k])
  {
    var s1, kept1 := ScanStep(s0, last), kept + (if IsTaskLine(last) then [last] else []);
    forall k | 0 <= k < |kept1|
      ensures IsTaskLine(kept1[k]) && s1.entries[k].text == TaskText(kept1[k])
    {
      if k < |kept| {
        assert s1.entries[k] == s0.entries[k] && kept1[k] == kept[k];
      } else {
        assert s1.entries[k].text == TaskText(last) && kept1[k] == last;
      }
    }
  }

  /** The section in force is opened by the last heading line, or is the default before any. */
  lemma {:induction false} SectionIsLastHeading(lines: seq<string>)
    ensures var h := LastWhere(lines, IsHeading);
      ScanLines(lines).section == if h < 0 then DefaultSection else HeadingSection(lines[h])
    decreases |lines|
  {
    if lines != [] {
      SectionIsLastHeading(lines[..|lines| - 1]);
    }
  }

  /** The task id for the n-th task. */
  function TaskId(n: nat): string
  {
    "task_" + NatToString(n)
  }

  /** Different positions get different ids. */
  lemma TaskIdsDistinct(m: nat, n: nat)
    requires m != n
    ensures TaskId(m) != TaskId(n)
  {
    if TaskId(m) == TaskId(n) {
      assert TaskId(m)[5..] == NatToString(m);
      assert TaskId(n)[5..] == NatToString(n);
      DigitsValueOfNatToString(m);
      DigitsValueOfNatToString(n);
    }
  }

  /** The record made for the item at position `k`, under given priority and type rules. */
  function TaskFor(projectId: string, k: nat, e: Entry, priority: string -> string, kind: string -> string,
                   now: real): TSM.TaskState
  {
    TSM.NewTask(projectId, TaskId(k + 1), Take(e.text, TitleLength), "From section: " + e.section + "\n\n" + e.text,
                kind(e.text), priority(e.section), EstimatedSeconds, [], now)
  }

  function TasksFor(entries: seq<Entry>, projectId: string, priority: string -> string, kind: string -> string,
                    now: real): seq<TSM.TaskState>
  {
    seq(|entries|, k requires 0 <= k < |entries| => TaskFor(projectId, k, entries[k], priority, kind, now))
  }

  /** One more item adds its record at the end. */
  lemma TasksForSnoc(entries: seq<Entry>, e: Entry, projectId: string, priority: string -> string,
                     kind: string -> string, now: real)
    ensures TasksFor(entries + [e], projectId, priority, kind, now)
      == TasksFor(entries, projectId, priority, kind, now) + [TaskFor(projectId, |entries|, e, priority, kind, now)]
  {
  }

  /**
   * The records made for the items: ids task_1, task_2, … in order and all different,
   * titles the item text cut to 100 characters, descriptions naming the section, one
   * hour each, pending, with the type and priority the rules give.
   */
  lemma TasksDescribeEntries(entries: seq<Entry>, projectId: string, priority: string -> string,
                             kind: string -> string, now: real)
    ensures var ts := TasksFor(entries, projectId, priority, kind, now);
      && |ts| == |entries|
      && (forall k :: 0 <= k < |ts| ==>
            && ts[k].taskId == TaskId(k + 1) && ts[k].projectId == projectId
            && |ts[k].title| <= TitleLength && ts[k].title <= entries[k].text
            && (|entries[k].text| <= TitleLength ==> ts[k].title == entries[k].text)
            && ts[k].description == "From section: " + entries[k].section + "\n\n" + entries[k].text
            && ts[k].priority == priority(entries[k].section) && ts[k].taskType == kind(entries[k].text)
            && ts[k].estimatedDuration == EstimatedSeconds && ts[k].status == TSM.Pending)
      && (forall i, j :: 0 <= i < j < |ts| ==> ts[i].taskId != ts[j].taskId)
  {
    var ts := TasksFor(entries, projectId, priority, kind, now);
    forall i, j | 0 <= i < j < |ts|
      ensures ts[i].taskId != ts[j].taskId
    {
      TaskIdsDistinct(i + 1, j + 1);
    }
  }

  /** The record the loop appends for an item is the one `TasksFor` gives it. */
  lemma AddTask(tasks: seq<TSM.TaskState>, entries: seq<Entry>, section: string, text: string, projectId: string,
                priority: string -> string, kind: string -> string, now: real)
    requires tasks == TasksFor(entries, projectId, priority, kind, now)
    ensures tasks + [TSM.NewTask(projectId, "task_" + NatToString(|tasks| + 1), Take(text, TitleLength),
                                 "From section: " + section + "\n\n" + text, kind(text), priority(section),
                                 EstimatedSeconds, [], now)]
      == TasksFor(entries + [Entry(section, text)], projectId, priority, kind, now)
  {
    TasksForSnoc(entries, Entry(section, text), projectId, priority, kind, now);
  }

  /**
   * The line loop shared by the todo parsers: split the content into lines, follow the
   * headings, and make a task for every unchecked item with the given rules.
   */
  method ParseTodoLines(content: string, projectId: string, priority: string -> string, kind: string -> string,
                        now: real) returns (tasks: seq<TSM.TaskState>)
    ensures tasks == TasksFor(ScanLines(Split(content, "\n")).entries, projectId, priority, kind, now)
  {
    var lines := Split(content, "\n");
    var section := DefaultSection;
    tasks := [];
    ghost var entries: seq<Entry> := [];
    for i := 0 to |lines|
      invariant ScanLines(lines[..i]) == Scan(section, entries)
      invariant tasks == TasksFor(entries, projectId, priority, kind, now)
    {
      var line := lines[i];
      ScanSnoc(lines, i);
      if StartsWith(line, "##") {
        section := HeadingSection(line);
        continue;
      }
      if Contains(line, Unchecked) {
        var text := TaskText(line);
        var task := TSM.NewTask(projectId, "task_" + NatToString(|tasks| + 1), Take(text, TitleLength),
                                "From section: " + section + "\n\n" + text, kind(text), priority(section),
                                EstimatedSeconds, [], now);
        AddTask(tasks, entries, section, text, projectId, priority, kind, now);
        tasks := tasks + [task];
        entries := entries + [Entry(section, text)];
      }
    }
    assert lines[..|lines|] == lines;
  }

  /** The section rules, first match wins. */
  function SectionPriority(section: string): (r: string)
    ensures r in {"critical", "high", "medium", "low"}
  {
    if Contains(section, "CRITICAL") || Contains(section, "URGENT") then "critical"
    else if Contains(section, "P0") || Contains(section, "HIGH") then "high"
    else if Contains(section, "P1") then "medium"
    else if Contains(section, "LOW") then "low"
    else "medium"
  }

  /**
   * What each priority means: critical exactly under a CRITICAL or URGENT heading, high
   * exactly under P0 or HIGH without those, low only under LOW without any earlier
   * keyword, P1 winning over LOW, and medium in every remaining case.
   */
  lemma SectionPriorityCases(section: string)
    ensures SectionPriority(section) == "critical" <==> Contains(section, "CRITICAL") || Contains(section, "URGENT")
    ensures SectionPriority(section) == "high" <==>
      !Contains(section, "CRITICAL") && !Contains(section, "URGENT") && (Contains(section, "P0") || Contains(section, "HIGH"))
    ensures SectionPriority(section) == "low" <==>
      !Contains(section, "CRITICAL") && !Contains(section, "URGENT") && !Contains(section, "P0") && !Contains(section, "HIGH")
      && !Contains(section, "P1") && Contains(section, "LOW")
    ensures (&& Contains(section, "P1") && Contains(section, "LOW") && !Contains(section, "P0") && !Contains(section, "HIGH")
             && !Contains(section, "CRITICAL") && !Contains(section, "URGENT"))
      ==> SectionPriority(section) == "medium"
  {
  }

  /** The keyword rules on the lower-cased text, first match wins. */
  function KeywordType(text: string): (r: string)
    ensures r in {"bugfix", "testing", "documentation", "refactor", "feature"}
  {
    var t := Lower(text);
    if Contains(t, "fix") || Contains(t, "bug") then "bugfix"
    else if Contains(t, "test") then "testing"
    else if Contains(t, "document") || Contains(t, "doc") then "documentation"
    else if Contains(t, "refactor") then "refactor"
    else "feature"
  }

  /** Any text mentioning "doc" is documentation unless an earlier rule applies: the "document" test is subsumed. */
  lemma DocumentImpliesDoc(text: string)
    ensures Contains(Lower(text), "document") ==> Contains(Lower(text), "doc")
  {
    var t := Lower(text);
    if Contains(t, "document") {
      var k := Find(t, "document");
      assert t[k..k + 8] == "document";
      assert t[k..k + 3] == t[k..k + 8][..3] == "doc";
      assert OccursAt(t, "doc", k);
      ContainsIff(t, "doc");
    }
  }

  /** A text is a plain feature exactly when it mentions none of the keywords, in any case. */
  lemma FeatureWhenNoKeyword(text: string)
    ensures KeywordType(text) == "feature" <==>
      var t := Lower(text);
      !Contains(t, "fix") && !Contains(t, "bug") && !Contains(t, "test") && !Contains(t, "doc") && !Contains(t, "refactor")
  {
    DocumentImpliesDoc(text);
  }

  /**
   * `parse_todo_md`: no tasks when the todo file is missing; otherwise one task per
   * unchecked item, with the section and keyword rules.
   */
  method ParseTodoMd(todo: Option<string>, projectId: string, now: real) returns (tasks: seq<TSM.TaskState>)
    ensures todo.None? ==> tasks == []
    ensures todo.Some? ==> tasks == TasksFor(ScanLines(Split(todo.value, "\n")).entries, projectId, SectionPriority, KeywordType, now)
  {
    if todo.None? {
      return [];
    }
    tasks := ParseTodoLines(todo.value, projectId, SectionPriority, KeywordType, now);
  }
}
