/**
 * The Just Talk deployment driver: an analysis that checks six critical files and scans
 * the todo file for urgent, payment and deployment notes, and a task list built from the
 * analysis in a fixed order of urgency, followed by the todo file's unchecked items.
 *
 * The filesystem is a parameter: `isFile` says whether a path under the project exists
 * and `read` gives a file's content. What the driver only prints (counts of checked and
 * unchecked items, the environment variables) is not modelled.
 */
module JustTalkComplete {
  import opened Strings

  datatype CriticalFile = CriticalFile(path: string, description: string)

  /** The files checked, in the order the driver lists them. */
  const CriticalFiles: seq<CriticalFile> := [
    CriticalFile("package.json", "Dependencies"),
    CriticalFile("server/routers.ts", "API routes"),
    CriticalFile("drizzle/schema.ts", "Database schema"),
    CriticalFile("client/src/App.tsx", "Frontend routing"),
    CriticalFile("todo.md", "Known issues"),
    CriticalFile(".env.example", "Environment variables")
  ]

  const TodoPath := "todo.md"

  datatype Analysis = Analysis(filesFound: seq<string>, filesMissing: seq<string>, deploymentBlockers: seq<string>,
                               monetizationGaps: seq<string>, criticalBugs: seq<string>)

  function FoundLine(f: CriticalFile): string
  {
    "\U{2705} " + f.description + ": " + f.path
  }

  function MissingLine(f: CriticalFile): string
  {
    "\U{274C} " + f.description + ": " + f.path
  }

  function Blocker(f: CriticalFile): string
  {
    "Missing " + f.path
  }

  const UrgentNote := "Has URGENT/CRITICAL items in todo.md"
  const PaymentNote := "Payment system incomplete"
  const DeployNote := "Deployment issues noted in todo"

  /** The todo notes: urgency is matched in capitals only, payment and deployment in any case. */
  predicate MentionsUrgent(todo: string)
  {
    Contains(todo, "URGENT") || Contains(todo, "CRITICAL")
  }

  predicate MentionsPayment(todo: string)
  {
    Contains(Lower(todo), "payment") || Contains(Lower(todo), "stripe")
  }

  predicate MentionsDeployment(todo: string)
  {
    Contains(Lower(todo), "deploy") || Contains(Lower(todo), "production")
  }

  /** The files of `fs` whose existence is `present`, in order. */
  function FilesWhere(fs: seq<CriticalFile>, isFile: string -> bool, present: bool): (r: seq<CriticalFile>)
    ensures |r| <= |fs|
    decreases |fs|
  {
    if fs == [] then []
    else FilesWhere(fs[..|fs| - 1], isFile, present) + (if isFile(fs[|fs| - 1].path) == present then [fs[|fs| - 1]] else [])
  }

  function Lines(fs: seq<CriticalFile>, line: CriticalFile -> string): (r: seq<string>)
    ensures |r| == |fs|
  {
    seq(|fs|, i requires 0 <= i < |fs| => line(fs[i]))
  }

  /** Each file is either present or absent: the two lists together hold every file once. */
  lemma {:induction false} FilesPartition(fs: seq<CriticalFile>, isFile: string -> bool)
    ensures |FilesWhere(fs, isFile, true)| + |FilesWhere(fs, isFile, false)| == |fs|
    ensures forall f :: f in fs ==> (f in FilesWhere(fs, isFile, true) <==> isFile(f.path))
    ensures forall f :: f in fs ==> (f in FilesWhere(fs, isFile, false) <==> !isFile(f.path))
    decreases |fs|
  {
    if fs != [] {
      var init := fs[..|fs| - 1];
      FilesPartition(init, isFile);
      assert fs == init + [fs[|fs| - 1]];
      forall f | f in FilesWhere(fs, isFile, true)
        ensures isFile(f.path)
      {
        FilesWhereKept(fs, isFile, true, f);
      }
      forall f | f in FilesWhere(fs, isFile, false)
        ensures !isFile(f.path)
      {
        FilesWhereKept(fs, isFile, false, f);
      }
    }
  }

  lemma {:induction false} FilesWhereKept(fs: seq<CriticalFile>, isFile: string -> bool, present: bool, f: CriticalFile)
    requires f in FilesWhere(fs, isFile, present)
    ensures isFile(f.path) == present
    decreases |fs|
  {
    var init := fs[..|fs| - 1];
    if f !in FilesWhere(init, isFile, present) {
      assert f == fs[|fs| - 1];
    } else {
      FilesWhereKept(init, isFile, present, f);
    }
  }

  /** What the file checks report about `files`: found lines, missing lines and one blocker per missing file. */
  function FileReport(files: seq<CriticalFile>, isFile: string -> bool): Analysis
  {
    var missing := FilesWhere(files, isFile, false);
    Analysis(Lines(FilesWhere(files, isFile, true), FoundLine), Lines(missing, MissingLine), Lines(missing, Blocker), [], [])
  }

  /** The notes the todo file adds, when it exists. */
  function WithTodoNotes(a: Analysis, present: bool, todo: string): Analysis
  {
    a.(criticalBugs := a.criticalBugs + (if present && MentionsUrgent(todo) then [UrgentNote] else []),
       monetizationGaps := a.monetizationGaps + (if present && MentionsPayment(todo) then [PaymentNote] else []),
       deploymentBlockers := a.deploymentBlockers + (if present && MentionsDeployment(todo) then [DeployNote] else []))
  }

  /** The analysis `analyze_just_talk` returns, given the filesystem. */
  function Analyzed(isFile: string -> bool, read: string -> string): Analysis
  {
    WithTodoNotes(FileReport(CriticalFiles, isFile), isFile(TodoPath), read(TodoPath))
  }

  lemma FileReportSnoc(files: seq<CriticalFile>, f: CriticalFile, isFile: string -> bool)
    ensures var r := FileReport(files, isFile);
      FileReport(files + [f], isFile) ==
        if isFile(f.path) then r.(filesFound := r.filesFound + [FoundLine(f)])
        else r.(filesMissing := r.filesMissing + [MissingLine(f)], deploymentBlockers := r.deploymentBlockers + [Blocker(f)])
  {
    assert (files + [f])[..|files|] == files;
  }

  /** The loop over the critical files. */
  method CheckFiles(files: seq<CriticalFile>, isFile: string -> bool) returns (a: Analysis)
    ensures a == FileReport(files, isFile)
  {
    a := Analysis([], [], [], [], []);
    for i := 0 to |files|
      invariant a == FileReport(files[..i], isFile)
    {
      var f := files[i];
      assert files[..i + 1] == files[..i] + [f];
      FileReportSnoc(files[..i], f, isFile);
      if isFile(f.path) {
        a := a.(filesFound := a.filesFound + [FoundLine(f)]);
      } else {
        a := a.(filesMissing := a.filesMissing + [MissingLine(f)], deploymentBlockers := a.deploymentBlockers + [Blocker(f)]);
      }
    }
    assert files[..|files|] == files;
  }

  /** `analyze_just_talk`: the file checks, then the todo checks. */
  method AnalyzeJustTalk(isFile: string -> bool, read: string -> string) returns (a: Analysis)
    ensures a == Analyzed(isFile, read)
  {
    a := CheckFiles(CriticalFiles, isFile);
    if isFile(TodoPath) {
      var todo := read(TodoPath);
      if Contains(todo, "URGENT") || Contains(todo, "CRITICAL") {
        a := a.(criticalBugs := a.criticalBugs + [UrgentNote]);
      }
      if Contains(Lower(todo), "payment") || Contains(Lower(todo), "stripe") {
        a := a.(monetizationGaps := a.monetizationGaps + [PaymentNote]);
      }
      if Contains(Lower(todo), "deploy") || Contains(Lower(todo), "production") {
        a := a.(deploymentBlockers := a.deploymentBlockers + [DeployNote]);
      }
    }
  }

  /**
   * The report holds one line per file, found or missing, and the blockers follow the
   * missing lines position by position: the k-th missing line and the k-th blocker name
   * the same missing file.
   */
  lemma MissingFilesReported(files: seq<CriticalFile>, isFile: string -> bool)
    ensures var a := FileReport(files, isFile);
      && |a.filesFound| + |a.filesMissing| == |files|
      && |a.deploymentBlockers| == |a.filesMissing|
      && (forall k :: 0 <= k < |a.filesMissing| ==>
            exists f :: f in files && !isFile(f.path)
                        && a.filesMissing[k] == MissingLine(f) && a.deploymentBlockers[k] == Blocker(f))
  {
    var a := FileReport(files, isFile);
    var missing := FilesWhere(files, isFile, false);
    assert a.filesMissing == Lines(missing, MissingLine) && a.deploymentBlockers == Lines(missing, Blocker);
    FilesPartition(files, isFile);
    forall k | 0 <= k < |a.filesMissing|
      ensures exists f :: f in files && !isFile(f.path)
                          && a.filesMissing[k] == MissingLine(f) && a.deploymentBlockers[k] == Blocker(f)
    {
      var f := missing[k];
      FilesWhereKept(files, isFile, false, f);
      FilesWhereWithin(files, isFile, false, f);
      assert a.filesMissing[k] == MissingLine(f) && a.deploymentBlockers[k] == Blocker(f);
    }
  }

  /** Every file is reported: a missing one by a missing line and a blocker, a present one by a found line. */
  lemma EveryFileReported(files: seq<CriticalFile>, isFile: string -> bool)
    ensures var a := FileReport(files, isFile);
      && (forall f :: f in files && !isFile(f.path) ==> MissingLine(f) in a.filesMissing && Blocker(f) in a.deploymentBlockers)
      && (forall f :: f in files && isFile(f.path) ==> FoundLine(f) in a.filesFound)
  {
    var a := FileReport(files, isFile);
    var missing := FilesWhere(files, isFile, false);
    var present := FilesWhere(files, isFile, true);
    assert a.filesMissing == Lines(missing, MissingLine) && a.deploymentBlockers == Lines(missing, Blocker);
    assert a.filesFound == Lines(present, FoundLine);
    FilesPartition(files, isFile);
    forall f | f in files && !isFile(f.path)
      ensures MissingLine(f) in a.filesMissing && Blocker(f) in a.deploymentBlockers
    {
      var k :| 0 <= k < |missing| && missing[k] == f;
      assert a.filesMissing[k] == MissingLine(f);
      assert a.deploymentBlockers[k] == Blocker(f);
    }
    forall f | f in files && isFile(f.path)
      ensures FoundLine(f) in a.filesFound
    {
      var k :| 0 <= k < |present| && present[k] == f;
      assert a.filesFound[k] == FoundLine(f);
    }
  }

  lemma {:induction false} FilesWhereWithin(fs: seq<CriticalFile>, isFile: string -> bool, present: bool, f: CriticalFile)
    requires f in FilesWhere(fs, isFile, present)
    ensures f in fs
    decreases |fs|
  {
    var init := fs[..|fs| - 1];
    if f in FilesWhere(init, isFile, present) {
      FilesWhereWithin(init, isFile, present, f);
    }
  }

  /**
   * The todo notes, both ways: a note is reported exactly when the todo file exists and
   * mentions it, and the file checks' blockers come first.
   */
  lemma TodoNotes(files: seq<CriticalFile>, isFile: string -> bool, present: bool, todo: string)
    ensures var r := FileReport(files, isFile);
      var a := WithTodoNotes(r, present, todo);
      && (a.criticalBugs != [] <==> present && MentionsUrgent(todo))
      && (a.monetizationGaps != [] <==> present && MentionsPayment(todo))
      && (DeployNote in a.deploymentBlockers <==> present && MentionsDeployment(todo))
      && a.deploymentBlockers[..|r.deploymentBlockers|] == r.deploymentBlockers
      && a.filesFound == r.filesFound && a.filesMissing == r.filesMissing
  {
    var r := FileReport(files, isFile);
    var missing := FilesWhere(files, isFile, false);
    forall k | 0 <= k < |missing|
      ensures r.deploymentBlockers[k] != DeployNote
    {
      assert r.deploymentBlockers == Lines(missing, Blocker);
      assert r.deploymentBlockers[k] == Blocker(missing[k]);
      assert r.deploymentBlockers[k][0] == 'M';
    }
  }

  /* ---------------------------------------------------------------- task generation */

  /** A task of the deployment list, as the driver's dictionaries hold it. */
  datatype DeployTask = DeployTask(priority: string, category: string, title: string, description: string)

  function BlockerTask(blocker: string): DeployTask
  {
    DeployTask("CRITICAL", "Deployment", "Fix: " + blocker, "Resolve deployment blocker: " + blocker)
  }

  function GapTask(gap: string): DeployTask
  {
    DeployTask("HIGH", "Monetization", "Complete: " + gap, "Implement monetization feature: " + gap)
  }

  function BugTask(bug: string): DeployTask
  {
    DeployTask("HIGH", "Bug Fix", "Fix: " + bug, "Fix critical bug: " + bug)
  }

  /** The title of an unchecked todo line: the stripped line past its first six characters, stripped again. */
  function TodoTitle(line: string): string
  {
    var t := Strip(line);
    Strip(if |t| >= 6 then t[6..] else "")
  }

  function TodoTask(title: string): DeployTask
  {
    DeployTask("MEDIUM", "Feature", title, "Complete: " + title)
  }

  /** A todo line becomes a task when, stripped, it starts with the unchecked marker. */
  predicate IsUnchecked(line: string)
  {
    StartsWith(Strip(line), "- [ ]")
  }

  function Each(xs: seq<string>, make: string -> DeployTask): (r: seq<DeployTask>)
    ensures |r| == |xs| && forall i :: 0 <= i < |xs| ==> r[i] == make(xs[i])
  {
    seq(|xs|, i requires 0 <= i < |xs| => make(xs[i]))
  }

  /** The todo tasks, one per unchecked line in order. */
  function TodoTasks(lines: seq<string>): (r: seq<DeployTask>)
    ensures |r| <= |lines|
    decreases |lines|
  {
    if lines == [] then []
    else
      var line := lines[|lines| - 1];
      TodoTasks(lines[..|lines| - 1]) + (if IsUnchecked(line) then [TodoTask(TodoTitle(line))] else [])
  }

  /** Every todo task is a medium-priority feature. */
  lemma {:induction false} TodoTasksMedium(lines: seq<string>)
    ensures forall k :: 0 <= k < |TodoTasks(lines)| ==>
      TodoTasks(lines)[k].priority == "MEDIUM" && TodoTasks(lines)[k].category == "Feature"
    decreases |lines|
  {
    if lines != [] {
      TodoTasksMedium(lines[..|lines| - 1]);
    }
  }

  /** The todo file's lines, when it exists. */
  function TodoLines(isFile: string -> bool, read: string -> string): seq<string>
  {
    if isFile(TodoPath) then Split(read(TodoPath), "\n") else []
  }

  /** The list `generate_deployment_tasks` returns. */
  function DeploymentTasks(a: Analysis, todoLines: seq<string>): seq<DeployTask>
  {
    Each(a.deploymentBlockers, BlockerTask) + Each(a.monetizationGaps, GapTask) + Each(a.criticalBugs, BugTask)
    + TodoTasks(todoLines)
  }

  lemma EachSnoc(xs: seq<string>, x: string, make: string -> DeployTask)
    ensures Each(xs + [x], make) == Each(xs, make) + [make(x)]
  {
  }

  /** One of the loops over an analysis list: a task per entry, appended in order. */
  method AppendEach(tasks: seq<DeployTask>, xs: seq<string>, make: string -> DeployTask) returns (r: seq<DeployTask>)
    ensures r == tasks + Each(xs, make)
  {
    r := tasks;
    for i := 0 to |xs|
      invariant r == tasks + Each(xs[..i], make)
    {
      assert xs[..i + 1] == xs[..i] + [xs[i]];
      EachSnoc(xs[..i], xs[i], make);
      r := r + [make(xs[i])];
    }
    assert xs[..|xs|] == xs;
  }

  lemma AppendAssoc<T>(a: seq<T>, b: seq<T>, c: seq<T>)
    ensures a + b + c == a + (b + c)
  {
  }

  lemma TodoTasksStep(lines: seq<string>, i: int)
    requires 0 <= i < |lines|
    ensures TodoTasks(lines[..i + 1]) == TodoTasks(lines[..i]) + (if IsUnchecked(lines[i]) then [TodoTask(TodoTitle(lines[i]))] else [])
  {
    assert lines[..i + 1][..i] == lines[..i];
  }

  /** The loop over the todo file's lines. */
  method AppendTodo(tasks: seq<DeployTask>, lines: seq<string>) returns (r: seq<DeployTask>)
    ensures r == tasks + TodoTasks(lines)
  {
    r := tasks;
    for i := 0 to |lines|
      invariant r == tasks + TodoTasks(lines[..i])
    {
      var line := lines[i];
      TodoTasksStep(lines, i);
      ghost var before := TodoTasks(lines[..i]);
      if IsUnchecked(line) {
        var task := TodoTask(TodoTitle(line));
        AppendAssoc(tasks, before, [task]);
        r := r + [task];
      } else {
        assert before + [] == before;
      }
    }
    assert lines[..|lines|] == lines;
  }

  /** `generate_deployment_tasks`: blockers, gaps, bugs, then the todo file's unchecked lines. */
  method GenerateDeploymentTasks(a: Analysis, isFile: string -> bool, read: string -> string) returns (tasks: seq<DeployTask>)
    ensures tasks == DeploymentTasks(a, TodoLines(isFile, read))
  {
    tasks := AppendEach([], a.deploymentBlockers, BlockerTask);
    assert tasks == Each(a.deploymentBlockers, BlockerTask);
    tasks := AppendEach(tasks, a.monetizationGaps, GapTask);
    tasks := AppendEach(tasks, a.criticalBugs, BugTask);
    ghost var analysed := tasks;
    var lines := if isFile(TodoPath) then Split(read(TodoPath), "\n") else [];
    assert lines == TodoLines(isFile, read);
    if isFile(TodoPath) {
      tasks := AppendTodo(tasks, lines);
    } else {
      assert TodoTasks(lines) == [];
      assert tasks == analysed + TodoTasks(lines);
    }
  }

  /** The urgency order of the list: critical before high before medium. */
  function Rank(priority: string): nat
  {
    if priority == "CRITICAL" then 0 else if priority == "HIGH" then 1 else 2
  }

  /**
   * The task list is in urgency order: every critical task precedes every high one, and
   * every high one every medium one; it holds one task per analysis entry plus one per
   * unchecked todo line.
   */
  lemma TasksInUrgencyOrder(a: Analysis, todoLines: seq<string>)
    ensures var ts := DeploymentTasks(a, todoLines);
      && (forall i, j :: 0 <= i < j < |ts| ==> Rank(ts[i].priority) <= Rank(ts[j].priority))
      && |ts| == |a.deploymentBlockers| + |a.monetizationGaps| + |a.criticalBugs| + |TodoTasks(todoLines)|
  {
    var b := Each(a.deploymentBlockers, BlockerTask);
    var g := Each(a.monetizationGaps, GapTask);
    var c := Each(a.criticalBugs, BugTask);
    var t := TodoTasks(todoLines);
    var ts := DeploymentTasks(a, todoLines);
    TodoTasksMedium(todoLines);
    assert forall k :: 0 <= k < |b| ==> Rank(b[k].priority) == 0;
    assert forall k :: 0 <= k < |g| ==> Rank(g[k].priority) == 1;
    assert forall k :: 0 <= k < |c| ==> Rank(c[k].priority) == 1;
    assert forall k :: 0 <= k < |t| ==> Rank(t[k].priority) == 2;
    RanksInOrder(b, g, c, t, ts);
  }

  /** Critical tasks, then high ones, then medium ones, are in urgency order. */
  lemma RanksInOrder(crit: seq<DeployTask>, gaps: seq<DeployTask>, bugs: seq<DeployTask>, rest: seq<DeployTask>,
                      ts: seq<DeployTask>)
    requires ts == crit + gaps + bugs + rest
    requires forall k :: 0 <= k < |crit| ==> Rank(crit[k].priority) == 0
    requires forall k :: 0 <= k < |gaps| ==> Rank(gaps[k].priority) == 1
    requires forall k :: 0 <= k < |bugs| ==> Rank(bugs[k].priority) == 1
    requires forall k :: 0 <= k < |rest| ==> Rank(rest[k].priority) == 2
    ensures forall i, j :: 0 <= i < j < |ts| ==> Rank(ts[i].priority) <= Rank(ts[j].priority)
  {
    var n1, n2, n3 := |crit|, |crit| + |gaps|, |crit| + |gaps| + |bugs|;
    forall k | 0 <= k < |ts|
      ensures Rank(ts[k].priority) == if k < n1 then 0 else if k < n3 then 1 else 2
    {
      if k < n1 {
        assert ts[k] == crit[k];
      } else if k < n2 {
        assert ts[k] == gaps[k - n1];
      } else if k < n3 {
        assert ts[k] == bugs[k - n2];
      } else {
        assert ts[k] == rest[k - n3];
      }
    }
  }

  /** An unchecked item with any indentation yields its text as the title, when that text is unpadded. */
  lemma TodoTitleOfItem(indent: string, text: string)
    requires forall i :: 0 <= i < |indent| ==> IsSpace(indent[i])
    requires text != [] && !IsSpace(text[0]) && !IsSpace(text[|text| - 1])
    ensures IsUnchecked(indent + "- [ ] " + text)
    ensures TodoTitle(indent + "- [ ] " + text) == text
  {
    var item := "- [ ] " + text;
    assert indent + "- [ ] " + text == indent + item;
    assert item[0] == '-' && item[|item| - 1] == text[|text| - 1];
    assert item[6..] == text && item[..5] == "- [ ]";
    StripIndented(indent, item);
    StripUnpadded(text);
  }

  /** Stripping an indented, unpadded string gives the string. */
  lemma StripIndented(indent: string, s: string)
    requires forall i :: 0 <= i < |indent| ==> IsSpace(indent[i])
    requires s != [] && !IsSpace(s[0]) && !IsSpace(s[|s| - 1])
    ensures Strip(indent + s) == s
  {
    LStripIndent(indent, s);
    StripUnpadded(s);
  }
}
