/**
 * The task generator: it turns the coaching-standards recommendations for an analysed
 * website into numbered tasks, adds a task for the broken links, sorts the tasks by
 * priority, and summarises them with a time estimate.
 *
 * The four prompt templates are long fixed texts around a few inputs. A prompt is
 * modelled by its template and those inputs.
 */
module TaskGenerator {
  import opened Wrappers
  import opened Strings
  import opened Lists
  import Sorting
  import CS = CoachingStandards

  datatype Prompt =
    | PagePrompt(pageName: string, elements: seq<string>, guidelines: string)
    | FeaturePrompt(title: string, description: string, elements: seq<string>)
    | SecurityPrompt(title: string, description: string, elements: seq<string>)
    | PerformancePrompt(title: string, description: string, elements: seq<string>)
    | Text(text: string)

  /**
   * A generated task. `pageName` and `guidelines` are "" and `elements` and `brokenLinks`
   * are empty where the source's dictionary has no such key.
   */
  datatype Task = Task(id: int, kind: string, priority: string, title: string, description: string,
                       pageName: string, elements: seq<string>, guidelines: string, estimatedTime: string,
                       brokenLinks: seq<string>, prompt: Prompt)

  /** `title.replace('Add ', '').replace(' Page', '').lower()`. */
  function PageName(title: string): string
  {
    Lower(ReplaceAll(ReplaceAll(title, "Add ", ""), " Page", ""))
  }

  /** `_create_task_from_recommendation`: the task for a recommendation, by category. */
  function TaskFromRecommendation(rec: CS.Recommendation, id: int): (t: Task)
    ensures t.id == id && t.priority == rec.priority && t.title == rec.title && t.description == rec.description
  {
    if rec.category == "structure" then
      var page := PageName(rec.title);
      Task(id, "create_page", rec.priority, rec.title, rec.description, page, rec.elements, rec.guidelines,
           "30-60 minutes", [], PagePrompt(page, rec.elements, rec.guidelines))
    else if rec.category == "feature" then
      Task(id, "add_feature", rec.priority, rec.title, rec.description, "", rec.elements, "",
           "20-40 minutes", [], FeaturePrompt(rec.title, rec.description, rec.elements))
    else if rec.category == "security" then
      Task(id, "security", rec.priority, rec.title, rec.description, "", rec.elements, "",
           "15-30 minutes", [], SecurityPrompt(rec.title, rec.description, rec.elements))
    else if rec.category == "performance" then
      Task(id, "optimize", rec.priority, rec.title, rec.description, "", rec.elements, "",
           "30-45 minutes", [], PerformancePrompt(rec.title, rec.description, rec.elements))
    else
      Task(id, "generic", rec.priority, rec.title, rec.description, "", [], "",
           "20-40 minutes", [], Text(rec.title + ": " + rec.description))
  }

  /** The category picks the kind of task, one kind per category, and any other category makes a generic task. */
  lemma Dispatch(rec: CS.Recommendation, id: int)
    ensures var k := TaskFromRecommendation(rec, id).kind;
      (k == "create_page" <==> rec.category == "structure") &&
      (k == "add_feature" <==> rec.category == "feature") &&
      (k == "security" <==> rec.category == "security") &&
      (k == "optimize" <==> rec.category == "performance") &&
      (k == "generic" <==> rec.category !in ["structure", "feature", "security", "performance"])
  {
  }

  /** The recommendations as tasks numbered from 1, in order. */
  function Numbered(recs: seq<CS.Recommendation>): (r: seq<Task>)
    ensures |r| == |recs|
    ensures forall i :: 0 <= i < |r| ==> r[i] == TaskFromRecommendation(recs[i], i + 1)
  {
    if recs == [] then []
    else Numbered(recs[..|recs| - 1]) + [TaskFromRecommendation(recs[|recs| - 1], |recs|)]
  }

  /** The number of links a fix task lists. */
  const ShownLinks := 10

  function Bullets(items: seq<string>): (r: seq<string>)
    ensures |r| == |items| && forall i :: 0 <= i < |r| ==> r[i] == "- " + items[i]
  {
    seq(|items|, i requires 0 <= i < |items| => "- " + items[i])
  }

  /** The task fixing the broken links: it counts all of them and lists the first ten. */
  function FixTask(links: seq<string>): (t: Task)
    ensures t.id == 1000 && t.kind == "fix" && t.priority == "high"
    ensures |t.brokenLinks| == (if |links| < ShownLinks then |links| else ShownLinks)
    ensures t.brokenLinks == links[..|t.brokenLinks|]
  {
    var shown := Take(links, ShownLinks);
    Task(1000, "fix", "high", "Fix Broken Links", "Fix " + NatToString(|links|) + " broken links on the website",
         "", [], "", "15-30 minutes", shown, Text("Fix the following broken links:\n" + Join(Bullets(shown), "\n")))
  }

  /** `_generate_fix_tasks`: one fix task when there are broken links, else none. */
  function FixTasks(links: seq<string>): (r: seq<Task>)
    ensures |r| == (if links == [] then 0 else 1)
  {
    if links == [] then [] else [FixTask(links)]
  }

  method GenerateFixTasks(a: CS.Analysis) returns (tasks: seq<Task>)
    ensures tasks == FixTasks(a.brokenLinks)
  {
    tasks := [];
    var taskId := 1000;
    if a.brokenLinks != [] {
      tasks := tasks + [FixTask(a.brokenLinks)];
      taskId := taskId + 1;
    }
  }

  function TaskRank(t: Task): real
  {
    CS.Rank(t.priority)
  }

  /** `_prioritize_tasks`: Python's stable `sort` by priority rank. */
  function Prioritized(tasks: seq<Task>): (r: seq<Task>)
    ensures |r| == |tasks| && Sorting.SortedBy(r, TaskRank)
    ensures forall k :: Sorting.Filter(r, TaskRank, k) == Sorting.Filter(tasks, TaskRank, k)
  {
    Sorting.SortBy(tasks, TaskRank)
  }

  /** The tasks for some recommendations and broken links: the numbered recommendation tasks, then the fix task, sorted. */
  function TasksFor(recs: seq<CS.Recommendation>, links: seq<string>): seq<Task>
  {
    Prioritized(Numbered(recs) + FixTasks(links))
  }

  /** `generate_tasks`. */
  function Generated(a: CS.Analysis): seq<Task>
  {
    TasksFor(CS.Recommendations(a), a.brokenLinks)
  }

  method GenerateTasks(a: CS.Analysis) returns (tasks: seq<Task>)
    ensures tasks == Generated(a)
  {
    var recs := CS.GenerateRecommendations(a);
    tasks := NumberRecommendations(recs);
    var fixes := GenerateFixTasks(a);
    tasks := tasks + fixes;
    tasks := Prioritized(tasks);
  }

  /** The loop of `generate_tasks` over the recommendations, numbering them from 1. */
  method NumberRecommendations(recs: seq<CS.Recommendation>) returns (tasks: seq<Task>)
    ensures tasks == Numbered(recs)
  {
    tasks := [];
    for i := 0 to |recs|
      invariant tasks == Numbered(recs[..i])
    {
      NumberedSnoc(recs, i);
      tasks := tasks + [TaskFromRecommendation(recs[i], i + 1)];
    }
    assert recs[..|recs|] == recs;
  }

  lemma NumberedSnoc(recs: seq<CS.Recommendation>, i: int)
    requires 0 <= i < |recs|
    ensures Numbered(recs[..i + 1]) == Numbered(recs[..i]) + [TaskFromRecommendation(recs[i], i + 1)]
  {
    assert recs[..i + 1][..i] == recs[..i];
  }

  predicate IdsAscending(s: seq<Task>)
  {
    forall i, j :: 0 <= i < j < |s| ==> s[i].id < s[j].id
  }

  /** Keeping the tasks of one rank keeps ascending ids ascending. */
  lemma {:induction false} FilterAscending(s: seq<Task>, k: real)
    requires IdsAscending(s)
    ensures IdsAscending(Sorting.Filter(s, TaskRank, k))
  {
    if s != [] {
      var init, last := s[..|s| - 1], s[|s| - 1];
      FilterAscending(init, k);
      var f := Sorting.Filter(init, TaskRank, k);
      forall x | x in f ensures x.id < last.id {
        Sorting.FilterMembers(init, TaskRank, k, x);
      }
    }
  }

  /** Before sorting, ids run 1, 2, ... and the fix task's 1000 comes last. */
  lemma UnsortedAscending(recs: seq<CS.Recommendation>, links: seq<string>)
    requires |recs| < 1000
    ensures IdsAscending(Numbered(recs) + FixTasks(links))
  {
  }

  /**
   * The tasks are ordered by priority rank, and within one rank by id; there is one per
   * recommendation plus the fix task when there are broken links.
   */
  lemma TasksOrdered(recs: seq<CS.Recommendation>, links: seq<string>)
    requires |recs| < 1000
    ensures var r := TasksFor(recs, links);
      Sorting.SortedBy(r, TaskRank) && (forall k :: IdsAscending(Sorting.Filter(r, TaskRank, k))) &&
      |r| == |recs| + (if links == [] then 0 else 1)
  {
    UnsortedAscending(recs, links);
    forall k ensures IdsAscending(Sorting.Filter(TasksFor(recs, links), TaskRank, k)) {
      FilterAscending(Numbered(recs) + FixTasks(links), k);
    }
  }

  /** At most one recommendation per page of the table and one per check. */
  lemma RecommendationCount(a: CS.Analysis)
    ensures |CS.Recommendations(a)| <= 11
  {
    CS.RecommendationsOrdered(CS.RequiredPages, a);
  }

  /** The generated tasks are sorted by rank, and within one rank by id. */
  lemma GeneratedOrder(a: CS.Analysis)
    ensures var r := Generated(a);
      Sorting.SortedBy(r, TaskRank) && (forall k :: IdsAscending(Sorting.Filter(r, TaskRank, k))) &&
      |r| == |CS.Recommendations(a)| + (if a.brokenLinks == [] then 0 else 1)
  {
    RecommendationCount(a);
    TasksOrdered(CS.Recommendations(a), a.brokenLinks);
  }

  /**
   * The tasks are the recommendation tasks numbered from 1 in recommendation order, plus
   * the fix task numbered 1000 when there are broken links.
   */
  lemma TasksMembers(recs: seq<CS.Recommendation>, links: seq<string>, t: Task)
    ensures t in TasksFor(recs, links) <==>
      (exists i :: 0 <= i < |recs| && t == TaskFromRecommendation(recs[i], i + 1)) ||
      (links != [] && t == FixTask(links))
  {
    var n := Numbered(recs);
    Sorting.SortByMembers(n + FixTasks(links), TaskRank, t);
    if t in n {
      var i :| 0 <= i < |n| && n[i] == t;
    }
  }

  /** A lower-case word, as the page names of the standards table are. */
  predicate LowerWord(p: string)
  {
    |p| > 0 && forall i :: 0 <= i < |p| ==> 'a' <= p[i] <= 'z'
  }

  /** `.lower()` undoes `.title()` on a lower-case word, and `.title()` raises only the first letter. */
  lemma TitleOfLowerWord(p: string)
    requires LowerWord(p)
    ensures Lower(Title(p)) == p && |Title(p)| == |p|
    ensures Title(p)[0] == UpperChar(p[0]) && forall i :: 0 < i < |p| ==> Title(p)[i] == p[i]
    ensures forall i :: 0 <= i < |p| ==> Title(p)[i] != ' '
  {
    var t := Title(p);
    forall i | 0 <= i < |p| ensures Lower(t)[i] == p[i] {
      assert IsLetter(p[i]);
    }
  }

  /** Python `replace` on text with exactly one occurrence, at its start. */
  lemma ReplaceLeading(x: string, rest: string)
    requires |x| > 0 && !Contains(rest, x)
    ensures ReplaceAll(x + rest, x, "") == rest
  {
    var s := x + rest;
    assert x <= s;
    assert Find(s, x) == 0;
    assert s[|x|..] == rest;
    assert Split(rest, x) == [rest];
    assert Split(s, x) == [s[..0]] + Split(s[|x|..], x);
    assert Split(s, x) == ["", rest];
    assert Join(["", rest], "") == "" + "" + Join([rest], "");
  }

  /** Python `replace` on text with exactly one occurrence, at its end. */
  lemma ReplaceTrailing(t: string, x: string)
    requires |x| > 0 && forall j :: 0 <= j < |t| ==> !OccursAt(t + x, x, j)
    ensures ReplaceAll(t + x, x, "") == t
  {
    var s := t + x;
    assert s[|t|..|t| + |x|] == x;
    assert OccursAt(s, x, |t|);
    var k := Find(s, x);
    assert k == |t|;
    assert s[|t| + |x|..] == [];
    assert Split([], x) == [[]];
    assert s[..|t|] == t;
    assert Split(s, x) == [t] + [[]];
    assert Join([t, []], "") == t + "" + Join([[]], "");
  }

  /** The title of a lower-case word other than "add" has no "Add " in it, even with " Page" after it. */
  lemma NoAddInTitle(p: string)
    requires LowerWord(p) && p != "add"
    ensures !Contains(Title(p) + " Page", "Add ")
  {
    var t := Title(p);
    TitleOfLowerWord(p);
    var rest := t + " Page";
    forall j | 0 <= j ensures !OccursAt(rest, "Add ", j) {
      NoAddAt(p, t, rest, j);
    }
  }

  /** One position of the title with " Page" after it: "Add " does not start there. */
  lemma NoAddAt(p: string, t: string, rest: string, j: int)
    requires LowerWord(p) && p != "add" && |t| == |p| && rest == t + " Page" && 0 <= j
    requires t[0] == UpperChar(p[0]) && forall i :: 0 < i < |p| ==> t[i] == p[i]
    requires forall i :: 0 <= i < |p| ==> t[i] != ' '
    ensures !OccursAt(rest, "Add ", j)
  {
    if j + 4 <= |rest| {
      var w := rest[j..j + 4];
      if j + 3 < |t| {
        assert w[3] == t[j + 3] != ' ';
      } else if j + 3 > |t| {
        assert w[3] == " Page"[j + 3 - |t|] != ' ';
      } else if j > 0 {
        assert w[0] == t[j] == p[j] != 'A';
      } else {
        assert p == [p[0], p[1], p[2]];
        assert w[0] == UpperChar(p[0]) && w[1] == p[1] && w[2] == p[2];
        assert w[..3] != "Add";
      }
    }
  }


  /**
   * `page_name` recovers the page from its "Add <Page> Page" title, for every lower-case
   * word except "add" (whose title "Add Add Page" loses both words).
   */
  lemma PageNameOfTitle(p: string)
    requires LowerWord(p) && p != "add"
    ensures PageName("Add " + Title(p) + " Page") == p
  {
    var t := Title(p);
    TitleOfLowerWord(p);
    NoAddInTitle(p);
    assert "Add " + t + " Page" == "Add " + (t + " Page");
    ReplaceLeading("Add ", t + " Page");
    var s := t + " Page";
    forall j | 0 <= j < |t| ensures !OccursAt(s, " Page", j) {
      if j + 5 <= |s| {
        assert s[j..j + 5][0] == t[j] != ' ';
      }
    }
    ReplaceTrailing(t, " Page");
  }

  /** Every page of the standards table is a lower-case word other than "add". */
  lemma RequiredPageNames()
    ensures forall p :: p in CS.RequiredPages ==> LowerWord(p.name) && p.name != "add"
  {
    var names := ["homepage", "about", "services", "contact", "testimonials", "blog", "faq", "pricing"];
    assert |CS.RequiredPages| == |names|;
    forall i | 0 <= i < |names| ensures CS.RequiredPages[i].name == names[i] && LowerWord(names[i]) && names[i] != "add" {
    }
    forall p | p in CS.RequiredPages ensures LowerWord(p.name) && p.name != "add" {
      var i :| 0 <= i < |CS.RequiredPages| && CS.RequiredPages[i] == p;
    }
  }

  /** The page task for a missing required page names that page. */
  lemma PageTaskNamesPage(p: CS.Page, id: int)
    requires p in CS.RequiredPages
    ensures var t := TaskFromRecommendation(CS.StructureRecommendation(CS.GapOf(p)), id);
      t.kind == "create_page" && t.pageName == p.name && t.prompt.PagePrompt? && t.prompt.pageName == p.name
  {
    RequiredPageNames();
    PageNameOfTitle(p.name);
  }

  /**
   * `_parse_time_estimate`: the number before the first "-" when there is one, else the
   * first word as a number; 30 when that is not a number (or there is no word).
   */
  function ParseTimeEstimate(s: string): (r: int)
    ensures r >= 0
  {
    if Contains(s, "-") then
      var head := Split(s, "-")[0];
      var v := ParseInt(head);
      if v.Some? then
        if v.value < 0 then ParseIntNegative(head); 30 else v.value
      else 30
    else
      var w := Words(s);
      if w == [] then 30
      else
        var v := ParseInt(w[0]);
        if v.Some? then
          if v.value < 0 then ParseIntNegative(w[0]); ContainsInWord(s); 30 else v.value
        else 30
  }

  /** A negative number is written with a "-". */
  lemma ParseIntNegative(s: string)
    requires ParseInt(s).Some? && ParseInt(s).value < 0
    ensures Contains(s, "-")
  {
    var l := LStrip(s);
    var t := RStrip(l);
    assert t[0] == '-';
    assert l[0] == t[0];
    var k := |s| - |l|;
    assert s[k] == '-';
    assert s[k..k + 1] == "-";
    assert OccursAt(s, "-", k);
  }

  lemma ContainsInWord(s: string)
    requires Words(s) != [] && Contains(Words(s)[0], "-")
    ensures Contains(s, "-")
  {
    FirstWord(s);
    FirstWordInside(s, "-");
  }

  lemma DigitsHaveNoDash(n: nat)
    ensures !Contains(NatToString(n), "-")
  {
    var d := NatToString(n);
    forall i | 0 <= i < |d| ensures d[i] != '-' {
      assert IsDigit(d[i]);
    }
    NotContainsChar(d, '-');
  }

  /** "a-b minutes" gives a. */
  lemma RangeEstimate(a: nat, rest: string)
    ensures ParseTimeEstimate(NatToString(a) + "-" + rest) == a
  {
    var d := NatToString(a);
    var s := d + "-" + rest;
    DigitsHaveNoDash(a);
    FindCharAfter(d, '-', rest);
    assert s == d + ['-'] + rest;
    assert Split(s, "-")[0] == s[..|d|] == d;
    ParseIntOfNatToString(a);
  }

  lemma WordLengthOf(w: string, rest: string)
    requires forall i :: 0 <= i < |w| ==> !IsSpace(w[i])
    requires rest == [] || IsSpace(rest[0])
    ensures WordLength(w + rest) == |w|
  {
    var s := w + rest;
    assert forall i :: 0 <= i < |w| ==> s[i] == w[i];
    assert rest != [] ==> s[|w|] == rest[0];
  }

  lemma NoDashAfterDigits(n: nat, rest: string)
    requires !Contains(rest, "-")
    ensures !Contains(NatToString(n) + rest, "-")
  {
    var d := NatToString(n);
    var s := d + rest;
    forall i | 0 <= i < |s| ensures s[i] != '-' {
      if i < |d| {
        assert IsDigit(d[i]);
      } else {
        var k := i - |d|;
        assert s[i] == rest[k];
        assert !OccursAt(rest, "-", k);
        assert rest[k..k + 1] == [rest[k]];
      }
    }
    NotContainsChar(s, '-');
  }

  lemma DigitsFirstWord(n: nat, rest: string)
    requires rest == [] || IsSpace(rest[0])
    ensures Words(NatToString(n) + rest) != [] && Words(NatToString(n) + rest)[0] == NatToString(n)
  {
    DigitsFirstWordOf(n, rest);
    FirstWord(NatToString(n) + rest);
  }

  lemma DigitsFirstWordOf(n: nat, rest: string)
    requires rest == [] || IsSpace(rest[0])
    ensures LStrip(NatToString(n) + rest) != [] && FirstWordOf(NatToString(n) + rest) == NatToString(n)
  {
    var d := NatToString(n);
    var s := d + rest;
    assert LStrip(s) == s by {
      assert IsDigit(s[0]);
    }
    assert WordLength(s) == |d| by {
      forall i | 0 <= i < |d| ensures !IsSpace(d[i]) {
        assert IsDigit(d[i]);
      }
      WordLengthOf(d, rest);
    }
    assert s[..|d|] == d;
  }

  /** "n minutes" gives n. */
  lemma WordEstimate(n: nat, rest: string)
    requires !Contains(rest, "-") && (rest == [] || IsSpace(rest[0]))
    ensures ParseTimeEstimate(NatToString(n) + rest) == n
  {
    NoDashAfterDigits(n, rest);
    DigitsFirstWord(n, rest);
    ParseIntOfNatToString(n);
  }

  /** A leading "-" leaves nothing before it, and `int("")` fails: the default 30. */
  lemma LeadingDashEstimate(rest: string)
    ensures ParseTimeEstimate("-" + rest) == 30
  {
    var s := "-" + rest;
    assert OccursAt(s, "-", 0);
    assert Find(s, "-") == 0;
    assert Split(s, "-")[0] == "";
  }

  /** A blank estimate has no first word: the default 30. */
  lemma BlankEstimate(s: string)
    requires forall i :: 0 <= i < |s| ==> IsSpace(s[i])
    ensures ParseTimeEstimate(s) == 30
  {
    forall i | 0 <= i < |s| ensures s[i] != '-' {
      assert IsSpace(s[i]);
    }
    NotContainsChar(s, '-');
    assert LStrip(s) == [];
  }

  /** The four estimates the task kinds carry. */
  lemma KindEstimates()
    ensures ParseTimeEstimate("30-60 minutes") == 30 && ParseTimeEstimate("20-40 minutes") == 20
    ensures ParseTimeEstimate("15-30 minutes") == 15 && ParseTimeEstimate("30-45 minutes") == 30
  {
    assert "30-60 minutes" == NatToString(30) + "-" + "60 minutes" by { assert NatToString(30) == "30"; }
    assert "20-40 minutes" == NatToString(20) + "-" + "40 minutes" by { assert NatToString(20) == "20"; }
    assert "15-30 minutes" == NatToString(15) + "-" + "30 minutes" by { assert NatToString(15) == "15"; }
    assert "30-45 minutes" == NatToString(30) + "-" + "45 minutes" by { assert NatToString(30) == "30"; }
    RangeEstimate(30, "60 minutes");
    RangeEstimate(20, "40 minutes");
    RangeEstimate(15, "30 minutes");
    RangeEstimate(30, "45 minutes");
  }

  /** The total of the tasks' estimates, in minutes. */
  function TotalMinutes(tasks: seq<Task>): (r: nat)
  {
    if tasks == [] then 0
    else TotalMinutes(tasks[..|tasks| - 1]) + ParseTimeEstimate(tasks[|tasks| - 1].estimatedTime)
  }

  const Priorities := ["critical", "high", "medium", "low"]

  function Line(t: Task): string
  {
    "  " + IntToString(t.id) + ". " + t.title + "\n"
  }

  function Lines(tasks: seq<Task>): (r: seq<string>)
    ensures |r| == |tasks| && forall i :: 0 <= i < |r| ==> r[i] == Line(tasks[i])
  {
    seq(|tasks|, i requires 0 <= i < |tasks| => Line(tasks[i]))
  }

  function WithPriority(tasks: seq<Task>, p: string): seq<Task>
  {
    Where(tasks, (t: Task) => t.priority == p)
  }

  /** The block of one priority: a heading with the count, then one line per task, in order; "" when there is none. */
  function Section(tasks: seq<Task>, p: string): string
  {
    var group := WithPriority(tasks, p);
    if group == [] then ""
    else "\n" + Upper(p) + " PRIORITY (" + NatToString(|group|) + " tasks):\n" + Concat(Lines(group))
  }

  function TimeLine(total: nat): string
  {
    "\nEstimated total time: " + NatToString(total / 60) + "h " + NatToString(total % 60) + "m\n"
  }

  /** The priority blocks, in the fixed order critical, high, medium, low. */
  function Sections(tasks: seq<Task>): string
  {
    Section(tasks, "critical") + Section(tasks, "high") + Section(tasks, "medium") + Section(tasks, "low")
  }

  function Heading(n: nat): (r: string)
    ensures |r| > 0 && r[0] == 'G'
  {
    "Generated " + NatToString(n) + " tasks:\n\n"
  }

  /** `generate_task_summary`. */
  function Summary(tasks: seq<Task>): (r: string)
    ensures tasks == [] <==> r == "No tasks generated. Website appears complete!"
  {
    if tasks == [] then "No tasks generated. Website appears complete!"
    else
      var head := Heading(|tasks|);
      var r := head + Sections(tasks) + TimeLine(TotalMinutes(tasks));
      assert r[0] == head[0];
      r
  }

  /** The summary ends with the estimate split into whole hours and the remaining minutes. */
  lemma SummaryTime(tasks: seq<Task>)
    requires tasks != []
    ensures exists h: nat, m: nat :: (m < 60 && h * 60 + m == TotalMinutes(tasks) &&
      EndsWith(Summary(tasks), "\nEstimated total time: " + NatToString(h) + "h " + NatToString(m) + "m\n"))
  {
    var total := TotalMinutes(tasks);
    var h, m := total / 60, total % 60;
    var tail := TimeLine(total);
    var s := Summary(tasks);
    assert s == Heading(|tasks|) + Sections(tasks) + tail;
    assert s[|s| - |tail|..] == tail;
    assert h * 60 + m == total;
  }

  lemma {:induction false} ConcatContainsPart(parts: seq<string>, i: int)
    requires 0 <= i < |parts|
    ensures Contains(Concat(parts), parts[i])
  {
    var c := Concat(parts);
    var tail := Concat(parts[1..]);
    assert c == [] + parts[0] + tail;
    if i == 0 {
      ContainsSelf(parts[0]);
      ContainsInMiddle([], parts[0], tail, parts[i]);
    } else {
      ConcatContainsPart(parts[1..], i - 1);
      assert c == parts[0] + tail + [];
      ContainsInMiddle(parts[0], tail, [], parts[i]);
    }
  }

  /** A task has its line in its priority's block. */
  lemma SectionListsTask(tasks: seq<Task>, t: Task)
    requires t in tasks
    ensures Contains(Section(tasks, t.priority), Line(t))
  {
    var group := WithPriority(tasks, t.priority);
    assert t in group;
    var i :| 0 <= i < |group| && group[i] == t;
    var lines := Lines(group);
    ConcatContainsPart(lines, i);
    var head := "\n" + Upper(t.priority) + " PRIORITY (" + NatToString(|group|) + " tasks):\n";
    assert Section(tasks, t.priority) == head + Concat(lines) + [];
    ContainsInMiddle(head, Concat(lines), [], Line(t));
  }

  /** A task of one of the four priorities has its line among the blocks. */
  lemma SectionsListTask(tasks: seq<Task>, t: Task)
    requires t in tasks && t.priority in Priorities
    ensures Contains(Sections(tasks), Line(t))
  {
    SectionListsTask(tasks, t);
    var k :| 0 <= k < 4 && Priorities[k] == t.priority;
    var parts := [Section(tasks, "critical"), Section(tasks, "high"), Section(tasks, "medium"), Section(tasks, "low")];
    assert parts[k] == Section(tasks, t.priority);
    ContainsInFour(parts, k, Line(t));
  }

  lemma ContainsInFour(parts: seq<string>, k: int, x: string)
    requires |parts| == 4 && 0 <= k < 4 && Contains(parts[k], x)
    ensures Contains(parts[0] + parts[1] + parts[2] + parts[3], x)
  {
    var c, h, m, l := parts[0], parts[1], parts[2], parts[3];
    if k == 0 {
      assert c + h + m + l == [] + c + (h + m + l);
      ContainsInMiddle([], c, h + m + l, x);
    } else if k == 1 {
      assert c + h + m + l == c + h + (m + l);
      ContainsInMiddle(c, h, m + l, x);
    } else if k == 2 {
      ContainsInMiddle(c + h, m, l, x);
    } else {
      assert c + h + m + l == (c + h + m) + l + [];
      ContainsInMiddle(c + h + m, l, [], x);
    }
  }

  /** Every task of a known priority is listed in the summary. */
  lemma SummaryListsTask(tasks: seq<Task>, t: Task)
    requires t in tasks && t.priority in Priorities
    ensures Contains(Summary(tasks), Line(t))
  {
    SectionsListTask(tasks, t);
    ContainsInMiddle(Heading(|tasks|), Sections(tasks), TimeLine(TotalMinutes(tasks)), Line(t));
  }

  /** A task of any other priority has no block: it is counted and timed, never listed. */
  lemma UnknownPriorityNotListed(tasks: seq<Task>, p: string)
    requires forall t :: t in tasks ==> t.priority != p
    ensures Section(tasks, p) == ""
  {
    WhereNone(tasks, (t: Task) => t.priority == p);
  }
}
