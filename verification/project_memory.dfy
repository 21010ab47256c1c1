/**
 * The project memory: what the tasks of one project have done so far.
 *   - The architectural decisions and the lessons, in the order they were recorded.
 *   - The implementation patterns, with how often and where each was used.
 *   - The owner of every file a task created or modified.
 * Recording a task completion updates all of these in place. The memory also answers two
 * questions: which proposed files already have an owner, and which earlier tasks made
 * decisions matching a description.
 *
 * Python dictionaries keep insertion order, and the context for a task lists files in that
 * order. So the ownership and pattern dictionaries are each a map plus the order of their
 * keys. The memory file, the time stamps of decisions and lessons, and the feature map and
 * integration points are not part of this model; no method here writes the last two.
 */
module ProjectMemory {
  import opened Wrappers
  import opened Lists
  import Strings

  /** One item of `task_data['decisions']`; a key it lacks reads as `None`. */
  datatype DecisionInput = DecisionInput(decision: Option<string>, rationale: Option<string>, files: seq<string>)

  /** What `record_task_completion` is told about a task; an absent list is empty. */
  datatype TaskData = TaskData(
    title: Option<string>,
    filesCreated: seq<string>,
    filesModified: seq<string>,
    patternsUsed: seq<string>,
    decisions: seq<DecisionInput>,
    lessons: seq<string>,
    dependencies: seq<string>)

  datatype Decision = Decision(taskId: string, decision: Option<string>, rationale: Option<string>, filesAffected: seq<string>)
  datatype Ownership = Ownership(createdBy: string, purpose: string, lastModifiedBy: string, dependencies: seq<string>)
  datatype Pattern = Pattern(establishedBy: string, usageCount: nat, examples: seq<string>)
  datatype Lesson = Lesson(taskId: string, lesson: string)

  const UnknownCreator := "unknown"
  const UnknownPurpose := "Unknown"

  /** A dictionary with its key order: every key once, in insertion order. */
  ghost predicate Ordered<V>(m: map<string, V>, order: seq<string>)
  {
    NoDuplicates(order) && (forall k :: k in m <==> k in order)
  }

  /** The order of a dictionary after assigning `key`: a new key goes last. */
  function Inserted<V>(m: map<string, V>, order: seq<string>, key: string): seq<string>
  {
    if key in m then order else order + [key]
  }

  lemma InsertedOrdered<V>(m: map<string, V>, order: seq<string>, key: string, v: V)
    requires Ordered(m, order)
    ensures Ordered(m[key := v], Inserted(m, order, key))
  {
  }

  // ---------------------------------------------------------------------------------
  // Recording a task
  // ---------------------------------------------------------------------------------

  /** The decisions a task records, one per input item, in order. */
  function DecisionsOf(taskId: string, inputs: seq<DecisionInput>): (r: seq<Decision>)
    ensures |r| == |inputs|
    ensures forall i :: 0 <= i < |r| ==>
      r[i] == Decision(taskId, inputs[i].decision, inputs[i].rationale, inputs[i].files)
  {
    seq(|inputs|, i requires 0 <= i < |inputs| => Decision(taskId, inputs[i].decision, inputs[i].rationale, inputs[i].files))
  }

  /** The lessons a task records, one per input item, in order. */
  function LessonsOf(taskId: string, lessons: seq<string>): (r: seq<Lesson>)
    ensures |r| == |lessons|
    ensures forall i :: 0 <= i < |r| ==> r[i] == Lesson(taskId, lessons[i])
  {
    seq(|lessons|, i requires 0 <= i < |lessons| => Lesson(taskId, lessons[i]))
  }

  /** The ownership dictionary and its order. */
  datatype Owners = Owners(owners: map<string, Ownership>, order: seq<string>)

  /** Recording created files: each is owned by the task, created and last modified by it. */
  function Created(o: Owners, taskId: string, purpose: string, deps: seq<string>, files: seq<string>): Owners
  {
    if files == [] then o
    else
      var p := Created(o, taskId, purpose, deps, files[..|files| - 1]);
      var f := files[|files| - 1];
      Owners(p.owners[f := Ownership(taskId, purpose, taskId, deps)], Inserted(p.owners, p.order, f))
  }

  /** Recording one modified file: a known owner entry only changes its last modifier. */
  function ModifiedOne(o: Owners, taskId: string, f: string): Owners
  {
    if f in o.owners then Owners(o.owners[f := o.owners[f].(lastModifiedBy := taskId)], o.order)
    else Owners(o.owners[f := Ownership(UnknownCreator, "Modified by " + taskId, taskId, [])], o.order + [f])
  }

  function Modified(o: Owners, taskId: string, files: seq<string>): Owners
  {
    if files == [] then o else ModifiedOne(Modified(o, taskId, files[..|files| - 1]), taskId, files[|files| - 1])
  }

  /** The ownership dictionary after a task: its created files, then its modified ones. */
  function Owned(o: Owners, taskId: string, data: TaskData): Owners
  {
    var purpose := if data.title.Some? then data.title.value else UnknownPurpose;
    Modified(Created(o, taskId, purpose, data.dependencies, data.filesCreated), taskId, data.filesModified)
  }

  /** Recording created files keeps the key order, and every created file is owned by the task. */
  lemma {:induction false} CreatedOwners(o: Owners, taskId: string, purpose: string, deps: seq<string>, files: seq<string>)
    requires Ordered(o.owners, o.order)
    ensures var r := Created(o, taskId, purpose, deps, files);
      Ordered(r.owners, r.order) &&
      (forall f :: f in files ==> f in r.owners && r.owners[f] == Ownership(taskId, purpose, taskId, deps)) &&
      (forall f :: f !in files ==> (f in r.owners <==> f in o.owners) && (f in o.owners ==> r.owners[f] == o.owners[f]))
  {
    if files != [] {
      CreatedOwners(o, taskId, purpose, deps, files[..|files| - 1]);
      var p := Created(o, taskId, purpose, deps, files[..|files| - 1]);
      InsertedOrdered(p.owners, p.order, files[|files| - 1], Ownership(taskId, purpose, taskId, deps));
      assert files == files[..|files| - 1] + [files[|files| - 1]];
    }
  }

  /**
   * Recording modified files keeps the key order. A file that had an owner entry keeps it,
   * with the task as last modifier; a new one is created by "unknown" and modified by the
   * task; no other entry changes.
   */
  lemma {:induction false} ModifiedOwners(o: Owners, taskId: string, files: seq<string>)
    requires Ordered(o.owners, o.order)
    ensures var r := Modified(o, taskId, files);
      Ordered(r.owners, r.order) &&
      (forall f :: f in files ==> f in r.owners && r.owners[f].lastModifiedBy == taskId) &&
      (forall f :: f in files && f in o.owners ==> r.owners[f] == o.owners[f].(lastModifiedBy := taskId)) &&
      (forall f :: f in files && f !in o.owners ==> r.owners[f].createdBy == UnknownCreator) &&
      (forall f :: f !in files ==> (f in r.owners <==> f in o.owners) && (f in o.owners ==> r.owners[f] == o.owners[f]))
  {
    if files != [] {
      var init := files[..|files| - 1];
      ModifiedOwners(o, taskId, init);
      assert files == init + [files[|files| - 1]];
    }
  }

  /** The pattern dictionary and its order. */
  datatype Patterns = Patterns(patterns: map<string, Pattern>, order: seq<string>)

  /** Recording one use of a pattern: a new one starts at one use, a known one gains one. */
  function UsedOne(p: Patterns, taskId: string, name: string): Patterns
  {
    if name !in p.patterns then Patterns(p.patterns[name := Pattern(taskId, 1, [taskId])], p.order + [name])
    else
      var known := p.patterns[name];
      Patterns(p.patterns[name := known.(usageCount := known.usageCount + 1, examples := known.examples + [taskId])], p.order)
  }

  function Used(p: Patterns, taskId: string, names: seq<string>): Patterns
  {
    if names == [] then p else UsedOne(Used(p, taskId, names[..|names| - 1]), taskId, names[|names| - 1])
  }

  /** Every pattern's usage count is the number of its examples, and it has at least one. */
  ghost predicate CountsExamples(patterns: map<string, Pattern>)
  {
    forall n :: n in patterns ==> patterns[n].usageCount == |patterns[n].examples| >= 1
  }

  /** Recording pattern uses keeps the key order and keeps every usage count equal to the number of examples. */
  lemma {:induction false} UsedPatternsCount(p: Patterns, taskId: string, names: seq<string>)
    requires Ordered(p.patterns, p.order) && CountsExamples(p.patterns)
    ensures var r := Used(p, taskId, names);
      Ordered(r.patterns, r.order) && CountsExamples(r.patterns)
  {
    if names != [] {
      UsedPatternsCount(p, taskId, names[..|names| - 1]);
    }
  }

  /**
   * The task is the last example of every pattern it used, a pattern it introduced names
   * it as the establishing task, and a pattern it did not use is unchanged.
   */
  lemma {:induction false} UsedPatternsEntries(p: Patterns, taskId: string, names: seq<string>)
    ensures var r := Used(p, taskId, names);
      (forall n :: n in names ==> n in r.patterns && |r.patterns[n].examples| > 0 && r.patterns[n].examples[|r.patterns[n].examples| - 1] == taskId) &&
      (forall n :: n in names && n !in p.patterns ==> r.patterns[n].establishedBy == taskId) &&
      (forall n :: n !in names ==> (n in r.patterns <==> n in p.patterns) && (n in p.patterns ==> r.patterns[n] == p.patterns[n]))
  {
    UsedPatternsLast(p, taskId, names);
    UsedPatternsEstablished(p, taskId, names);
    UsedPatternsUnused(p, taskId, names);
  }

  /** The task is the last example of every pattern it used. */
  lemma {:induction false} UsedPatternsLast(p: Patterns, taskId: string, names: seq<string>)
    ensures var r := Used(p, taskId, names);
      forall n :: n in names ==> n in r.patterns && |r.patterns[n].examples| > 0 && r.patterns[n].examples[|r.patterns[n].examples| - 1] == taskId
  {
    if names != [] {
      var init, last := names[..|names| - 1], names[|names| - 1];
      assert names == init + [last];
      UsedPatternsLast(p, taskId, init);
      UsedOneEntries(Used(p, taskId, init), taskId, last);
    }
  }

  /** A pattern the task introduced names it as the establishing task. */
  lemma {:induction false} UsedPatternsEstablished(p: Patterns, taskId: string, names: seq<string>)
    ensures var r := Used(p, taskId, names);
      forall n :: n in names && n !in p.patterns ==> n in r.patterns && r.patterns[n].establishedBy == taskId
  {
    if names != [] {
      var init, last := names[..|names| - 1], names[|names| - 1];
      assert names == init + [last];
      UsedPatternsEstablished(p, taskId, init);
      UsedPatternsUnused(p, taskId, init);
      UsedPatternsLast(p, taskId, init);
      UsedOneEntries(Used(p, taskId, init), taskId, last);
    }
  }

  /** A pattern the task did not use is unchanged. */
  lemma {:induction false} UsedPatternsUnused(p: Patterns, taskId: string, names: seq<string>)
    ensures var r := Used(p, taskId, names);
      forall n :: n !in names ==> (n in r.patterns <==> n in p.patterns) && (n in p.patterns ==> r.patterns[n] == p.patterns[n])
  {
    if names != [] {
      var init, last := names[..|names| - 1], names[|names| - 1];
      assert names == init + [last];
      UsedPatternsUnused(p, taskId, init);
      UsedOneEntries(Used(p, taskId, init), taskId, last);
    }
  }

  /** One use: the task becomes the pattern's last example, a new pattern names it, and nothing else changes. */
  lemma UsedOneEntries(q: Patterns, taskId: string, name: string)
    ensures var r := UsedOne(q, taskId, name);
      && name in r.patterns && |r.patterns[name].examples| > 0
      && r.patterns[name].examples[|r.patterns[name].examples| - 1] == taskId
      && r.patterns[name].establishedBy == (if name in q.patterns then q.patterns[name].establishedBy else taskId)
      && (forall n :: n != name ==> (n in r.patterns <==> n in q.patterns) && (n in q.patterns ==> r.patterns[n] == q.patterns[n]))
  {
  }

  // ---------------------------------------------------------------------------------
  // Questions the memory answers
  // ---------------------------------------------------------------------------------

  /** The warning for a proposed file that already has an owner. */
  function ConflictWarning(f: string, owner: Ownership): string
  {
    "\U{26A0}\U{FE0F} " + f + " already exists (created by " + owner.createdBy + ", last modified by "
      + owner.lastModifiedBy + "). Consider MODIFYING instead of creating new file."
  }

  /** `check_for_conflicts`: one warning per proposed file that has an owner, in input order. */
  function Conflicts(owners: map<string, Ownership>, proposed: seq<string>): (r: seq<string>)
    ensures |r| == Count(proposed, f => f in owners)
  {
    if proposed == [] then []
    else
      var f := proposed[|proposed| - 1];
      Conflicts(owners, proposed[..|proposed| - 1]) + if f in owners then [ConflictWarning(f, owners[f])] else []
  }

  /** Without any owned file among them, no proposed file draws a warning. */
  lemma {:induction false} NoConflicts(owners: map<string, Ownership>, proposed: seq<string>)
    requires forall i :: 0 <= i < |proposed| ==> proposed[i] !in owners
    ensures Conflicts(owners, proposed) == []
  {
    if proposed != [] {
      NoConflicts(owners, proposed[..|proposed| - 1]);
    }
  }

  /** The text a description's keywords are looked for in, where a missing part reads as empty. */
  function DecisionText(d: Decision): string
  {
    Strings.Lower((if d.decision.Some? then d.decision.value else "") + " " + (if d.rationale.Some? then d.rationale.value else ""))
  }

  predicate Matches(keywords: seq<string>, d: Decision)
  {
    exists k :: k in keywords && Strings.Contains(DecisionText(d), k)
  }

  /** The task ids of the matching decisions, each once, in the order first seen. */
  function MatchingIds(keywords: seq<string>, decisions: seq<Decision>): (r: seq<string>)
    ensures NoDuplicates(r)
    ensures forall id :: id in r <==> exists d :: d in decisions && Matches(keywords, d) && d.taskId == id
  {
    if decisions == [] then []
    else
      var init := decisions[..|decisions| - 1];
      var d := decisions[|decisions| - 1];
      var rest := MatchingIds(keywords, init);
      assert decisions == init + [d];
      if Matches(keywords, d) && d.taskId !in rest then rest + [d.taskId] else rest
  }

  /** The lower-cased words of a description. */
  function Keywords(description: string): seq<string>
  {
    Strings.Words(Strings.Lower(description))
  }

  /**
   * `suggest_similar_implementations`, reading a missing decision or rationale as empty:
   * at most five distinct ids of tasks whose decisions match a keyword, and five whenever
   * that many tasks match.
   */
  function SuggestSimilar(decisions: seq<Decision>, description: string): (r: seq<string>)
    ensures NoDuplicates(r) && |r| <= 5
    ensures forall id :: id in r ==> id in MatchingIds(Keywords(description), decisions)
    ensures var n := |MatchingIds(Keywords(description), decisions)|; |r| == if n < 5 then n else 5
  {
    Take(MatchingIds(Keywords(description), decisions), 5)
  }

  /** A recorded decision that lacks its decision or its rationale text. */
  predicate Incomplete(d: Decision)
  {
    d.decision.None? || d.rationale.None?
  }

  /**
   * `suggest_similar_implementations` as written: it concatenates the stored decision and
   * rationale, and a stored `None` makes that concatenation raise `TypeError`.
   */
  function SuggestSimilarAsWritten(decisions: seq<Decision>, description: string): (r: Result<seq<string>>)
    ensures r.Err? <==> exists d :: d in decisions && Incomplete(d)
    ensures r.Ok? ==> r.value == SuggestSimilar(decisions, description)
  {
    if exists d :: d in decisions && Incomplete(d) then Err("unsupported operand type(s) for +: 'NoneType' and 'str'")
    else Ok(SuggestSimilar(decisions, description))
  }

  /**
   * A decision recorded without a rationale (its input item has no `rationale` key) makes
   * every later suggestion query raise, whatever the description.
   */
  lemma MissingRationaleBreaksSuggestions(taskId: string, decision: string, description: string)
    ensures var d := DecisionsOf(taskId, [DecisionInput(Some(decision), None, [])]);
      SuggestSimilarAsWritten(d, description).Err?
  {
    var d := DecisionsOf(taskId, [DecisionInput(Some(decision), None, [])]);
    assert d[0] in d && Incomplete(d[0]);
  }

  /** What `get_context_for_task` shows: the tail or head of each list it caps. */
  datatype TaskContext = TaskContext(
    tasksCompleted: int,
    decisions: seq<Decision>,
    patterns: seq<(string, nat, seq<string>)>,
    files: seq<(string, Ownership)>,
    lessons: seq<Lesson>)

  /** The patterns in dictionary order, each with its count and its first three examples. */
  function PatternLines(patterns: map<string, Pattern>, order: seq<string>): (r: seq<(string, nat, seq<string>)>)
    requires forall n :: n in order ==> n in patterns
    ensures |r| == |order|
    ensures forall i :: 0 <= i < |r| ==>
      (r[i].0 == order[i] && |r[i].2| <= 3 && r[i].1 == patterns[order[i]].usageCount && r[i].2 == Take(patterns[order[i]].examples, 3))
  {
    seq(|order|, i requires 0 <= i < |order| =>
      (order[i], patterns[order[i]].usageCount, Take(patterns[order[i]].examples, 3)))
  }

  /** The first `n` files in dictionary order, with their owner entries. */
  function FileLines(owners: map<string, Ownership>, order: seq<string>, n: nat): (r: seq<(string, Ownership)>)
    requires forall f :: f in order ==> f in owners
    ensures |r| <= n && |r| <= |order|
    ensures forall i :: 0 <= i < |r| ==> r[i] == (order[i], owners[order[i]])
  {
    var first := Take(order, n);
    seq(|first|, i requires 0 <= i < |first| => (first[i], owners[first[i]]))
  }

  class Memory {
    const projectId: string
    var tasksCompleted: int
    var decisions: seq<Decision>
    var patterns: map<string, Pattern>
    var patternOrder: seq<string>
    var owners: map<string, Ownership>
    var fileOrder: seq<string>
    var lessons: seq<Lesson>
    var lastUpdated: real

    /** The dictionaries' key orders match their keys, and pattern counts match their examples. */
    ghost predicate Valid()
      reads this
    {
      Ordered(patterns, patternOrder) && Ordered(owners, fileOrder) && CountsExamples(patterns)
    }

    /** A new memory, as `_load_or_initialize` makes it when there is no memory file. */
    constructor (projectId: string, now: real)
      ensures Valid()
      ensures this.projectId == projectId && tasksCompleted == 0 && decisions == [] && lessons == []
      ensures patterns == map[] && owners == map[] && lastUpdated == now
    {
      this.projectId := projectId;
      tasksCompleted := 0;
      decisions := [];
      patterns := map[];
      patternOrder := [];
      owners := map[];
      fileOrder := [];
      lessons := [];
      lastUpdated := now;
    }

    /** `record_task_completion`, followed by the save that stamps `last_updated`. */
    method RecordTaskCompletion(taskId: string, data: TaskData, now: real)
      requires Valid()
      modifies this
      ensures Valid()
      ensures tasksCompleted == old(tasksCompleted) + 1
      ensures decisions == old(decisions) + DecisionsOf(taskId, data.decisions)
      ensures lessons == old(lessons) + LessonsOf(taskId, data.lessons)
      ensures Owners(owners, fileOrder) == Owned(Owners(old(owners), old(fileOrder)), taskId, data)
      ensures Patterns(patterns, patternOrder) == Used(Patterns(old(patterns), old(patternOrder)), taskId, data.patternsUsed)
      ensures lastUpdated == now
    {
      tasksCompleted := tasksCompleted + 1;
      RecordDecisions(taskId, data.decisions);
      RecordOwnership(taskId, data);
      RecordPatterns(taskId, data.patternsUsed);
      var ls := lessons;
      for i := 0 to |data.lessons|
        invariant ls == old(lessons) + LessonsOf(taskId, data.lessons[..i])
      {
        assert data.lessons[..i + 1][..i] == data.lessons[..i];
        ls := ls + [Lesson(taskId, data.lessons[i])];
      }
      assert data.lessons[..|data.lessons|] == data.lessons;
      lessons := ls;
      lastUpdated := now;
    }

    /** The decisions part of `record_task_completion`. */
    method RecordDecisions(taskId: string, inputs: seq<DecisionInput>)
      modifies this
      ensures decisions == old(decisions) + DecisionsOf(taskId, inputs)
      ensures tasksCompleted == old(tasksCompleted) && lessons == old(lessons) && lastUpdated == old(lastUpdated)
      ensures patterns == old(patterns) && patternOrder == old(patternOrder)
      ensures owners == old(owners) && fileOrder == old(fileOrder)
    {
      var ds := decisions;
      for i := 0 to |inputs|
        invariant ds == old(decisions) + DecisionsOf(taskId, inputs[..i])
      {
        assert inputs[..i + 1][..i] == inputs[..i];
        ds := ds + [Decision(taskId, inputs[i].decision, inputs[i].rationale, inputs[i].files)];
      }
      assert inputs[..|inputs|] == inputs;
      decisions := ds;
    }

    /** The file ownership part of `record_task_completion`: created files first, then modified ones. */
    method RecordOwnership(taskId: string, data: TaskData)
      requires Valid()
      modifies this
      ensures Valid()
      ensures Owners(owners, fileOrder) == Owned(Owners(old(owners), old(fileOrder)), taskId, data)
      ensures tasksCompleted == old(tasksCompleted) && lessons == old(lessons) && lastUpdated == old(lastUpdated)
      ensures patterns == old(patterns) && patternOrder == old(patternOrder) && decisions == old(decisions)
    {
      var purpose := if data.title.Some? then data.title.value else UnknownPurpose;
      var o, order := owners, fileOrder;
      ghost var o0 := Owners(o, order);
      for i := 0 to |data.filesCreated|
        invariant Owners(o, order) == Created(o0, taskId, purpose, data.dependencies, data.filesCreated[..i])
      {
        assert data.filesCreated[..i + 1][..i] == data.filesCreated[..i];
        var f := data.filesCreated[i];
        order := Inserted(o, order, f);
        o := o[f := Ownership(taskId, purpose, taskId, data.dependencies)];
      }
      assert data.filesCreated[..|data.filesCreated|] == data.filesCreated;
      CreatedOwners(o0, taskId, purpose, data.dependencies, data.filesCreated);
      ghost var o1 := Owners(o, order);
      for i := 0 to |data.filesModified|
        invariant Owners(o, order) == Modified(o1, taskId, data.filesModified[..i])
      {
        assert data.filesModified[..i + 1][..i] == data.filesModified[..i];
        var f := data.filesModified[i];
        if f in o {
          o := o[f := o[f].(lastModifiedBy := taskId)];
        } else {
          o := o[f := Ownership(UnknownCreator, "Modified by " + taskId, taskId, [])];
          order := order + [f];
        }
      }
      assert data.filesModified[..|data.filesModified|] == data.filesModified;
      ModifiedOwners(o1, taskId, data.filesModified);
      owners, fileOrder := o, order;
    }

    /** The pattern part of `record_task_completion`. */
    method RecordPatterns(taskId: string, names: seq<string>)
      requires Valid()
      modifies this
      ensures Valid()
      ensures Patterns(patterns, patternOrder) == Used(Patterns(old(patterns), old(patternOrder)), taskId, names)
      ensures tasksCompleted == old(tasksCompleted) && lessons == old(lessons) && lastUpdated == old(lastUpdated)
      ensures owners == old(owners) && fileOrder == old(fileOrder) && decisions == old(decisions)
    {
      var ps, porder := patterns, patternOrder;
      ghost var p0 := Patterns(ps, porder);
      for i := 0 to |names|
        invariant Patterns(ps, porder) == Used(p0, taskId, names[..i])
      {
        assert names[..i + 1][..i] == names[..i];
        var name := names[i];
        if name !in ps {
          ps := ps[name := Pattern(taskId, 1, [taskId])];
          porder := porder + [name];
        } else {
          var p := ps[name];
          ps := ps[name := p.(usageCount := p.usageCount + 1, examples := p.examples + [taskId])];
        }
      }
      assert names[..|names|] == names;
      UsedPatternsCount(p0, taskId, names);
      patterns, patternOrder := ps, porder;
    }

    /** `check_for_conflicts`. */
    method CheckForConflicts(proposed: seq<string>) returns (warnings: seq<string>)
      ensures warnings == Conflicts(owners, proposed)
    {
      warnings := [];
      for i := 0 to |proposed|
        invariant warnings == Conflicts(owners, proposed[..i])
      {
        assert proposed[..i + 1][..i] == proposed[..i];
        var f := proposed[i];
        if f in owners {
          warnings := warnings + [ConflictWarning(f, owners[f])];
        }
      }
      assert proposed[..|proposed|] == proposed;
    }

    /** `get_context_for_task`'s content: the last ten decisions and lessons, the first twenty files. */
    function ContextForTask(): (r: TaskContext)
      reads this
      requires Valid()
      ensures |r.decisions| <= 10 && |r.lessons| <= 10 && |r.files| <= 20
      ensures |r.decisions| <= |decisions| && |r.lessons| <= |lessons|
      ensures r.decisions == decisions[|decisions| - |r.decisions|..] && r.lessons == lessons[|lessons| - |r.lessons|..]
      ensures |r.decisions| == if |decisions| < 10 then |decisions| else 10
      ensures |r.patterns| == |patternOrder|
      ensures |r.files| == if |fileOrder| < 20 then |fileOrder| else 20
    {
      TaskContext(tasksCompleted, Last(decisions, 10), PatternLines(patterns, patternOrder),
                  FileLines(owners, fileOrder, 20), Last(lessons, 10))
    }
  }
}
