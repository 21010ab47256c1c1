/**
 * The learning engine: it reads reusable patterns out of generated code, lessons out of
 * the errors a task ran into, and a few performance figures out of a task's run.
 */
module LearningEngine {
  import opened Strings

  /** The patterns that can be reported, in the order they are tested. */
  const PatternNames: seq<string> := [
    "tRPC query procedure pattern",
    "tRPC mutation procedure pattern",
    "tRPC Zod input validation pattern",
    "Drizzle ORM database query pattern",
    "Database transaction pattern",
    "tRPC React query hook pattern",
    "tRPC React mutation hook pattern",
    "Optimistic update pattern with rollback",
    "Protected route with user context pattern",
    "Try-catch error handling pattern",
    "tRPC error throwing pattern",
    "Drizzle schema definition pattern",
    "React functional component pattern",
    "React hooks pattern"
  ]

  /** The code defines a tRPC procedure. */
  predicate HasProcedure(code: string)
  {
    Contains(code, "publicProcedure") || Contains(code, "protectedProcedure")
  }

  /** The test for the pattern at index `i` of `PatternNames`. */
  predicate Shows(code: string, i: nat)
  {
    if i == 0 then HasProcedure(code) && Contains(code, ".query(")
    else if i == 1 then HasProcedure(code) && Contains(code, ".mutation(")
    else if i == 2 then HasProcedure(code) && Contains(code, ".input(z.")
    else if i == 3 then Contains(code, "db.select()") || Contains(code, "db.insert()")
    else if i == 4 then Contains(code, "db.transaction")
    else if i == 5 then Contains(code, "trpc.") && Contains(code, ".useQuery")
    else if i == 6 then Contains(code, "trpc.") && Contains(code, ".useMutation")
    else if i == 7 then Contains(code, "onMutate:") && Contains(code, "onError:")
    else if i == 8 then Contains(code, "ctx.user") && Contains(code, "protectedProcedure")
    else if i == 9 then Contains(code, "try {") && Contains(code, "catch")
    else if i == 10 then Contains(code, "TRPCError")
    else if i == 11 then Contains(code, "sqliteTable") || Contains(code, "mysqlTable")
    else if i == 12 then Contains(code, "export default function") && Contains(code, "return (")
    else if i == 13 then Contains(code, "useState") || Contains(code, "useEffect")
    else false
  }

  /** Which patterns the code shows, in table order. */
  function ShownTable(code: string): (t: seq<bool>)
    ensures |t| == |PatternNames| && forall i :: 0 <= i < |t| ==> t[i] == Shows(code, i)
  {
    seq(|PatternNames|, i requires 0 <= i < |PatternNames| => Shows(code, i))
  }

  /** The names of the patterns among the first `n` whose test holds, in table order. */
  function PatternsUpTo(shown: seq<bool>, n: nat): (r: seq<string>)
    requires n <= |PatternNames| == |shown|
    ensures |r| <= n
  {
    if n == 0 then []
    else PatternsUpTo(shown, n - 1) + (if shown[n - 1] then [PatternNames[n - 1]] else [])
  }

  /** `extract_patterns_from_code`. */
  function Patterns(code: string): seq<string>
  {
    PatternsUpTo(ShownTable(code), |PatternNames|)
  }

  lemma PatternNamesDistinct()
    ensures forall i, j :: 0 <= i < j < |PatternNames| ==> PatternNames[i] != PatternNames[j]
  {
  }

  /** A pattern among the first `n` is reported exactly when its test holds. */
  lemma {:induction false} PatternsUpToMembers(shown: seq<bool>, n: nat, i: nat)
    requires i < n <= |PatternNames| == |shown|
    ensures PatternNames[i] in PatternsUpTo(shown, n) <==> shown[i]
  {
    if i < n - 1 {
      PatternsUpToMembers(shown, n - 1, i);
      PatternNamesDistinct();
      assert PatternNames[i] != PatternNames[n - 1];
    } else {
      PatternsUpToBelow(shown, n - 1, i);
    }
  }

  lemma {:induction false} PatternsUpToBelow(shown: seq<bool>, n: nat, i: nat)
    requires n <= i < |PatternNames| == |shown|
    ensures PatternNames[i] !in PatternsUpTo(shown, n)
  {
    if n > 0 {
      PatternsUpToBelow(shown, n - 1, i);
      PatternNamesDistinct();
      assert PatternNames[n - 1] != PatternNames[i];
    }
  }

  /** Every pattern is reported exactly when the code shows it, and at most once. */
  lemma PatternsMembers(code: string, i: nat)
    requires i < |PatternNames|
    ensures PatternNames[i] in Patterns(code) <==> Shows(code, i)
  {
    PatternsUpToMembers(ShownTable(code), |PatternNames|, i);
  }

  /** The tRPC query, mutation and Zod patterns are reported only for code defining a procedure. */
  lemma ProcedurePatterns(code: string)
    ensures forall i :: 0 <= i < 3 && PatternNames[i] in Patterns(code) ==> HasProcedure(code)
  {
    forall i | 0 <= i < 3 && PatternNames[i] in Patterns(code) ensures HasProcedure(code) {
      PatternsMembers(code, i);
    }
  }

  /** `extract_patterns_from_code`, a run of conditional appends, one per pattern in table order. */
  method ExtractPatterns(code: string) returns (patterns: seq<string>)
    ensures patterns == Patterns(code)
  {
    patterns := [];
    patterns := AppendIfShown(code, patterns, 0);
    patterns := AppendIfShown(code, patterns, 1);
    patterns := AppendIfShown(code, patterns, 2);
    patterns := AppendIfShown(code, patterns, 3);
    patterns := AppendIfShown(code, patterns, 4);
    patterns := AppendIfShown(code, patterns, 5);
    patterns := AppendIfShown(code, patterns, 6);
    patterns := AppendIfShown(code, patterns, 7);
    patterns := AppendIfShown(code, patterns, 8);
    patterns := AppendIfShown(code, patterns, 9);
    patterns := AppendIfShown(code, patterns, 10);
    patterns := AppendIfShown(code, patterns, 11);
    patterns := AppendIfShown(code, patterns, 12);
    patterns := AppendIfShown(code, patterns, 13);
  }

  /** One of those appends: the name of pattern `k` when the code shows it. */
  method AppendIfShown(code: string, patterns: seq<string>, k: nat) returns (r: seq<string>)
    requires k < |PatternNames| && patterns == PatternsUpTo(ShownTable(code), k)
    ensures r == PatternsUpTo(ShownTable(code), k + 1)
  {
    r := patterns + (if Shows(code, k) then [PatternNames[k]] else []);
  }

  /** The kinds of error the engine tells apart. */
  datatype ErrorKind = TypeScript | Import | Trpc | NullSafety | TypeMismatch

  /** The kinds one error message shows; one message can show several. */
  function KindsOf(error: string): set<ErrorKind>
  {
    var low := Lower(error);
    (if Contains(error, "TypeScript") || Contains(error, "error TS") then {TypeScript} else {})
    + (if Contains(error, "Cannot find module") || Contains(low, "import") then {Import} else {})
    + (if Contains(error, "tRPC") || Contains(low, "router") then {Trpc} else {})
    + (if Contains(low, "undefined") || Contains(low, "null") then {NullSafety} else {})
    + (if Contains(low, "type") && Contains(low, "assignable") then {TypeMismatch} else {})
  }

  /** The kinds shown by any of the errors. */
  function ErrorKinds(errors: seq<string>): (r: set<ErrorKind>)
  {
    if errors == [] then {} else ErrorKinds(errors[..|errors| - 1]) + KindsOf(errors[|errors| - 1])
  }

  lemma {:induction false} ErrorKindsMembers(errors: seq<string>, k: ErrorKind)
    ensures k in ErrorKinds(errors) <==> exists e :: e in errors && k in KindsOf(e)
  {
    if errors != [] {
      var init, last := errors[..|errors| - 1], errors[|errors| - 1];
      ErrorKindsMembers(init, k);
      assert ErrorKinds(errors) == ErrorKinds(init) + KindsOf(last);
      SnocExists(errors, e => k in KindsOf(e));
    }
  }

  /** Some element of a non-empty list passes a test exactly when one before the last does or the last does. */
  lemma SnocExists(s: seq<string>, p: string -> bool)
    requires s != []
    ensures (exists e :: e in s && p(e)) <==> (exists e :: e in s[..|s| - 1] && p(e)) || p(s[|s| - 1])
  {
    var init, last := s[..|s| - 1], s[|s| - 1];
    assert s == init + [last];
    if p(last) {
      assert last in s;
    }
    forall e | e in init ensures e in s { }
  }

  /**
   * A lesson. The text of each is fixed by its kind; the fix-attempt lessons carry the
   * number of attempts.
   */
  datatype Lesson = KindLesson(kind: ErrorKind) | Recovered(attempts: nat) | GaveUp(attempts: nat)

  function LessonText(l: Lesson): string
  {
    match l
    case KindLesson(TypeScript) =>
      "TypeScript validation: Always check type compatibility before implementing. Use 'npx tsc --noEmit' to catch type errors early."
    case KindLesson(Import) =>
      "Import path errors: Always verify file exists in project structure before importing. Use relative paths correctly based on file location."
    case KindLesson(Trpc) =>
      "tRPC router issues: Avoid reserved names (useContext, useUtils, Provider). Always check existing router structure before adding procedures."
    case KindLesson(NullSafety) =>
      "Null safety: Add proper null checks and optional chaining (?.) when accessing potentially undefined properties."
    case KindLesson(TypeMismatch) =>
      "Type mismatches: Ensure function return types match expected types. Use type assertions carefully and prefer proper typing."
    case Recovered(n) =>
      "Self-correction successful after " + NatToString(n) + " attempts. Error recovery process works - continue using iterative fixes."
    case GaveUp(n) =>
      "Failed after " + NatToString(n) + " fix attempts. May need human intervention or different approach for this error type."
  }

  /** The order in which kind lessons are given. */
  const KindOrder := [TypeScript, Import, Trpc, NullSafety, TypeMismatch]

  function KindLessons(kinds: set<ErrorKind>, order: seq<ErrorKind>): (r: seq<Lesson>)
    ensures |r| <= |order|
    ensures forall i :: 0 <= i < |r| ==> r[i].KindLesson? && r[i].kind in kinds && r[i].kind in order
  {
    if order == [] then []
    else
      var k := order[|order| - 1];
      KindLessons(kinds, order[..|order| - 1]) + (if k in kinds then [KindLesson(k)] else [])
  }

  /**
   * `extract_lessons_from_errors`: nothing without initial errors; otherwise one lesson per
   * kind shown, in the fixed kind order, then one about the fix attempts when there were any.
   * The attempts themselves are only counted.
   */
  function Lessons(initialErrors: seq<string>, fixAttempts: nat, finalSuccess: bool): seq<Lesson>
  {
    if initialErrors == [] then []
    else
      KindLessons(ErrorKinds(initialErrors), KindOrder)
      + (if fixAttempts > 0 && finalSuccess then [Recovered(fixAttempts)]
         else if fixAttempts > 0 then [GaveUp(fixAttempts)]
         else [])
  }

  lemma {:induction false} KindLessonsMembers(kinds: set<ErrorKind>, order: seq<ErrorKind>, k: ErrorKind)
    ensures KindLesson(k) in KindLessons(kinds, order) <==> k in kinds && k in order
  {
    if order != [] {
      var init := order[..|order| - 1];
      KindLessonsMembers(kinds, init, k);
      assert order == init + [order[|order| - 1]];
    }
  }

  /** The kind lessons keep the order of the kinds they come from. */
  lemma {:induction false} KindLessonsOrdered(kinds: set<ErrorKind>, order: seq<ErrorKind>, i: int, j: int)
    requires forall a, b :: 0 <= a < b < |order| ==> order[a] != order[b]
    requires 0 <= i < j < |KindLessons(kinds, order)|
    ensures exists a, b :: 0 <= a < b < |order| && order[a] == KindLessons(kinds, order)[i].kind && order[b] == KindLessons(kinds, order)[j].kind
  {
    var init := order[..|order| - 1];
    var r := KindLessons(kinds, order);
    var front := KindLessons(kinds, init);
    if j < |front| {
      KindLessonsOrdered(kinds, init, i, j);
      var a, b :| 0 <= a < b < |init| && init[a] == front[i].kind && init[b] == front[j].kind;
      assert order[a] == init[a] && order[b] == init[b];
    } else {
      assert r[j].kind == order[|order| - 1];
      assert front[i].kind in init;
      var a :| 0 <= a < |init| && init[a] == front[i].kind;
      assert order[a] == init[a];
    }
  }

  /**
   * The lessons: none without initial errors; otherwise a lesson for a kind exactly when some
   * initial error shows that kind, and the fix-attempt lesson last, present exactly when there
   * were attempts, worded by the final outcome.
   */
  lemma LessonsShape(initialErrors: seq<string>, fixAttempts: nat, finalSuccess: bool)
    ensures var r := Lessons(initialErrors, fixAttempts, finalSuccess);
      (initialErrors == [] ==> r == []) &&
      (forall k :: KindLesson(k) in r <==> exists e :: e in initialErrors && k in KindsOf(e)) &&
      (Recovered(fixAttempts) in r <==> initialErrors != [] && fixAttempts > 0 && finalSuccess) &&
      (GaveUp(fixAttempts) in r <==> initialErrors != [] && fixAttempts > 0 && !finalSuccess) &&
      (initialErrors != [] && fixAttempts > 0 ==> !r[|r| - 1].KindLesson?)
  {
    var r := Lessons(initialErrors, fixAttempts, finalSuccess);
    forall k ensures KindLesson(k) in r <==> exists e :: e in initialErrors && k in KindsOf(e) {
      ErrorKindsMembers(initialErrors, k);
      if initialErrors != [] {
        var kl := KindLessons(ErrorKinds(initialErrors), KindOrder);
        assert KindLesson(k) in r <==> KindLesson(k) in kl;
        KindInOrder(k);
        KindLessonsMembers(ErrorKinds(initialErrors), KindOrder, k);
      }
    }
  }

  lemma KindOrderDistinct()
    ensures forall a, b :: 0 <= a < b < |KindOrder| ==> KindOrder[a] != KindOrder[b]
  {
  }

  lemma KindInOrder(k: ErrorKind)
    ensures k in KindOrder
  {
    match k
    case TypeScript => assert KindOrder[0] == k;
    case Import => assert KindOrder[1] == k;
    case Trpc => assert KindOrder[2] == k;
    case NullSafety => assert KindOrder[3] == k;
    case TypeMismatch => assert KindOrder[4] == k;
  }

  /** Kind lessons come in the order TypeScript, import, tRPC, null safety, type mismatch. */
  lemma LessonsOrdered(initialErrors: seq<string>, fixAttempts: nat, finalSuccess: bool, i: int, j: int)
    requires initialErrors != []
    requires 0 <= i < j < |Lessons(initialErrors, fixAttempts, finalSuccess)|
    requires Lessons(initialErrors, fixAttempts, finalSuccess)[j].KindLesson?
    ensures exists a, b :: (0 <= a < b < |KindOrder| &&
      KindOrder[a] == Lessons(initialErrors, fixAttempts, finalSuccess)[i].kind &&
      KindOrder[b] == Lessons(initialErrors, fixAttempts, finalSuccess)[j].kind)
  {
    var r := Lessons(initialErrors, fixAttempts, finalSuccess);
    var kl := KindLessons(ErrorKinds(initialErrors), KindOrder);
    var tail := r[|kl|..];
    assert r == kl + tail;
    assert forall x :: 0 <= x < |tail| ==> !tail[x].KindLesson?;
    assert forall x :: |kl| <= x < |r| ==> r[x] == tail[x - |kl|];
    assert j < |kl|;
    assert r[i] == kl[i] && r[j] == kl[j];
    KindOrderDistinct();
    KindLessonsOrdered(ErrorKinds(initialErrors), KindOrder, i, j);
  }

  /** `extract_lessons_from_errors`: a loop collecting the kinds, then conditional appends. */
  method ExtractLessons(initialErrors: seq<string>, fixAttempts: nat, finalSuccess: bool) returns (lessons: seq<Lesson>)
    ensures lessons == Lessons(initialErrors, fixAttempts, finalSuccess)
  {
    lessons := [];
    if initialErrors == [] {
      return;
    }
    var kinds := CollectKinds(initialErrors);
    lessons := KindLessonsFor(kinds);
    if fixAttempts > 0 && finalSuccess {
      lessons := lessons + [Recovered(fixAttempts)];
    } else if fixAttempts > 0 && !finalSuccess {
      lessons := lessons + [GaveUp(fixAttempts)];
    }
  }

  /** The loop over the initial errors, collecting the kinds each shows. */
  method CollectKinds(errors: seq<string>) returns (kinds: set<ErrorKind>)
    ensures kinds == ErrorKinds(errors)
  {
    kinds := {};
    for i := 0 to |errors|
      invariant kinds == ErrorKinds(errors[..i])
    {
      ErrorKindsSnoc(errors, i);
      kinds := kinds + KindsOf(errors[i]);
    }
    assert errors[..|errors|] == errors;
  }

  lemma ErrorKindsSnoc(errors: seq<string>, i: int)
    requires 0 <= i < |errors|
    ensures ErrorKinds(errors[..i + 1]) == ErrorKinds(errors[..i]) + KindsOf(errors[i])
  {
    assert errors[..i + 1][..i] == errors[..i];
  }

  /** The appends of the kind lessons, in the fixed kind order. */
  method KindLessonsFor(kinds: set<ErrorKind>) returns (lessons: seq<Lesson>)
    ensures lessons == KindLessons(kinds, KindOrder)
  {
    lessons := [];
    assert KindOrder[..1][..0] == [];
    if TypeScript in kinds {
      lessons := lessons + [KindLesson(TypeScript)];
    }
    assert lessons == KindLessons(kinds, KindOrder[..1]);
    assert KindOrder[..2][..1] == KindOrder[..1];
    if Import in kinds {
      lessons := lessons + [KindLesson(Import)];
    }
    assert lessons == KindLessons(kinds, KindOrder[..2]);
    assert KindOrder[..3][..2] == KindOrder[..2];
    if Trpc in kinds {
      lessons := lessons + [KindLesson(Trpc)];
    }
    assert lessons == KindLessons(kinds, KindOrder[..3]);
    assert KindOrder[..4][..3] == KindOrder[..3];
    if NullSafety in kinds {
      lessons := lessons + [KindLesson(NullSafety)];
    }
    assert lessons == KindLessons(kinds, KindOrder[..4]);
    assert KindOrder[..4] == KindOrder[..|KindOrder| - 1];
    if TypeMismatch in kinds {
      lessons := lessons + [KindLesson(TypeMismatch)];
    }
  }

  /** The figures `calculate_performance_metrics` reports. */
  datatype PerformanceMetrics = PerformanceMetrics(
    executionTimeSeconds: real, fixAttemptsNeeded: int, firstAttemptSuccess: bool, finalSuccess: bool, efficiencyScore: real)

  /** The efficiency score: 1 without fix attempts, else 1 - 0.2 per attempt, never below 0. */
  function Efficiency(fixAttempts: int): real
  {
    if fixAttempts == 0 then 1.0
    else if 1.0 - fixAttempts as real * 0.2 < 0.0 then 0.0
    else 1.0 - fixAttempts as real * 0.2
  }

  /**
   * `round(x, 2)`: the nearest multiple of 1/100, a tie going to the even number of
   * hundredths.
   */
  function RoundHundredths(x: real): (r: real)
    ensures (r * 100.0).Floor as real == r * 100.0
    ensures x - 0.005 <= r <= x + 0.005
    ensures x * 100.0 - (x * 100.0).Floor as real == 0.5 ==> (r * 100.0).Floor % 2 == 0
  {
    var n := (x * 100.0).Floor;
    var frac := x * 100.0 - n as real;
    var k := if frac < 0.5 then n else if frac > 0.5 then n + 1 else if n % 2 == 0 then n else n + 1;
    assert k as real / 100.0 * 100.0 == k as real;
    k as real / 100.0
  }

  /** Rounding a rounded figure again changes nothing. */
  lemma RoundHundredthsIdempotent(x: real)
    ensures RoundHundredths(RoundHundredths(x)) == RoundHundredths(x)
  {
    var r := RoundHundredths(x);
    var k := (r * 100.0).Floor;
    assert r * 100.0 - k as real == 0.0;
    assert r == k as real / 100.0;
  }

  /** `calculate_performance_metrics`: the time rounded to hundredths, the attempts and the score. */
  function PerformanceOf(executionTime: real, fixAttempts: int, finalSuccess: bool): (m: PerformanceMetrics)
    ensures m.executionTimeSeconds * 100.0 == (m.executionTimeSeconds * 100.0).Floor as real
    ensures executionTime - 0.005 <= m.executionTimeSeconds <= executionTime + 0.005
    ensures m.firstAttemptSuccess <==> fixAttempts == 0
    ensures m.fixAttemptsNeeded == fixAttempts && m.finalSuccess == finalSuccess
    ensures fixAttempts >= 0 ==> 0.0 <= m.efficiencyScore <= 1.0
    ensures m.efficiencyScore == 1.0 <==> fixAttempts == 0
  {
    PerformanceMetrics(RoundHundredths(executionTime), fixAttempts, fixAttempts == 0, finalSuccess, Efficiency(fixAttempts))
  }

  /** More fix attempts never raise the score, and five or more bring it to 0. */
  lemma EfficiencyMonotone(m: nat, n: nat)
    requires m <= n
    ensures Efficiency(n) <= Efficiency(m)
    ensures n >= 5 ==> Efficiency(n) == 0.0
  {
  }
}
