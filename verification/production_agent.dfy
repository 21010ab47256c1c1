/**
 * The production agent: for every edit of a task it asks the surgeon for the change,
 * stages it in the shadow workspace, commits it to the real file and only then runs the
 * TypeScript compiler on that file; a rejected edit is retried with an intent the model
 * rewrites from the compiler's error, three attempts in all.
 *
 * The model calls (analysis, edit generation, surgeon, file creation, intent
 * improvement) and the compiler run are parameters.
 */
module ProductionAgent {
  import opened Wrappers
  import opened Strings
  import opened Lists
  import Files
  import Arith
  import S = AIFileSurgeon

  /** `create_file`'s model call: (path, intent) to the reply, or the exception text. */
  type Creator = (string, string) -> Result<string>
  /** The improvement call: (intent, error, current file) to the reply, or the exception text. */
  type Improver = (string, string, string) -> Result<string>

  /** What `npx tsc --noEmit <file>` reports. */
  datatype ProcessRun = ProcessRun(returnCode: int, stderr: string)
  /** The compiler run on a file of the workspace as it is on disk; `Err` when the run raises. */
  type Compiler = (map<string, string>, string) -> Result<ProcessRun>

  datatype Oracles = Oracles(surgeon: S.Surgeon, creator: Creator, compiler: Compiler, improver: Improver)

  const CreateOperation := "create"
  const CommitError := "Failed to commit file"
  const NoFilesError := "No valid files found to modify"
  /** Compiler errors under this directory do not count against an edit. */
  const UiComponentsDir := "client/src/components/ui/"
  const MaxErrorLength := 1000
  const MaxAttempts := 3
  /** An improved intent must be longer than this to be used. */
  const MinImprovedLength := 20
  /** How much of the error and of the file the improvement call is shown. */
  const ImproveErrorLength := 500
  const ImproveFileLength := 2000
  const Fence := "```"

  // ---------------------------------------------------------------------------------
  // Validation
  // ---------------------------------------------------------------------------------

  datatype Validation = Passed | Rejected(error: string)

  /**
   * `_validate_file`: a clean compile passes; so does a failing one whose errors mention
   * the UI components directory; otherwise the first 1000 characters of the errors are
   * reported. A run that raises is a rejection with its message.
   */
  function ValidateFile(compiler: Compiler, files: map<string, string>, path: string): (v: Validation)
    ensures var run := compiler(files, path);
      && (v.Passed? <==> run.Ok? && (run.value.returnCode == 0 || Contains(run.value.stderr, UiComponentsDir)))
      && (run.Err? ==> v == Rejected(run.error))
      && (run.Ok? && v.Rejected? ==>
            && |v.error| <= MaxErrorLength && v.error <= run.value.stderr
            && (|run.value.stderr| <= MaxErrorLength ==> v.error == run.value.stderr))
  {
    match compiler(files, path)
    case Err(e) => Rejected(e)
    case Ok(run) =>
      if run.returnCode == 0 || Contains(run.stderr, UiComponentsDir) then Passed
      else Rejected(Take(run.stderr, MaxErrorLength))
  }

  // ---------------------------------------------------------------------------------
  // Improving an intent
  // ---------------------------------------------------------------------------------

  /** `re.sub(r'^```.*\n', '', s)`: an opening fence line is removed up to its newline. */
  function DropOpeningFence(s: string): string
  {
    var nl := Find(s, "\n");
    if StartsWith(s, Fence) && nl >= 0 then s[nl + 1..] else s
  }

  /**
   * `re.sub(r'\n```$', '', s)`. The text it is applied to was stripped and then lost at
   * most a prefix, so it never ends in a newline and `$` can only match at the very end.
   */
  function DropClosingFence(s: string): string
  {
    if EndsWith(s, "\n" + Fence) then s[..|s| - |"\n" + Fence|] else s
  }

  /** The reply with its markdown fences and surrounding whitespace removed. */
  function Unfenced(reply: string): string
  {
    Strip(DropClosingFence(DropOpeningFence(Strip(reply))))
  }

  /** A body wrapped in a fenced code block, with any language tag, comes back unwrapped. */
  lemma UnfencedBlock(tag: string, body: string)
    requires forall i :: 0 <= i < |tag| ==> tag[i] != '\n'
    requires S.Trimmed(body) && body != []
    ensures Unfenced(Fence + tag + "\n" + (body + "\n" + Fence)) == body
  {
    var rest := body + "\n" + Fence;
    assert EndsWith(rest, Fence);
    FencedIsTrimmed(Fence + tag, rest);
    OpeningLineDropped(tag, rest);
    ClosingLineDropped(body);
    S.StripOfTrimmed(body);
    UnfencedSteps(Fence + tag + "\n" + rest, rest, body);
  }

  lemma UnfencedSteps(s: string, rest: string, body: string)
    requires Strip(s) == s && DropOpeningFence(s) == rest && DropClosingFence(rest) == body && Strip(body) == body
    ensures Unfenced(s) == body
  {
  }

  /** The opening fence line has no newline in it. */
  lemma FenceLine(tag: string)
    requires forall i :: 0 <= i < |tag| ==> tag[i] != '\n'
    ensures StartsWith(Fence + tag, Fence)
    ensures forall i :: 0 <= i < |Fence + tag| ==> (Fence + tag)[i] != '\n'
  {
    var head := Fence + tag;
    forall i | 0 <= i < |head| ensures head[i] != '\n' {
      if i >= |Fence| {
        assert head[i] == tag[i - |Fence|];
      }
    }
  }

  /** Text that opens and closes with a fence character is already stripped. */
  lemma FencedIsTrimmed(head: string, rest: string)
    requires StartsWith(head, Fence) && EndsWith(rest, Fence)
    ensures Strip(head + "\n" + rest) == head + "\n" + rest
  {
    var s := head + "\n" + rest;
    assert s[0] == head[0] == '`';
    assert s[|s| - 1] == rest[|rest| - 1] == '`';
    S.StripOfTrimmed(s);
  }

  /** The opening fence line goes, up to and including its newline. */
  lemma OpeningLineDropped(tag: string, rest: string)
    requires forall i :: 0 <= i < |tag| ==> tag[i] != '\n'
    ensures DropOpeningFence(Fence + tag + "\n" + rest) == rest
  {
    var head := Fence + tag;
    var s := head + "\n" + rest;
    FenceLine(tag);
    FirstNewline(s, |head|);
    assert s[|head| + 1..] == rest;
  }

  /** A closing fence on its own line goes with the newline before it. */
  lemma ClosingLineDropped(body: string)
    ensures DropClosingFence(body + "\n" + Fence) == body
  {
    var s := body + "\n" + Fence;
    assert s[|s| - |"\n" + Fence|..] == "\n" + Fence;
    assert s[..|s| - |"\n" + Fence|] == body;
  }

  /** `s.find("\n")` is the position of the first newline. */
  lemma FirstNewline(s: string, k: int)
    requires 0 <= k < |s| && s[k] == '\n'
    requires forall j :: 0 <= j < k ==> s[j] != '\n'
    ensures Find(s, "\n") == k
  {
    assert s[k..k + 1] == "\n";
    assert OccursAt(s, "\n", k);
    forall j | 0 <= j < k ensures !OccursAt(s, "\n", j) {
      assert s[j..j + 1] == [s[j]];
    }
  }

  /**
   * `_improve_intent_from_error`: the model's rewrite of the intent, unfenced, when it
   * is longer than 20 characters; nothing when it is shorter or the call raises.
   */
  function ImproveIntent(improver: Improver, intent: string, error: string, current: string): (r: Option<string>)
    ensures var reply := improver(intent, error, current);
      && (r.Some? <==> reply.Ok? && |Unfenced(reply.value)| > MinImprovedLength)
      && (r.Some? ==> r.value == Unfenced(reply.value) && S.Trimmed(r.value) && |r.value| > MinImprovedLength)
  {
    match improver(intent, error, current)
    case Err(_) => None
    case Ok(text) =>
      var improved := Unfenced(text);
      S.StripIsTrimmed(DropClosingFence(DropOpeningFence(Strip(text))));
      if |improved| > MinImprovedLength then Some(improved) else None
  }

  // ---------------------------------------------------------------------------------
  // One attempt at one edit, on the workspace as values
  // ---------------------------------------------------------------------------------

  /** An edit as generated: the file, "create" or a modification, the change and its rewrite. */
  datatype Edit = Edit(file: string, operation: string, intent: string, improvedIntent: Option<string>)

  /** The intent an attempt uses: the rewritten one once there is one. */
  function CurrentIntent(e: Edit): string
  {
    e.improvedIntent.GetOr(e.intent)
  }

  /** The shadow workspace's staged files and the real files underneath. */
  datatype Workspace = Workspace(shadow: map<string, string>, files: map<string, string>, readOnly: set<string>)

  datatype AttemptOutcome = Validated(validation: Validation) | Threw(error: string)

  datatype Step = Step(w: Workspace, outcome: AttemptOutcome)

  /** The new content an attempt produces, or the error it raises. */
  function Produce(w: Workspace, e: Edit, surgeon: S.Surgeon, creator: Creator): Result<string>
  {
    if e.operation == CreateOperation then
      match S.CheckCreate(creator(e.file, CurrentIntent(e)))
      case Created(c) => Ok(c)
      case CreateFailed(err) => Err(err)
    else
      var current := if e.file in w.shadow then w.shadow[e.file] else if e.file in w.files then w.files[e.file] else "";
      match S.ApplyEdit(surgeon, CurrentIntent(e), current)
      case Edited(c) => Ok(c)
      case EditFailed(err) => Err(err)
  }

  /**
   * One attempt: produce the content, stage it, commit it to the real file, then
   * validate the real file. Any failure, and a rejection, drops the staged copy; a
   * committed file stays on disk whatever the compiler says.
   */
  function Attempt(w: Workspace, e: Edit, o: Oracles): (r: Step)
    ensures r.w.readOnly == w.readOnly
    ensures r.w.shadow - {e.file} == w.shadow - {e.file}
    ensures r.outcome.Threw? ==> r.w.files == w.files && e.file !in r.w.shadow
    ensures r.outcome.Validated? ==>
      && e.file !in w.readOnly && Produce(w, e, o.surgeon, o.creator).Ok?
      && r.w.files == w.files[e.file := Produce(w, e, o.surgeon, o.creator).value]
      && r.outcome.validation == ValidateFile(o.compiler, r.w.files, e.file)
    ensures r.outcome == Validated(Passed) <==>
      e.file in r.w.shadow && e.file in r.w.files && r.w.shadow[e.file] == r.w.files[e.file]
    ensures r.outcome == Validated(Passed) ==> r.w.shadow[e.file] == Produce(w, e, o.surgeon, o.creator).value
  {
    match Produce(w, e, o.surgeon, o.creator)
    case Err(err) => Step(w.(shadow := w.shadow - {e.file}), Threw(err))
    case Ok(content) => Checked(w, e.file, content, o.compiler)
  }

  /** Stage `content`, commit it and validate the committed file. */
  function Checked(w: Workspace, path: string, content: string, compiler: Compiler): (r: Step)
    ensures r.w.readOnly == w.readOnly
    ensures r.w.shadow - {path} == w.shadow - {path}
    ensures r.outcome.Threw? ==> r.w.files == w.files && path !in r.w.shadow
    ensures r.outcome.Validated? ==>
      && path !in w.readOnly && r.w.files == w.files[path := content]
      && r.outcome.validation == ValidateFile(compiler, r.w.files, path)
    ensures r.outcome == Validated(Passed) <==>
      path in r.w.shadow && path in r.w.files && r.w.shadow[path] == r.w.files[path]
    ensures r.outcome == Validated(Passed) ==> r.w.shadow[path] == content
  {
    if path in w.readOnly then Step(w.(shadow := w.shadow - {path}), Threw(CommitError))
    else
      var files := w.files[path := content];
      var v := ValidateFile(compiler, files, path);
      if v.Passed? then Step(Workspace(w.shadow[path := content], files, w.readOnly), Validated(v))
      else Step(Workspace(w.shadow - {path}, files, w.readOnly), Validated(v))
  }

  /** What was staged for the path before does not matter to an attempt's check. */
  lemma CheckedIgnoresStaged(w1: Workspace, w2: Workspace, path: string, content: string, compiler: Compiler)
    requires w1.files == w2.files && w1.readOnly == w2.readOnly
    requires w1.shadow - {path} == w2.shadow - {path}
    ensures Checked(w1, path, content, compiler) == Checked(w2, path, content, compiler)
  {
    assert w1.shadow[path := content] == w2.shadow[path := content] by {
      forall p | p in w1.shadow && p != path ensures p in w2.shadow {
        assert p in w1.shadow - {path};
      }
      forall p | p in w2.shadow && p != path ensures p in w1.shadow {
        assert p in w2.shadow - {path};
      }
      forall p | p in w1.shadow && p != path ensures w1.shadow[p] == w2.shadow[p] {
        assert w1.shadow[p] == (w1.shadow - {path})[p];
      }
    }
  }

  /** The edit after a rejection: its intent rewritten from the error, when the rewrite is usable. */
  function Improved(w: Workspace, e: Edit, error: string, o: Oracles): (r: Edit)
    ensures r.file == e.file && r.operation == e.operation && r.intent == e.intent
    ensures r.improvedIntent == e.improvedIntent || (r.improvedIntent.Some? && |r.improvedIntent.value| > MinImprovedLength)
  {
    var current := if e.file in w.files then Take(w.files[e.file], ImproveFileLength) else "";
    match ImproveIntent(o.improver, CurrentIntent(e), Take(error, ImproveErrorLength), current)
    case Some(x) => e.(improvedIntent := Some(x))
    case None => e
  }

  /**
   * The file is committed before it is validated, and a rejection does not restore it:
   * after a rejected attempt the real file holds the rejected content and nothing is
   * staged for it.
   */
  lemma RejectedEditStaysOnDisk()
    ensures var o := Oracles(
        (intent, content) => Ok("a = one"),
        (path, intent) => Err("unused"),
        (files, path) => Ok(ProcessRun(2, "TS2322")),
        (intent, error, current) => Err("unavailable"));
      Attempt(Workspace(map[], map["a.ts" := "a = 1"], {}), Edit("a.ts", "modify", "fix", None), o) ==
        Step(Workspace(map[], map["a.ts" := "a = one"], {}), Validated(Rejected("TS2322")))
  {
    var reply := "a = one";
    assert S.Trimmed(reply) && !StartsWith(reply, S.ErrorMarker);
    S.StripOfTrimmed(reply);
    S.FullReplyAccepted(reply, "a = 1");
    assert !Contains("TS2322", UiComponentsDir);
    assert map["a.ts" := reply] == map["a.ts" := "a = 1"]["a.ts" := reply];
  }

  // ---------------------------------------------------------------------------------
  // The attempts at one edit
  // ---------------------------------------------------------------------------------

  /** `attempts` is 1-based: the attempt that passed. A given-up edit was tried three times. */
  datatype EditResult = Succeeded(edit: Edit, attempts: nat) | GaveUp(edit: Edit)

  datatype Run = Run(w: Workspace, result: EditResult)

  /** One attempt, and the improvement after a rejection, as the retry loop sees them. */
  type Stepper = (Workspace, Edit) -> Step
  type Reviser = (Workspace, Edit, string) -> Edit

  function AttemptWith(o: Oracles): Stepper
  {
    (w, e) => Attempt(w, e, o)
  }

  function ImprovedWith(o: Oracles): Reviser
  {
    (w, e, error) => Improved(w, e, error, o)
  }

  /**
   * The attempts from `attempt` (0-based) on: stop at the first that passes; after a
   * rejection on the first or second attempt ask for an improved intent.
   */
  function Tries(w: Workspace, e: Edit, attempt: nat, step: Stepper, revise: Reviser): Run
    requires attempt <= MaxAttempts
    decreases MaxAttempts - attempt
  {
    if attempt == MaxAttempts then Run(w, GaveUp(e))
    else
      var st := step(w, e);
      if st.outcome == Validated(Passed) then Run(st.w, Succeeded(e, attempt + 1))
      else Tries(st.w, Next(st, e, attempt, revise), attempt + 1, step, revise)
  }

  /** The edit for the next attempt: improved after a rejection, unless this was the last attempt. */
  function Next(st: Step, e: Edit, attempt: nat, revise: Reviser): Edit
  {
    if st.outcome.Validated? && st.outcome.validation.Rejected? && attempt < MaxAttempts - 1
    then revise(st.w, e, st.outcome.validation.error)
    else e
  }

  /** An improvement keeps the edit's file, operation and original intent. */
  ghost predicate KeepsEdit(revise: Reviser)
  {
    forall w, e, error :: revise(w, e, error).file == e.file && revise(w, e, error).operation == e.operation
      && revise(w, e, error).intent == e.intent
  }

  lemma ImprovedKeepsEdit(o: Oracles)
    ensures KeepsEdit(ImprovedWith(o))
  {
  }

  /**
   * At most three attempts: a success names the attempt that passed, later than any
   * already made; the edit comes back for the same file and operation.
   */
  lemma {:induction false} TriesBounded(w: Workspace, e: Edit, attempt: nat, step: Stepper, revise: Reviser)
    requires attempt <= MaxAttempts && KeepsEdit(revise)
    ensures var r := Tries(w, e, attempt, step, revise).result;
      && r.edit.file == e.file && r.edit.operation == e.operation && r.edit.intent == e.intent
      && (r.Succeeded? ==> attempt < r.attempts <= MaxAttempts)
    decreases MaxAttempts - attempt
  {
    if attempt < MaxAttempts {
      var st := step(w, e);
      if st.outcome != Validated(Passed) {
        TriesBounded(st.w, Next(st, e, attempt, revise), attempt + 1, step, revise);
      }
    }
  }

  /** A passing attempt leaves the file staged and on disk with the same content. */
  ghost predicate PassCommits(step: Stepper)
  {
    forall w, e :: step(w, e).outcome == Validated(Passed) ==>
      e.file in step(w, e).w.shadow && e.file in step(w, e).w.files && step(w, e).w.shadow[e.file] == step(w, e).w.files[e.file]
  }

  /** A failing attempt leaves nothing staged for the file. */
  ghost predicate FailureUnstages(step: Stepper)
  {
    forall w, e :: step(w, e).outcome != Validated(Passed) ==> e.file !in step(w, e).w.shadow
  }

  lemma AttemptCommits(o: Oracles)
    ensures PassCommits(AttemptWith(o)) && FailureUnstages(AttemptWith(o))
  {
  }

  /**
   * A successful edit's file is on disk exactly as staged; a given-up edit has no
   * staged copy left.
   */
  lemma {:induction false} TriesOutcome(w: Workspace, e: Edit, attempt: nat, step: Stepper, revise: Reviser)
    requires attempt < MaxAttempts && KeepsEdit(revise)
    requires PassCommits(step) && FailureUnstages(step)
    ensures var r := Tries(w, e, attempt, step, revise);
      && (r.result.Succeeded? ==>
            e.file in r.w.shadow && e.file in r.w.files && r.w.shadow[e.file] == r.w.files[e.file])
      && (r.result.GaveUp? ==> e.file !in r.w.shadow)
    decreases MaxAttempts - attempt
  {
    var st := step(w, e);
    if st.outcome != Validated(Passed) && attempt + 1 < MaxAttempts {
      var next := Next(st, e, attempt, revise);
      assert next.file == e.file;
      TriesOutcome(st.w, next, attempt + 1, step, revise);
    }
  }

  /** When every attempt raises, no improvement is asked for and the edit is given up as it came. */
  lemma {:induction false} ThrowingAttemptsKeepIntent(w: Workspace, e: Edit, attempt: nat, step: Stepper, revise: Reviser)
    requires attempt <= MaxAttempts
    requires forall w, e :: step(w, e).outcome.Threw?
    ensures Tries(w, e, attempt, step, revise).result == GaveUp(e)
    decreases MaxAttempts - attempt
  {
    if attempt < MaxAttempts {
      ThrowingAttemptsKeepIntent(step(w, e).w, e, attempt + 1, step, revise);
    }
  }

  /** An attempt raises whenever the model calls do: the surgeon's and the creator's. */
  lemma FailingModelThrows(o: Oracles)
    requires forall intent, content :: o.surgeon(intent, content).Err?
    requires forall path, intent :: o.creator(path, intent).Err?
    ensures forall w, e :: AttemptWith(o)(w, e).outcome.Threw?
  {
  }

  /** When every attempt is rejected by the compiler, the edit is given up after three of them. */
  lemma {:induction false} RejectedThroughout(w: Workspace, e: Edit, attempt: nat, step: Stepper, revise: Reviser)
    requires attempt <= MaxAttempts
    requires forall w, e :: step(w, e).outcome.Validated? && step(w, e).outcome.validation.Rejected?
    ensures Tries(w, e, attempt, step, revise).result.GaveUp?
    decreases MaxAttempts - attempt
  {
    if attempt < MaxAttempts {
      var st := step(w, e);
      RejectedThroughout(st.w, Next(st, e, attempt, revise), attempt + 1, step, revise);
    }
  }

  /** The edits taken one after another, each with its own retries, on the workspace the previous left. */
  datatype Batch = Batch(w: Workspace, results: seq<EditResult>)

  function Iterated(w: Workspace, edits: seq<Edit>, step: Stepper, revise: Reviser): (b: Batch)
    ensures |b.results| == |edits|
  {
    if edits == [] then Batch(w, [])
    else
      var b := Iterated(w, edits[..|edits| - 1], step, revise);
      var run := Tries(b.w, edits[|edits| - 1], 0, step, revise);
      Batch(run.w, b.results + [run.result])
  }

  /**
   * One result per edit, in the order given: each for the same file, operation and
   * original intent, and a success names one of the three attempts.
   */
  lemma {:induction false} IteratedResults(w: Workspace, edits: seq<Edit>, step: Stepper, revise: Reviser)
    requires KeepsEdit(revise)
    ensures var rs := Iterated(w, edits, step, revise).results;
      forall i :: 0 <= i < |edits| ==>
        && rs[i].edit.file == edits[i].file && rs[i].edit.operation == edits[i].operation
        && rs[i].edit.intent == edits[i].intent
        && (rs[i].Succeeded? ==> 0 < rs[i].attempts <= MaxAttempts)
  {
    if edits != [] {
      var init := edits[..|edits| - 1];
      IteratedResults(w, init, step, revise);
      TriesBounded(Iterated(w, init, step, revise).w, edits[|edits| - 1], 0, step, revise);
    }
  }

  // ---------------------------------------------------------------------------------
  // Metrics and the task report
  // ---------------------------------------------------------------------------------

  datatype Metrics = Metrics(tasksCompleted: nat, firstAttemptSuccess: nat, totalEdits: nat,
                             successfulEdits: nat, failedEdits: nat, retrySuccesses: nat)

  /** What the edit loop adds to the metrics for one edit's result. */
  function Counted(m: Metrics, r: EditResult): Metrics
  {
    match r
    case Succeeded(_, attempts) => if attempts > 1 then m.(retrySuccesses := m.retrySuccesses + 1) else m
    case GaveUp(_) => m.(failedEdits := m.failedEdits + 1)
  }

  function CountedAll(m: Metrics, results: seq<EditResult>): Metrics
  {
    if results == [] then m else Counted(CountedAll(m, results[..|results| - 1]), results[|results| - 1])
  }

  predicate IsSuccess(r: EditResult)
  {
    r.Succeeded?
  }

  predicate IsRetrySuccess(r: EditResult)
  {
    r.Succeeded? && r.attempts > 1
  }

  /** The loop counts every given-up edit as failed and every success after a retry. */
  lemma {:induction false} CountedAllCounts(m: Metrics, results: seq<EditResult>)
    ensures var m' := CountedAll(m, results);
      && m'.failedEdits == m.failedEdits + |results| - Count(results, IsSuccess)
      && m'.retrySuccesses == m.retrySuccesses + Count(results, IsRetrySuccess)
      && m'.tasksCompleted == m.tasksCompleted && m'.totalEdits == m.totalEdits
      && m'.successfulEdits == m.successfulEdits && m'.firstAttemptSuccess == m.firstAttemptSuccess
  {
    if results != [] {
      CountedAllCounts(m, results[..|results| - 1]);
      assert results[..|results| - 1] + [results[|results| - 1]] == results;
    }
  }

  datatype TaskReport =
    | Report(status: string, editsMade: nat, successful: nat, results: seq<EditResult>, successRate: real)
    | Failure(error: string)

  const StatusSuccess := "success"
  const StatusPartial := "partial"
  const StatusFailed := "failed"

  /** `execute_task`'s report: success when every edit succeeded, partial when some did, failed when none. */
  function RollUp(results: seq<EditResult>): (r: TaskReport)
    ensures r.Report? && r.editsMade == |results| && r.successful == Count(results, IsSuccess) && r.results == results
    ensures r.status == StatusSuccess <==> r.successful == |results|
    ensures r.status == StatusPartial <==> 0 < r.successful < |results|
    ensures r.status == StatusFailed <==> r.successful == 0 < |results|
    ensures |results| == 0 ==> r.successRate == 0.0
    ensures |results| > 0 ==> r.successRate * |results| as real == r.successful as real
    ensures 0.0 <= r.successRate <= 1.0
  {
    var n, k := |results|, Count(results, IsSuccess);
    var status := if k == n then StatusSuccess else if k > 0 then StatusPartial else StatusFailed;
    Report(status, n, k, results, Rate(k, n))
  }

  /** `k / n if n else 0`. */
  function Rate(k: nat, n: nat): (r: real)
    requires k <= n
    ensures n == 0 ==> r == 0.0
    ensures n > 0 ==> r * n as real == k as real
    ensures 0.0 <= r <= 1.0
  {
    if n > 0 then
      Arith.Fraction(k, n);
      k as real / n as real
    else 0.0
  }

  /** The metrics after a task whose edits gave `results`. */
  function TaskMetrics(m: Metrics, results: seq<EditResult>): (r: Metrics)
  {
    var k := Count(results, IsSuccess);
    m.(tasksCompleted := m.tasksCompleted + 1,
       totalEdits := m.totalEdits + |results|,
       successfulEdits := m.successfulEdits + k,
       firstAttemptSuccess := if k == |results| then m.firstAttemptSuccess + 1 else m.firstAttemptSuccess)
  }

  // ---------------------------------------------------------------------------------
  // Choosing the files and the edits
  // ---------------------------------------------------------------------------------

  /** A file the analysis names, with the reason it gives. */
  datatype FileInfo = FileInfo(path: string, reason: string)

  /** The edit generation's reply: one edit object or a list of them. */
  datatype Generated = One(edit: Edit) | Many(edits: seq<Edit>)

  /** A single edit is wrapped into a list of one. */
  function EditList(g: Generated): (r: seq<Edit>)
    ensures g.One? ==> r == [g.edit]
    ensures g.Many? ==> r == g.edits
  {
    match g
    case One(e) => [e]
    case Many(es) => es
  }

  /** The directory part of a workspace-relative path; "" for the workspace itself. */
  function Parent(path: string): (r: string)
    ensures |r| <= |path|
    ensures r == [] || r == path[..|r|]
  {
    if path == [] then []
    else if path[|path| - 1] == '/' then path[..|path| - 1]
    else Parent(path[..|path| - 1])
  }

  /** A directory exists when it is the workspace itself or some file lies under it. */
  predicate DirExists(files: map<string, string>, dir: string)
  {
    dir == [] || exists f :: f in files && StartsWith(f, dir + "/")
  }

  /**
   * `_generate_edit_intents`' file check: a file that exists is kept; a missing one is
   * kept when its reason mentions creating it or its directory does not exist yet.
   */
  predicate Verified(files: map<string, string>, info: FileInfo)
  {
    info.path in files || Contains(Lower(info.reason), "create") || !DirExists(files, Parent(info.path))
  }

  function VerifiedFiles(files: map<string, string>, infos: seq<FileInfo>): (r: seq<FileInfo>)
    ensures forall x :: x in r <==> x in infos && Verified(files, x)
  {
    Where(infos, VerifiedIn(files))
  }

  function VerifiedIn(files: map<string, string>): FileInfo -> bool
  {
    x => Verified(files, x)
  }

  /** The model's choice of edits for the verified files; it fails when its reply cannot be parsed. */
  type Generator = seq<FileInfo> -> Result<Generated>

  /** What a task leaves behind: the workspace, the agent's metrics and the report. */
  datatype TaskRun = TaskRun(w: Workspace, metrics: Metrics, report: TaskReport)

  /**
   * `execute_task`: the analysis names files, the generator turns the verified ones into
   * edits, every edit gets its retries, and the report and metrics roll up the results.
   * Any exception on the way becomes an error report.
   */
  function Executed(w: Workspace, m: Metrics, analysis: Result<seq<FileInfo>>, generate: Generator, o: Oracles): TaskRun
  {
    match analysis
    case Err(error) => TaskRun(w, m, Failure(error))
    case Ok(infos) =>
      var verified := VerifiedFiles(w.files, infos);
      if verified == [] then TaskRun(w, m, Failure(NoFilesError))
      else
        match generate(verified)
        case Err(error) => TaskRun(w, m, Failure(error))
        case Ok(g) =>
          var b := Iterated(w, EditList(g), AttemptWith(o), ImprovedWith(o));
          TaskRun(b.w, TaskMetrics(CountedAll(m, b.results), b.results), RollUp(b.results))
  }

  /**
   * A task that fails before any edit leaves the files and the metrics as they were; one
   * that reaches its edits reports every one of them, is counted as completed, and is a
   * first-attempt success exactly when every edit succeeded.
   */
  lemma TaskAccounting(w: Workspace, m: Metrics, analysis: Result<seq<FileInfo>>, generate: Generator, o: Oracles)
    ensures var t := Executed(w, m, analysis, generate, o);
      && (t.report.Failure? ==> t.w == w && t.metrics == m)
      && (t.report.Report? ==>
            && t.metrics.tasksCompleted == m.tasksCompleted + 1
            && t.metrics.totalEdits == m.totalEdits + t.report.editsMade
            && t.metrics.successfulEdits == m.successfulEdits + t.report.successful
            && t.metrics.failedEdits == m.failedEdits + t.report.editsMade - t.report.successful
            && (t.metrics.firstAttemptSuccess == m.firstAttemptSuccess + 1 <==> t.report.status == StatusSuccess)
            && (t.metrics.firstAttemptSuccess == m.firstAttemptSuccess <==> t.report.status != StatusSuccess))
  {
    if analysis.Ok? && VerifiedFiles(w.files, analysis.value) != [] {
      var g := generate(VerifiedFiles(w.files, analysis.value));
      if g.Ok? {
        var b := Iterated(w, EditList(g.value), AttemptWith(o), ImprovedWith(o));
        CountedAllCounts(m, b.results);
      }
    }
  }

  /** No verified file means no edit is tried: the analysis named none, or only missing files in existing directories. */
  lemma NoFilesNoEdits(w: Workspace, m: Metrics, infos: seq<FileInfo>, generate: Generator, o: Oracles)
    requires forall x :: x in infos ==> x.path !in w.files && !Contains(Lower(x.reason), "create") && DirExists(w.files, Parent(x.path))
    ensures Executed(w, m, Ok(infos), generate, o) == TaskRun(w, m, Failure(NoFilesError))
  {
    WhereNone(infos, VerifiedIn(w.files));
  }

  // ---------------------------------------------------------------------------------
  // The agent
  // ---------------------------------------------------------------------------------

  class Agent {
    const shadow: S.ShadowWorkspace
    const oracles: Oracles
    var metrics: Metrics

    constructor (shadow: S.ShadowWorkspace, oracles: Oracles)
      ensures this.shadow == shadow && this.oracles == oracles && metrics == Metrics(0, 0, 0, 0, 0, 0)
    {
      this.shadow := shadow;
      this.oracles := oracles;
      metrics := Metrics(0, 0, 0, 0, 0, 0);
    }

    function State(): Workspace
      reads shadow, shadow.fs
    {
      Workspace(shadow.shadowFiles, shadow.fs.files, shadow.fs.readOnly)
    }

    /** The content for an attempt: created, or the surgeon's edit of the loaded file. */
    method ProduceContent(e: Edit) returns (c: Result<string>)
      modifies shadow
      ensures c == Produce(old(State()), e, oracles.surgeon, oracles.creator)
      ensures shadow.shadowFiles - {e.file} == old(shadow.shadowFiles) - {e.file}
    {
      ghost var w0 := State();
      var intent := CurrentIntent(e);
      if e.operation == CreateOperation {
        var created := S.CheckCreate(oracles.creator(e.file, intent));
        c := if created.Created? then Ok(created.content) else Err(created.error);
        assert c == Produce(w0, e, oracles.surgeon, oracles.creator);
      } else {
        var current := shadow.LoadFile(e.file);
        assert current == if e.file in w0.shadow then w0.shadow[e.file] else if e.file in w0.files then w0.files[e.file] else "";
        var edited := S.ApplyEdit(oracles.surgeon, intent, current);
        c := if edited.Edited? then Ok(edited.newContent) else Err(edited.error);
        assert c == Produce(w0, e, oracles.surgeon, oracles.creator);
      }
    }

    /** One attempt at `e`, on the shadow workspace and the real files. */
    method TryOnce(e: Edit) returns (out: AttemptOutcome)
      modifies shadow, shadow.fs
      ensures Step(State(), out) == Attempt(old(State()), e, oracles)
    {
      var content := ProduceContent(e);
      if content.Err? {
        shadow.Rollback(e.file);
        return Threw(content.error);
      }
      ghost var produced := State();
      out := Check(e.file, content.value);
      CheckedIgnoresStaged(produced, old(State()), e.file, content.value, oracles.compiler);
    }

    /** Stage, commit and validate `content` for `path`; a failure drops the staged copy. */
    method Check(path: string, content: string) returns (out: AttemptOutcome)
      modifies shadow, shadow.fs
      ensures Step(State(), out) == Checked(old(State()), path, content, oracles.compiler)
    {
      shadow.UpdateFile(path, content);
      var ok := shadow.Commit(path);
      if !ok {
        shadow.Rollback(path);
        return Threw(CommitError);
      }
      var v := ValidateFile(oracles.compiler, shadow.fs.files, path);
      if v.Rejected? {
        shadow.Rollback(path);
      }
      out := Validated(v);
    }

    /** The improvement step after a rejected attempt. */
    method Improve(e: Edit, error: string) returns (e': Edit)
      ensures e' == Improved(State(), e, error, oracles)
    {
      var current := if e.file in shadow.fs.files then Take(shadow.fs.files[e.file], ImproveFileLength) else "";
      var improved := ImproveIntent(oracles.improver, CurrentIntent(e), Take(error, ImproveErrorLength), current);
      e' := e;
      if improved.Some? {
        e' := e.(improvedIntent := improved);
      }
    }

    /** Up to three attempts at one edit; the metrics count a success after a retry, or a give-up. */
    method IterateEdit(e0: Edit) returns (r: EditResult)
      modifies this, shadow, shadow.fs
      ensures Run(State(), r) == Tries(old(State()), e0, 0, AttemptWith(oracles), ImprovedWith(oracles))
      ensures metrics == Counted(old(metrics), r)
    {
      var e := e0;
      var attempt := 0;
      var success := false;
      r := GaveUp(e0);
      while attempt < MaxAttempts && !success
        invariant attempt <= MaxAttempts
        invariant !success ==> Tries(State(), e, attempt, AttemptWith(oracles), ImprovedWith(oracles))
                               == Tries(old(State()), e0, 0, AttemptWith(oracles), ImprovedWith(oracles))
        invariant !success ==> metrics == old(metrics)
        invariant success ==> Run(State(), r) == Tries(old(State()), e0, 0, AttemptWith(oracles), ImprovedWith(oracles))
        invariant success ==> metrics == Counted(old(metrics), r)
        decreases MaxAttempts - attempt
      {
        ghost var before := State();
        var out := TryOnce(e);
        assert AttemptWith(oracles)(before, e) == Step(State(), out);
        if out == Validated(Passed) {
          r := Succeeded(e, attempt + 1);
          if attempt > 0 {
            metrics := metrics.(retrySuccesses := metrics.retrySuccesses + 1);
          }
          success := true;
        } else if out.Validated? && attempt < MaxAttempts - 1 {
          e := Improve(e, out.validation.error);
        }
        attempt := attempt + 1;
      }
      if !success {
        r := GaveUp(e);
        metrics := metrics.(failedEdits := metrics.failedEdits + 1);
      }
    }

    /** Every edit in order, each with its retries; the results come back in the same order. */
    method ApplyEditsWithIteration(edits: seq<Edit>) returns (results: seq<EditResult>)
      modifies this, shadow, shadow.fs
      ensures Batch(State(), results) == Iterated(old(State()), edits, AttemptWith(oracles), ImprovedWith(oracles))
      ensures metrics == CountedAll(old(metrics), results)
    {
      results := [];
      for i := 0 to |edits|
        invariant Batch(State(), results) == Iterated(old(State()), edits[..i], AttemptWith(oracles), ImprovedWith(oracles))
        invariant metrics == CountedAll(old(metrics), results)
      {
        var r := IterateEdit(edits[i]);
        assert edits[..i + 1][..i] == edits[..i];
        results := results + [r];
        assert results[..|results| - 1] == results[..i];
      }
      assert edits[..|edits|] == edits;
    }

    /**
     * One task: the analysis' files, checked against the disk; the generator's edits for
     * them; the edits applied; the metrics and the report rolled up.
     */
    method ExecuteTask(analysis: Result<seq<FileInfo>>, generate: Generator) returns (report: TaskReport)
      modifies this, shadow, shadow.fs
      ensures TaskRun(State(), metrics, report) == Executed(old(State()), old(metrics), analysis, generate, oracles)
    {
      if analysis.Err? {
        return Failure(analysis.error);
      }
      var verified := VerifiedFiles(shadow.fs.files, analysis.value);
      if verified == [] {
        return Failure(NoFilesError);
      }
      var generated := generate(verified);
      if generated.Err? {
        return Failure(generated.error);
      }
      var edits := EditList(generated.value);
      var results := ApplyEditsWithIteration(edits);
      report := Conclude(results);
    }

    /** The task's totals added to the metrics, and its report. */
    method Conclude(results: seq<EditResult>) returns (report: TaskReport)
      modifies this
      ensures metrics == TaskMetrics(old(metrics), results) && report == RollUp(results)
    {
      var successful := Count(results, IsSuccess);
      metrics := metrics.(tasksCompleted := metrics.tasksCompleted + 1,
                          totalEdits := metrics.totalEdits + |results|,
                          successfulEdits := metrics.successfulEdits + successful);
      if successful == |results| {
        metrics := metrics.(firstAttemptSuccess := metrics.firstAttemptSuccess + 1);
      }
      report := RollUp(results);
    }
  }
}
