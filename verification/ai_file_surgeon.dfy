/**
 * The AI file surgeon and its shadow workspace.
 *
 * The surgeon asks a language model to apply a natural-language change to the current
 * text of a file and vets the reply; the model itself is a parameter (`Surgeon`), a
 * function from the requested change and the current content to either the reply text
 * or the text of the exception the call raised. The shadow workspace stages file
 * contents in memory and writes them to the real filesystem only on commit.
 */
module AIFileSurgeon {
  import opened Wrappers
  import opened Strings
  import Files

  /** The model call: (intent, current content) to the reply, or the exception text. */
  type Surgeon = (string, string) -> Result<string>

  datatype EditOutcome = Edited(newContent: string) | EditFailed(error: string)

  datatype CreateOutcome = Created(content: string) | CreateFailed(error: string)

  const ErrorMarker := "ERROR:"
  const TooShortError := "Output too short - likely truncated or malformed"
  const CreateTooShortError := "Generated content too short"
  /** `create_file` rejects anything shorter than this. */
  const MinCreatedLength := 10

  /** Neither end of `s` is whitespace. */
  predicate Trimmed(s: string)
  {
    s == [] || (!IsSpace(s[0]) && !IsSpace(s[|s| - 1]))
  }

  lemma StripIsTrimmed(s: string)
    ensures Trimmed(Strip(s))
  {
    var l := LStrip(s);
    var r := RStrip(l);
    if r != [] {
      assert r[0] == l[0];
    }
  }

  lemma {:induction false} StripOfTrimmed(s: string)
    requires Trimmed(s)
    ensures Strip(s) == s
  {
  }

  /**
   * `apply_edit`'s verdict on the model's reply: an exception fails with its text; a
   * stripped reply starting with `ERROR:` fails with what follows `"ERROR: "`; a reply
   * shorter than half the current content is taken to be truncated; anything else is
   * the new content.
   */
  function CheckEdit(reply: Result<string>, current: string): (r: EditOutcome)
    ensures reply.Err? ==> r == EditFailed(reply.error)
    ensures r.Edited? <==>
      (reply.Ok? && !StartsWith(Strip(reply.value), ErrorMarker) && 2 * |Strip(reply.value)| >= |current|)
    ensures r.Edited? ==> r.newContent == Strip(reply.value) && Trimmed(r.newContent)
    ensures r.Edited? ==> !StartsWith(r.newContent, ErrorMarker) && 2 * |r.newContent| >= |current|
    ensures reply.Ok? && !StartsWith(Strip(reply.value), ErrorMarker) && 2 * |Strip(reply.value)| < |current|
      ==> r == EditFailed(TooShortError)
  {
    match reply
    case Err(e) => EditFailed(e)
    case Ok(text) =>
      var output := Strip(text);
      StripIsTrimmed(text);
      if StartsWith(output, ErrorMarker) then
        EditFailed(Strip(if |output| >= 7 then output[7..] else []))
      else if 2 * |output| < |current| then
        EditFailed(TooShortError)
      else
        Edited(output)
  }

  /** A reply of the form the prompt asks for on refusal reports exactly its explanation. */
  lemma ErrorReplyReportsExplanation(explanation: string, current: string)
    requires Trimmed(explanation)
    ensures CheckEdit(Ok(ErrorMarker + " " + explanation), current) == EditFailed(explanation)
  {
    var text := ErrorMarker + " " + explanation;
    assert LStrip(text) == text;
    if explanation == [] {
      assert RStrip(text) == RStrip(ErrorMarker);
      assert RStrip(ErrorMarker) == ErrorMarker;
      assert Strip(text) == ErrorMarker;
      assert StartsWith(ErrorMarker, ErrorMarker);
    } else {
      assert RStrip(text) == text;
      assert Strip(text)[..6] == ErrorMarker;
      assert Strip(text)[7..] == explanation;
      StripOfTrimmed(explanation);
    }
  }

  /** A trimmed reply at least as long as the file, and not a refusal, is accepted as it is. */
  lemma FullReplyAccepted(reply: string, current: string)
    requires Trimmed(reply) && !StartsWith(reply, ErrorMarker) && |reply| >= |current|
    ensures CheckEdit(Ok(reply), current) == Edited(reply)
  {
    StripOfTrimmed(reply);
  }

  /** `apply_edit`: one call to the model and the verdict on its reply. */
  function ApplyEdit(surgeon: Surgeon, intent: string, current: string): EditOutcome
  {
    CheckEdit(surgeon(intent, current), current)
  }

  /** `create_file`'s verdict on the model's reply: at least ten characters once stripped. */
  function CheckCreate(reply: Result<string>): (r: CreateOutcome)
    ensures reply.Err? ==> r == CreateFailed(reply.error)
    ensures r.Created? <==> reply.Ok? && |Strip(reply.value)| >= MinCreatedLength
    ensures r.Created? ==> r.content == Strip(reply.value) && Trimmed(r.content) && |r.content| >= MinCreatedLength
    ensures reply.Ok? && r.CreateFailed? ==> r.error == CreateTooShortError
  {
    match reply
    case Err(e) => CreateFailed(e)
    case Ok(text) =>
      var content := Strip(text);
      StripIsTrimmed(text);
      if |content| < MinCreatedLength then CreateFailed(CreateTooShortError) else Created(content)
  }

  // ---------------------------------------------------------------------------------
  // A sequence of edits
  // ---------------------------------------------------------------------------------

  /** How far a sequence of edits got: the content reached, the edits applied, the failure. */
  datatype Chain = Chain(content: string, applied: nat, failure: Option<string>)

  /** Apply `intents` in order, each to the result of the previous one, stopping at the first failure. */
  function RunChain(surgeon: Surgeon, intents: seq<string>, content: string): (r: Chain)
    ensures r.applied <= |intents|
    ensures r.failure.None? <==> r.applied == |intents|
    decreases |intents|
  {
    if intents == [] then Chain(content, 0, None)
    else
      match ApplyEdit(surgeon, intents[0], content)
      case EditFailed(e) => Chain(content, 0, Some(e))
      case Edited(c) =>
        var rest := RunChain(surgeon, intents[1..], c);
        rest.(applied := rest.applied + 1)
  }

  /**
   * A failed run stops exactly at the edit that failed: the edits before it all
   * succeed and lead to the content returned, and that edit, applied to it, fails.
   */
  lemma {:induction false} RunChainStopsAtFailure(surgeon: Surgeon, intents: seq<string>, content: string)
    requires RunChain(surgeon, intents, content).failure.Some?
    ensures var r := RunChain(surgeon, intents, content);
      && RunChain(surgeon, intents[..r.applied], content) == Chain(r.content, r.applied, None)
      && ApplyEdit(surgeon, intents[r.applied], r.content) == EditFailed(r.failure.value)
    decreases |intents|
  {
    var r := RunChain(surgeon, intents, content);
    match ApplyEdit(surgeon, intents[0], content)
    case EditFailed(e) =>
    case Edited(c) =>
      var tail := intents[1..];
      RunChainStopsAtFailure(surgeon, tail, c);
      var k := r.applied - 1;
      var pre := intents[..r.applied];
      PrefixTail(intents, tail, pre, r.applied);
      assert RunChain(surgeon, pre, content) == RunChain(surgeon, tail[..k], c).(applied := k + 1);
  }

  /** Dropping the head of a non-empty prefix is taking a prefix of the tail. */
  lemma PrefixTail(s: seq<string>, tail: seq<string>, pre: seq<string>, n: int)
    requires 1 <= n < |s| && tail == s[1..] && pre == s[..n]
    ensures pre != [] && pre[0] == s[0] && pre[1..] == tail[..n - 1] && s[n] == tail[n - 1]
  {
  }

  /** Running two lists of edits one after the other is running their concatenation. */
  lemma {:induction false} RunChainAppend(surgeon: Surgeon, first: seq<string>, second: seq<string>, content: string)
    requires RunChain(surgeon, first, content).failure.None?
    ensures var mid := RunChain(surgeon, first, content);
      var rest := RunChain(surgeon, second, mid.content);
      RunChain(surgeon, first + second, content) == rest.(applied := rest.applied + |first|)
    decreases |first|
  {
    if first != [] {
      ConsAppend(first, second, first + second);
      match ApplyEdit(surgeon, first[0], content)
      case Edited(c) =>
        RunChainAppend(surgeon, first[1..], second, c);
    } else {
      assert first + second == second;
    }
  }

  lemma ConsAppend(first: seq<string>, second: seq<string>, both: seq<string>)
    requires first != [] && both == first + second
    ensures both != [] && both[0] == first[0] && both[1..] == first[1..] + second
  {
  }

  /** `f"Edit {i}: {error}"`. */
  function EditError(i: nat, error: string): string
  {
    "Edit " + NatToString(i) + ": " + error
  }

  /** The dictionary `apply_multiple_edits` returns. */
  datatype MultiEdit = MultiEdit(success: bool, newContent: string, editsApplied: int, errors: seq<string>)

  /** The report as intended: the count is the number of edits that succeeded. */
  function Report(c: Chain): (r: MultiEdit)
    ensures r.success <==> r.errors == []
    ensures r.editsApplied == c.applied && r.newContent == c.content
    ensures |r.errors| <= 1
  {
    MultiEdit(c.failure.None?, c.content, c.applied,
      if c.failure.Some? then [EditError(c.applied + 1, c.failure.value)] else [])
  }

  /** The report as written: the count is the number of intents less the number of errors. */
  function ReportAsWritten(c: Chain, total: nat): (r: MultiEdit)
    ensures r.success <==> r.errors == []
    ensures r.editsApplied == total - |r.errors|
  {
    var ok := Report(c);
    ok.(editsApplied := total - |ok.errors|)
  }

  /**
   * The loop of `apply_multiple_edits`: apply the intents one at a time to the running
   * content and stop at the first failure, recording it as `Edit i: error` (1-based).
   */
  method ApplyEdits(surgeon: Surgeon, intents: seq<string>, current: string)
      returns (content: string, applied: nat, errors: seq<string>)
    ensures var c := RunChain(surgeon, intents, current);
      content == c.content && applied == c.applied && errors == Report(c).errors
  {
    content := current;
    applied := 0;
    errors := [];
    while applied < |intents| && errors == []
      invariant applied <= |intents|
      invariant errors == [] ==>
        var rest := RunChain(surgeon, intents[applied..], content);
        RunChain(surgeon, intents, current) == rest.(applied := rest.applied + applied)
      invariant errors != [] ==>
        var c := RunChain(surgeon, intents, current);
        c.content == content && c.applied == applied && errors == Report(c).errors
      decreases |intents| - applied, if errors == [] then 1 else 0
    {
      assert intents[applied..][0] == intents[applied];
      assert intents[applied..][1..] == intents[applied + 1..];
      match ApplyEdit(surgeon, intents[applied], content)
      case Edited(c) =>
        content := c;
        applied := applied + 1;
      case EditFailed(e) =>
        errors := [EditError(applied + 1, e)];
    }
    if errors == [] {
      assert intents[applied..] == [];
    }
  }

  /** `apply_multiple_edits` as written, with its edit count. */
  method ApplyMultipleEditsAsWritten(surgeon: Surgeon, intents: seq<string>, current: string)
      returns (r: MultiEdit)
    ensures r == ReportAsWritten(RunChain(surgeon, intents, current), |intents|)
  {
    var content, applied, errors := ApplyEdits(surgeon, intents, current);
    r := MultiEdit(errors == [], content, |intents| - |errors|, errors);
  }

  /** `apply_multiple_edits` with the edit count corrected to the edits that succeeded. */
  method ApplyMultipleEdits(surgeon: Surgeon, intents: seq<string>, current: string)
      returns (r: MultiEdit)
    ensures r == Report(RunChain(surgeon, intents, current))
  {
    var content, applied, errors := ApplyEdits(surgeon, intents, current);
    r := MultiEdit(errors == [], content, applied, errors);
  }

  /**
   * The count as written overstates the work done: with two intents and a model that
   * always raises, no edit is applied, yet one is reported.
   */
  lemma EditsAppliedMiscount()
    ensures var surgeon: Surgeon := (intent, content) => Err("timeout");
      var c := RunChain(surgeon, ["add a header", "add a footer"], "page");
      c.applied == 0 && Report(c).editsApplied == 0 && ReportAsWritten(c, 2).editsApplied == 1
  {
    var surgeon: Surgeon := (intent, content) => Err("timeout");
    assert ApplyEdit(surgeon, "add a header", "page") == EditFailed("timeout");
  }

  // ---------------------------------------------------------------------------------
  // The shadow workspace
  // ---------------------------------------------------------------------------------

  /** The files on disk after committing the staged `staged`, except those that cannot be written. */
  function Committed(files: map<string, string>, staged: map<string, string>, readOnly: set<string>): (r: map<string, string>)
    ensures forall p :: p in r <==> p in files || (p in staged && p !in readOnly)
    ensures forall p :: p in staged && p !in readOnly ==> r[p] == staged[p]
    ensures forall p :: p in files && (p !in staged || p in readOnly) ==> r[p] == files[p]
  {
    map p | p in files.Keys + staged.Keys && (p in files || p !in readOnly) ::
      if p in staged && p !in readOnly then staged[p] else files[p]
  }

  lemma CommittedStep(files: map<string, string>, staged: map<string, string>, readOnly: set<string>, p: string, v: string)
    ensures Committed(files, staged[p := v], readOnly) ==
      if p in readOnly then Committed(files, staged, readOnly) else Committed(files, staged, readOnly)[p := v]
  {
  }

  /** The part of `m` whose keys are in `keys`. */
  function Restrict(m: map<string, string>, keys: set<string>): (r: map<string, string>)
    requires keys <= m.Keys
    ensures r.Keys == keys
    ensures forall p :: p in r ==> r[p] == m[p]
  {
    map p | p in keys :: m[p]
  }

  lemma RestrictStep(m: map<string, string>, keys: set<string>, p: string)
    requires keys <= m.Keys && p in keys
    ensures Restrict(m, keys) == Restrict(m, keys - {p})[p := m[p]]
  {
  }

  lemma RestrictAll(m: map<string, string>)
    ensures Restrict(m, m.Keys) == m
  {
  }

  /** What `commit_all` reports for the staged `paths`: which of them could be written. */
  function CommitResults(paths: set<string>, readOnly: set<string>): (r: map<string, bool>)
    ensures r.Keys == paths
    ensures forall p :: p in r ==> (r[p] <==> p !in readOnly)
  {
    map p | p in paths :: p !in readOnly
  }

  class ShadowWorkspace {
    /** `shadow_files`: staged contents by workspace-relative path. */
    var shadowFiles: map<string, string>
    /** The real workspace directory. */
    const fs: Files.FileSystem

    constructor (fs: Files.FileSystem)
      ensures shadowFiles == map[] && this.fs == fs
    {
      shadowFiles := map[];
      this.fs := fs;
    }

    /** What the workspace shows for `path`: the staged copy, else the file on disk, else "". */
    function View(path: string): string
      reads this, fs
    {
      if path in shadowFiles then shadowFiles[path]
      else if path in fs.files then fs.files[path]
      else ""
    }

    /**
     * `load_file`: the staged copy if there is one; otherwise the file on disk, which is
     * staged from now on; a missing file reads as "" and stages nothing.
     */
    method LoadFile(path: string) returns (content: string)
      modifies this
      ensures content == old(View(path))
      ensures shadowFiles ==
        if path in old(shadowFiles) || path !in fs.files then old(shadowFiles)
        else old(shadowFiles)[path := fs.files[path]]
      ensures forall p :: View(p) == old(View(p))
    {
      if path in shadowFiles {
        return shadowFiles[path];
      }
      var disk := fs.Read(path);
      match disk
      case Some(text) =>
        shadowFiles := shadowFiles[path := text];
        content := text;
      case None =>
        content := "";
    }

    /** `update_file`: stage `content`; nothing reaches the disk. */
    method UpdateFile(path: string, content: string)
      modifies this
      ensures shadowFiles == old(shadowFiles)[path := content]
      ensures View(path) == content
    {
      shadowFiles := shadowFiles[path := content];
    }

    /**
     * `commit`: write the staged copy of `path` to disk. Fails when nothing is staged
     * or the write raises; the staged copy stays either way.
     */
    method Commit(path: string) returns (ok: bool)
      modifies fs
      ensures ok <==> path in shadowFiles && path !in old(fs.readOnly)
      ensures fs.files == if ok then old(fs.files)[path := shadowFiles[path]] else old(fs.files)
      ensures fs.readOnly == old(fs.readOnly)
      ensures ok ==> fs.files[path] == View(path)
    {
      if path !in shadowFiles {
        return false;
      }
      ok := fs.Write(path, shadowFiles[path]);
    }

    /** `commit_all`: commit every staged file; one result per staged path. */
    method CommitAll() returns (results: map<string, bool>)
      modifies fs
      ensures results == CommitResults(shadowFiles.Keys, old(fs.readOnly))
      ensures fs.files == Committed(old(fs.files), shadowFiles, old(fs.readOnly))
      ensures fs.readOnly == old(fs.readOnly)
    {
      results := CommitEach(shadowFiles.Keys);
      RestrictAll(shadowFiles);
    }

    /** Commit the staged files in `paths`, one at a time. */
    method CommitEach(paths: set<string>) returns (results: map<string, bool>)
      requires paths <= shadowFiles.Keys
      modifies fs
      ensures results == CommitResults(paths, old(fs.readOnly))
      ensures fs.files == Committed(old(fs.files), Restrict(shadowFiles, paths), old(fs.readOnly))
      ensures fs.readOnly == old(fs.readOnly)
      decreases paths
    {
      if paths == {} {
        assert Restrict(shadowFiles, paths) == map[];
        return map[];
      }
      var p :| p in paths;
      var rest := paths - {p};
      results := CommitEach(rest);
      CommittedStep(old(fs.files), Restrict(shadowFiles, rest), fs.readOnly, p, shadowFiles[p]);
      RestrictStep(shadowFiles, paths, p);
      var ok := Commit(p);
      results := results[p := ok];
    }

    /** `rollback`: drop the staged copy; the workspace shows the disk again. */
    method Rollback(path: string)
      modifies this
      ensures shadowFiles == old(shadowFiles) - {path}
      ensures View(path) == if path in fs.files then fs.files[path] else ""
    {
      if path in shadowFiles {
        shadowFiles := shadowFiles - {path};
      }
    }

    /** `rollback_all`: drop every staged copy. */
    method RollbackAll()
      modifies this
      ensures shadowFiles == map[]
      ensures forall p :: View(p) == if p in fs.files then fs.files[p] else ""
    {
      shadowFiles := map[];
    }
  }
}
