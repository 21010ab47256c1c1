/**
 * The cost-optimised agent: the production agent's edit protocol with a session budget.
 * Every model call is priced and charged to the session; a task is refused once the
 * session has spent its limit; the project map sent to the analysis is cached for five
 * minutes; and an edit the compiler rejects is retried once, with an intent the cheap
 * model rewrites, only when the error looks fixable.
 *
 * The model calls, the compiler run and the `find` listing are parameters; a call's
 * price is part of its reply.
 */
module CostOptimizedAgent {
  import opened Wrappers
  import opened Strings
  import opened Lists
  import S = AIFileSurgeon
  import P = ProductionAgent

  /**
   * A priced model call: answered, with the price charged for it and the reply as the
   * caller parses it; or failed, having raised before any price was recorded.
   */
  datatype Call<T> = Answered(cost: real, parsed: Result<T>) | CallFailed(error: string)

  /** `_improve_intent_cheap`'s call: (intent, first 300 characters of the error) to the reply. */
  type CheapImprover = (string, string) -> Call<string>

  datatype Oracles = Oracles(surgeon: S.Surgeon, creator: P.Creator, compiler: P.Compiler, improver: CheapImprover)

  const CostLimitError := "Cost limit reached"
  const CommitError := "Failed to commit"
  const NoFilesError := "No valid files found"
  const ValidationTimeout := "Validation timeout"
  const NoProjectMap := "// Could not read project structure"
  const MaxErrorLength := 500
  const ImproveErrorLength := 300
  const MinImprovedLength := 20
  const MaxFiles := 5
  const MaxFileLength := 1500
  const MaxMapEntries := 50
  /** How long a project map is reused, in seconds. */
  const CacheSeconds := 300.0

  // ---------------------------------------------------------------------------------
  // The session's spending
  // ---------------------------------------------------------------------------------

  /** `session_cost`, `metrics["api_calls"]` and the price of every call in `call_costs`. */
  datatype Ledger = Ledger(sessionCost: real, apiCalls: nat, callCosts: seq<real>)

  function Sum(xs: seq<real>): real
  {
    if xs == [] then 0.0 else Sum(xs[..|xs| - 1]) + xs[|xs| - 1]
  }

  /** One entry per call, and the session's cost is what the calls cost together. */
  predicate Balanced(l: Ledger)
  {
    l.apiCalls == |l.callCosts| && l.sessionCost == Sum(l.callCosts)
  }

  /** `_call_llm`'s bookkeeping for a call that returned. */
  function Charge(l: Ledger, cost: real): (r: Ledger)
    ensures Balanced(l) ==> Balanced(r)
    ensures r.apiCalls == l.apiCalls + 1 && r.sessionCost == l.sessionCost + cost
  {
    var costs := l.callCosts + [cost];
    assert costs[..|costs| - 1] == l.callCosts;
    Ledger(l.sessionCost + cost, l.apiCalls + 1, costs)
  }

  /** The ledger after a call: an answered call is charged, one that raised is not. */
  function Settle<T>(l: Ledger, c: Call<T>): (r: Ledger)
    ensures Balanced(l) ==> Balanced(r)
    ensures r.apiCalls == l.apiCalls + (if c.Answered? then 1 else 0)
  {
    match c
    case Answered(cost, _) => Charge(l, cost)
    case CallFailed(_) => l
  }

  /** What the caller gets from a call: the parsed reply, or the exception. */
  function Outcome<T>(c: Call<T>): Result<T>
  {
    match c
    case Answered(_, v) => v
    case CallFailed(e) => Err(e)
  }

  // ---------------------------------------------------------------------------------
  // Validation and fixable errors
  // ---------------------------------------------------------------------------------

  /**
   * `_validate_file_fast`: as the production agent's check, but the error is cut to 500
   * characters and a run that raises reports a timeout.
   */
  function ValidateFast(compiler: P.Compiler, files: map<string, string>, path: string): (v: P.Validation)
    ensures var run := compiler(files, path);
      && (v.Passed? <==> run.Ok? && (run.value.returnCode == 0 || Contains(run.value.stderr, P.UiComponentsDir)))
      && (run.Err? ==> v == P.Rejected(ValidationTimeout))
      && (run.Ok? && v.Rejected? ==>
            && |v.error| <= MaxErrorLength && v.error <= run.value.stderr
            && (|run.value.stderr| <= MaxErrorLength ==> v.error == run.value.stderr))
  {
    match compiler(files, path)
    case Err(_) => P.Rejected(ValidationTimeout)
    case Ok(run) =>
      if run.returnCode == 0 || Contains(run.stderr, P.UiComponentsDir) then P.Passed
      else P.Rejected(Take(run.stderr, MaxErrorLength))
  }

  /**
   * `re.search(a + ".*" + b, line)` on one line: `a` occurs, and `b` occurs after it.
   * Only the first `a` needs looking at, since it leaves the most text after it.
   */
  predicate Follows(line: string, a: string, b: string)
  {
    var i := Find(line, a);
    i >= 0 && Contains(line[i + |a|..], b)
  }

  /** `Follows` against its definition: some `a` with some `b` starting after its end. */
  lemma FollowsIff(line: string, a: string, b: string)
    ensures Follows(line, a, b) <==> exists i, j :: OccursAt(line, a, i) && OccursAt(line, b, j) && i + |a| <= j
  {
    if Follows(line, a, b) {
      FollowsWitness(line, a, b);
    }
    forall i, j | OccursAt(line, a, i) && OccursAt(line, b, j) && i + |a| <= j
      ensures Follows(line, a, b)
    {
      FollowsFromWitness(line, a, b, i, j);
    }
  }

  lemma FollowsWitness(line: string, a: string, b: string)
    requires Follows(line, a, b)
    ensures exists i, j :: OccursAt(line, a, i) && OccursAt(line, b, j) && i + |a| <= j
  {
    var i := Find(line, a);
    var rest := line[i + |a|..];
    ContainsIff(rest, b);
    var k :| OccursAt(rest, b, k);
    OccursInSuffix(line, i + |a|, b, k);
  }

  lemma FollowsFromWitness(line: string, a: string, b: string, i0: int, j0: int)
    requires OccursAt(line, a, i0) && OccursAt(line, b, j0) && i0 + |a| <= j0
    ensures Follows(line, a, b)
  {
    var i := Find(line, a);
    FindAtMost(line, a, i0);
    ContainsInTail(line, i + |a|, b, j0);
  }

  /** The pattern matches within one line of `s`: `.` does not match a newline. */
  predicate OnSomeLine(s: string, a: string, b: string)
  {
    exists line :: line in Split(s, "\n") && Follows(line, a, b)
  }

  /**
   * `_is_fixable_error`: the lowercased error names a missing name, a missing property,
   * an unassignable type, a wrong argument count or a missing import.
   */
  predicate Fixable(error: string)
  {
    var e := Lower(error);
    || Contains(e, "cannot find name")
    || OnSomeLine(e, "property", "does not exist")
    || OnSomeLine(e, "type", "is not assignable")
    || OnSomeLine(e, "expected", "arguments")
    || OnSomeLine(e, "missing", "import")
  }

  /** The classifier needs one of the patterns' leading words in the error. */
  lemma FixableNeedsKeyword(error: string)
    requires Fixable(error)
    ensures var e := Lower(error);
      || Contains(e, "cannot find name") || Contains(e, "property") || Contains(e, "type")
      || Contains(e, "expected") || Contains(e, "missing")
  {
    var e := Lower(error);
    if OnSomeLine(e, "property", "does not exist") {
      LineHolds(e, "property", "does not exist");
    } else if OnSomeLine(e, "type", "is not assignable") {
      LineHolds(e, "type", "is not assignable");
    } else if OnSomeLine(e, "expected", "arguments") {
      LineHolds(e, "expected", "arguments");
    } else if OnSomeLine(e, "missing", "import") {
      LineHolds(e, "missing", "import");
    }
  }

  /** A pattern that matches on some line finds its first word in the whole text. */
  lemma LineHolds(s: string, a: string, b: string)
    requires OnSomeLine(s, a, b)
    ensures Contains(s, a)
  {
    var lines := Split(s, "\n");
    var line :| line in lines && Follows(line, a, b);
    var i :| 0 <= i < |lines| && lines[i] == line;
    assert Contains(line, a);
    SplitPartsInside(s, "\n", a, i);
  }

  /**
   * `_improve_intent_cheap`: the reply stripped, when it is longer than 20 characters;
   * nothing when it is shorter or anything raises. An answered call is charged either way.
   */
  function ImproveCheap(improver: CheapImprover, l: Ledger, intent: string, error: string): (r: (Option<string>, Ledger))
    ensures var c := improver(intent, Take(error, ImproveErrorLength));
      && r.1 == Settle(l, c)
      && (r.0.Some? <==> c.Answered? && c.parsed.Ok? && |Strip(c.parsed.value)| > MinImprovedLength)
      && (r.0.Some? ==> r.0.value == Strip(c.parsed.value) && S.Trimmed(r.0.value))
  {
    var c := improver(intent, Take(error, ImproveErrorLength));
    match Outcome(c)
    case Err(_) => (None, Settle(l, c))
    case Ok(text) =>
      S.StripIsTrimmed(text);
      (if |Strip(text)| > MinImprovedLength then Some(Strip(text)) else None, Settle(l, c))
  }

  // ---------------------------------------------------------------------------------
  // One edit, with at most one retry
  // ---------------------------------------------------------------------------------

  /** The shadow workspace without a staged copy of `path`: `rollback`. */
  function Unstaged(w: P.Workspace, path: string): P.Workspace
  {
    w.(shadow := w.shadow - {path})
  }

  /**
   * The first try, with the edit's own intent: produce the content, stage it, commit it,
   * validate the committed file. A rejection and any exception drop the staged copy.
   */
  function FirstTry(w: P.Workspace, e: P.Edit, o: Oracles): (r: P.Step)
    ensures r.w.readOnly == w.readOnly && r.w.shadow - {e.file} == w.shadow - {e.file}
    ensures r.outcome.Threw? ==> r.w.files == w.files && e.file !in r.w.shadow
    ensures r.outcome.Validated? ==>
      && e.file !in w.readOnly && P.Produce(w, e.(improvedIntent := None), o.surgeon, o.creator).Ok?
      && r.w.files == w.files[e.file := P.Produce(w, e.(improvedIntent := None), o.surgeon, o.creator).value]
      && r.outcome.validation == ValidateFast(o.compiler, r.w.files, e.file)
    ensures r.outcome == P.Validated(P.Passed) <==>
      e.file in r.w.shadow && e.file in r.w.files && r.w.shadow[e.file] == r.w.files[e.file]
    ensures r.outcome != P.Validated(P.Passed) ==> e.file !in r.w.shadow
  {
    match P.Produce(w, e.(improvedIntent := None), o.surgeon, o.creator)
    case Err(err) => P.Step(Unstaged(w, e.file), P.Threw(err))
    case Ok(c) => FirstChecked(w, e.file, c, o.compiler)
  }

  /** Stage `content`, commit it and validate the committed file; a failure unstages it. */
  function FirstChecked(w: P.Workspace, path: string, content: string, compiler: P.Compiler): (r: P.Step)
    ensures r.w.readOnly == w.readOnly && r.w.shadow - {path} == w.shadow - {path}
    ensures r.outcome.Threw? ==> r.w.files == w.files && path !in r.w.shadow
    ensures r.outcome.Validated? ==>
      && path !in w.readOnly && r.w.files == w.files[path := content]
      && r.outcome.validation == ValidateFast(compiler, r.w.files, path)
    ensures r.outcome == P.Validated(P.Passed) <==>
      path in r.w.shadow && path in r.w.files && r.w.shadow[path] == r.w.files[path]
    ensures r.outcome != P.Validated(P.Passed) ==> path !in r.w.shadow
  {
    if path in w.readOnly then P.Step(Unstaged(w, path), P.Threw(CommitError))
    else
      var files := w.files[path := content];
      var v := ValidateFast(compiler, files, path);
      if v.Passed? then P.Step(P.Workspace(w.shadow[path := content], files, w.readOnly), P.Validated(v))
      else P.Step(P.Workspace(w.shadow - {path}, files, w.readOnly), P.Validated(v))
  }

  /** What was staged for the path before does not matter to the check. */
  lemma FirstCheckedIgnoresStaged(w1: P.Workspace, w2: P.Workspace, path: string, content: string, compiler: P.Compiler)
    requires w1.files == w2.files && w1.readOnly == w2.readOnly
    requires w1.shadow - {path} == w2.shadow - {path}
    ensures FirstChecked(w1, path, content, compiler) == FirstChecked(w2, path, content, compiler)
  {
    P.CheckedIgnoresStaged(w1, w2, path, content, compiler);
  }

  /**
   * The retry with the improved intent, on the workspace the rejection left. A modify
   * loads the committed file into the shadow again; a failed surgeon or creator call
   * raises nothing here, it only leaves the content unchanged. Whatever is staged is
   * committed and validated; the result says whether the retry passed.
   */
  function Retry(w: P.Workspace, e: P.Edit, intent: string, o: Oracles): (r: (P.Workspace, bool))
    ensures r.0.readOnly == w.readOnly && r.0.shadow - {e.file} == w.shadow - {e.file}
    ensures r.1 ==> e.file in r.0.shadow && e.file in r.0.files && r.0.shadow[e.file] == r.0.files[e.file]
  {
    var f := e.file;
    var staged := Restaged(w, e, intent, o);
    if f !in staged || f in w.readOnly then (w.(shadow := staged), false)
    else
      var files := w.files[f := staged[f]];
      (P.Workspace(staged, files, w.readOnly), ValidateFast(o.compiler, files, f).Passed?)
  }

  /** What the shadow holds after the retry's content is produced. */
  function Restaged(w: P.Workspace, e: P.Edit, intent: string, o: Oracles): (m: map<string, string>)
    ensures m - {e.file} == w.shadow - {e.file}
  {
    var f := e.file;
    var loaded := if e.operation == P.CreateOperation || f in w.shadow || f !in w.files then w.shadow
                  else w.shadow[f := w.files[f]];
    assert loaded - {f} == w.shadow - {f};
    match P.Produce(w, e.(improvedIntent := Some(intent)), o.surgeon, o.creator)
    case Ok(c) => loaded[f := c]
    case Err(_) => loaded
  }

  /** `success` with `retried`, or a failure carrying the first validation's error, or the exception's. */
  datatype SmartResult = Applied(retried: bool) | Invalid(error: string) | Failed(error: string)

  datatype SmartRun = SmartRun(w: P.Workspace, ledger: Ledger, result: SmartResult)

  /** `_apply_edits_smart` for one edit. */
  function SmartEdit(w: P.Workspace, l: Ledger, e: P.Edit, o: Oracles): (r: SmartRun)
    ensures r.w.readOnly == w.readOnly && r.w.shadow - {e.file} == w.shadow - {e.file}
  {
    SmartAfter(FirstTry(w, e, o), l, e, o)
  }

  /** What follows the first try: report it, or improve the intent once and retry. */
  function SmartAfter(first: P.Step, l: Ledger, e: P.Edit, o: Oracles): (r: SmartRun)
    ensures r.w.readOnly == first.w.readOnly && r.w.shadow - {e.file} == first.w.shadow - {e.file}
  {
    match first.outcome
    case Threw(err) => SmartRun(first.w, l, Failed(err))
    case Validated(v) =>
      if v.Passed? then SmartRun(first.w, l, Applied(false))
      else if !Fixable(v.error) then SmartRun(first.w, l, Invalid(v.error))
      else SmartImproved(first.w, l, e, v.error, o)
  }

  /** After a fixable rejection: improve the intent, retry once, unstage a failed retry. */
  function SmartImproved(w: P.Workspace, l: Ledger, e: P.Edit, error: string, o: Oracles): (r: SmartRun)
    ensures r.w.readOnly == w.readOnly && r.w.shadow - {e.file} == w.shadow - {e.file}
  {
    var (improved, l') := ImproveCheap(o.improver, l, e.intent, error);
    if improved.None? then SmartRun(w, l', Invalid(error))
    else
      var (w', passed) := Retry(w, e, improved.value, o);
      if passed then SmartRun(w', l', Applied(true))
      else SmartRun(Unstaged(w', e.file), l', Invalid(error))
  }

  /**
   * One edit costs at most one model call, made only after a fixable rejection, and a
   * retried success follows such a rejection too.
   */
  lemma SmartEditCalls(w: P.Workspace, l: Ledger, e: P.Edit, o: Oracles)
    ensures var r := SmartEdit(w, l, e, o);
      var first := FirstTry(w, e, o).outcome;
      && (Balanced(l) ==> Balanced(r.ledger))
      && l.apiCalls <= r.ledger.apiCalls <= l.apiCalls + 1
      && (r.ledger != l || r.result == Applied(true) ==>
            first.Validated? && first.validation.Rejected? && Fixable(first.validation.error))
  {
    SmartAfterCalls(FirstTry(w, e, o), l, e, o);
  }

  lemma SmartAfterCalls(first: P.Step, l: Ledger, e: P.Edit, o: Oracles)
    ensures var r := SmartAfter(first, l, e, o);
      && (Balanced(l) ==> Balanced(r.ledger))
      && l.apiCalls <= r.ledger.apiCalls <= l.apiCalls + 1
      && (r.ledger != l || r.result == Applied(true) ==>
            first.outcome.Validated? && first.outcome.validation.Rejected? && Fixable(first.outcome.validation.error))
  {
  }

  /** A failure reports the first try's exception, or the first validation's error: never the retry's. */
  lemma SmartEditReports(w: P.Workspace, l: Ledger, e: P.Edit, o: Oracles)
    ensures var r := SmartEdit(w, l, e, o).result;
      var first := FirstTry(w, e, o).outcome;
      && (r.Failed? <==> first.Threw?)
      && (r.Failed? ==> r.error == first.error)
      && (r.Invalid? ==> first.Validated? && first.validation.Rejected? && r.error == first.validation.error)
      && (r == Applied(false) <==> first == P.Validated(P.Passed))
  {
    SmartAfterReports(FirstTry(w, e, o), l, e, o);
  }

  lemma SmartAfterReports(first: P.Step, l: Ledger, e: P.Edit, o: Oracles)
    ensures var r := SmartAfter(first, l, e, o).result;
      && (r.Failed? <==> first.outcome.Threw?)
      && (r.Failed? ==> r.error == first.outcome.error)
      && (r.Invalid? ==> first.outcome.Validated? && first.outcome.validation.Rejected? && r.error == first.outcome.validation.error)
      && (r == Applied(false) <==> first.outcome == P.Validated(P.Passed))
  {
  }

  /** A success leaves the file committed as staged; a failure leaves nothing staged. */
  lemma SmartEditStaging(w: P.Workspace, l: Ledger, e: P.Edit, o: Oracles)
    ensures var r := SmartEdit(w, l, e, o);
      && (r.result.Applied? ==> e.file in r.w.shadow && e.file in r.w.files && r.w.shadow[e.file] == r.w.files[e.file])
      && (!r.result.Applied? ==> e.file !in r.w.shadow)
  {
    SmartAfterStaging(FirstTry(w, e, o), l, e, o);
  }

  lemma SmartAfterStaging(first: P.Step, l: Ledger, e: P.Edit, o: Oracles)
    requires first.outcome == P.Validated(P.Passed) ==>
      e.file in first.w.shadow && e.file in first.w.files && first.w.shadow[e.file] == first.w.files[e.file]
    requires first.outcome != P.Validated(P.Passed) ==> e.file !in first.w.shadow
    ensures var r := SmartAfter(first, l, e, o);
      && (r.result.Applied? ==> e.file in r.w.shadow && e.file in r.w.files && r.w.shadow[e.file] == r.w.files[e.file])
      && (!r.result.Applied? ==> e.file !in r.w.shadow)
  {
  }

  /** The edits one after another, each on what the previous left. */
  datatype SmartBatch = SmartBatch(w: P.Workspace, ledger: Ledger, results: seq<SmartResult>)

  function SmartAll(w: P.Workspace, l: Ledger, edits: seq<P.Edit>, o: Oracles): (b: SmartBatch)
    ensures |b.results| == |edits|
  {
    if edits == [] then SmartBatch(w, l, [])
    else
      var b := SmartAll(w, l, edits[..|edits| - 1], o);
      var r := SmartEdit(b.w, b.ledger, edits[|edits| - 1], o);
      SmartBatch(r.w, r.ledger, b.results + [r.result])
  }

  /** The edits together cost at most one call each, and the ledger stays balanced. */
  lemma {:induction false} SmartAllCalls(w: P.Workspace, l: Ledger, edits: seq<P.Edit>, o: Oracles)
    ensures var b := SmartAll(w, l, edits, o);
      && l.apiCalls <= b.ledger.apiCalls <= l.apiCalls + |edits|
      && (Balanced(l) ==> Balanced(b.ledger))
  {
    if edits != [] {
      var init := edits[..|edits| - 1];
      SmartAllCalls(w, l, init, o);
      var b := SmartAll(w, l, init, o);
      SmartEditCalls(b.w, b.ledger, edits[|edits| - 1], o);
    }
  }

  // ---------------------------------------------------------------------------------
  // The project map and its cache
  // ---------------------------------------------------------------------------------

  /** A listed path that the map keeps: nothing under `node_modules` or `.git`. */
  predicate Listed(path: string)
  {
    !Contains(path, "node_modules") && !Contains(path, ".git")
  }

  /** The map's entries from `find`'s output: its lines, filtered, at most 50 of them, in listing order. */
  function MapEntries(listing: string): (r: seq<string>)
    ensures |r| <= MaxMapEntries
    ensures forall i :: 0 <= i < |r| ==> Listed(r[i]) && r[i] in Split(Strip(listing), "\n")
  {
    Take(Where(Split(Strip(listing), "\n"), Listed), MaxMapEntries)
  }

  /** `_cached_project_map` and `_cache_timestamp`. */
  datatype Cache = Cache(projectMap: Option<string>, timestamp: Option<real>)

  /** The cached map is used when both fields are set and truthy and it is under 300 seconds old. */
  predicate Fresh(c: Cache, now: real)
  {
    && c.projectMap.Some? && c.projectMap.value != ""
    && c.timestamp.Some? && c.timestamp.value != 0.0
    && now - c.timestamp.value < CacheSeconds
  }

  datatype Lookup = Lookup(projectMap: string, cache: Cache, hit: bool)

  /**
   * `_get_cached_project_map`: the cached map while it is fresh; otherwise a new map from
   * the listing, cached with the time; a listing that fails gives a placeholder and
   * caches nothing.
   */
  function LookUp(c: Cache, now: real, listing: Result<string>): (r: Lookup)
    ensures r.hit <==> Fresh(c, now)
    ensures r.hit ==> r.projectMap == c.projectMap.value && r.cache == c
    ensures !r.hit && listing.Err? ==> r.projectMap == NoProjectMap && r.cache == c
    ensures !r.hit && listing.Ok? ==>
      r.projectMap == Join(MapEntries(listing.value), "\n") && r.cache == Cache(Some(r.projectMap), Some(now))
  {
    if Fresh(c, now) then Lookup(c.projectMap.value, c, true)
    else
      match listing
      case Err(_) => Lookup(NoProjectMap, c, false)
      case Ok(out) =>
        var m := Join(MapEntries(out), "\n");
        Lookup(m, Cache(Some(m), Some(now)), false)
  }

  /**
   * A map built at a non-zero time is reused, whatever the listing says by then, until
   * 300 seconds have passed; an empty map is never reused.
   */
  lemma CacheReuse(c: Cache, t: real, out: string, t': real, listing: Result<string>)
    requires t != 0.0 && t' - t < CacheSeconds
    ensures var first := LookUp(c, t, Ok(out));
      !first.hit ==>
        var second := LookUp(first.cache, t', listing);
        (second.hit <==> first.projectMap != "") && (second.hit ==> second.projectMap == first.projectMap)
  {
  }

  // ---------------------------------------------------------------------------------
  // The task
  // ---------------------------------------------------------------------------------

  /**
   * `_generate_edits_batch`'s file loading: of the first five files the analysis names,
   * those on disk, each cut to 1500 characters.
   */
  function Loaded(files: map<string, string>, infos: seq<P.FileInfo>): (r: map<string, string>)
    ensures |r| <= |infos| && |r| <= MaxFiles
    ensures forall p :: p in r ==> p in files && r[p] == Take(files[p], MaxFileLength) && |r[p]| <= MaxFileLength
    ensures forall i :: 0 <= i < |infos| && i < MaxFiles && infos[i].path in files ==> infos[i].path in r
  {
    LoadedFrom(files, Take(infos, MaxFiles))
  }

  function LoadedFrom(files: map<string, string>, infos: seq<P.FileInfo>): (r: map<string, string>)
    ensures |r| <= |infos|
    ensures forall p :: p in r ==> p in files && r[p] == Take(files[p], MaxFileLength)
    ensures forall i :: 0 <= i < |infos| && infos[i].path in files ==> infos[i].path in r
  {
    if infos == [] then map[]
    else
      var m := LoadedFrom(files, infos[..|infos| - 1]);
      var p := infos[|infos| - 1].path;
      if p in files then m[p := Take(files[p], MaxFileLength)] else m
  }

  datatype Report =
    | Report(status: string, editsMade: nat, successful: nat, results: seq<SmartResult>, cost: real, successRate: real)
    | Failure(error: string, cost: real)

  predicate Succeeded(r: SmartResult)
  {
    r.Applied?
  }

  /** The task's report: the production agent's roll-up, with what the task cost. */
  function Summary(results: seq<SmartResult>, cost: real): (r: Report)
    ensures r.Report? && r.editsMade == |results| && r.successful == Count(results, Succeeded)
    ensures r.status == P.StatusSuccess <==> r.successful == |results|
    ensures r.status == P.StatusPartial <==> 0 < r.successful < |results|
    ensures r.status == P.StatusFailed <==> r.successful == 0 < |results|
    ensures |results| == 0 ==> r.successRate == 0.0
    ensures |results| > 0 ==> r.successRate * |results| as real == r.successful as real
  {
    var n, k := |results|, Count(results, Succeeded);
    var status := if k == n then P.StatusSuccess else if k > 0 then P.StatusPartial else P.StatusFailed;
    Report(status, n, k, results, cost, P.Rate(k, n))
  }

  /** `metrics`, without the token savings. */
  datatype Metrics = Metrics(tasksCompleted: nat, totalCost: real, cachedCalls: nat)

  /** Everything a task can change. */
  datatype Session = Session(w: P.Workspace, ledger: Ledger, metrics: Metrics, cache: Cache)

  type Analyst = string -> Call<seq<P.FileInfo>>
  type Generator = map<string, string> -> Call<P.Generated>

  datatype TaskRun = TaskRun(s: Session, report: Report)

  /**
   * `execute_task`: refused once the session has spent its limit; otherwise the analysis
   * on the (possibly cached) project map, the edits generated from the loaded files in
   * one call, and every edit applied with its one possible retry. Any exception becomes
   * an error report with what the task had spent so far.
   */
  function Executed(s: Session, limit: real, now: real, listing: Result<string>, analyst: Analyst,
                    generate: Generator, o: Oracles): TaskRun
  {
    if s.ledger.sessionCost >= limit then TaskRun(s, Failure(CostLimitError, 0.0))
    else
      var started := Started(s, now, listing, analyst);
      Analysed(s.ledger.sessionCost, started.s, started.analysis, generate, o)
  }

  datatype Start = Start(s: Session, analysis: Result<seq<P.FileInfo>>)

  /** The project map, looked up or rebuilt, and the analysis call on it. */
  function Started(s: Session, now: real, listing: Result<string>, analyst: Analyst): Start
  {
    var look := LookUp(s.cache, now, listing);
    var metrics := if look.hit then s.metrics.(cachedCalls := s.metrics.cachedCalls + 1) else s.metrics;
    var a := analyst(look.projectMap);
    Start(Session(s.w, Settle(s.ledger, a), metrics, look.cache), Outcome(a))
  }

  /** The task after its analysis: load the files it names and generate the edits. */
  function Analysed(start: real, s: Session, analysis: Result<seq<P.FileInfo>>, generate: Generator, o: Oracles): TaskRun
  {
    match analysis
    case Err(error) => TaskRun(s, Failure(error, s.ledger.sessionCost - start))
    case Ok(infos) =>
      var contents := Loaded(s.w.files, infos);
      if contents == map[] then TaskRun(s, Failure(NoFilesError, s.ledger.sessionCost - start))
      else
        var g := generate(contents);
        Finished(start, s.(ledger := Settle(s.ledger, g)), Outcome(g), o)
  }

  /** The task after generating its edits: apply them and roll up. */
  function Finished(start: real, s: Session, generated: Result<P.Generated>, o: Oracles): TaskRun
  {
    match generated
    case Err(error) => TaskRun(s, Failure(error, s.ledger.sessionCost - start))
    case Ok(gen) =>
      var b := SmartAll(s.w, s.ledger, P.EditList(gen), o);
      var m := s.metrics.(tasksCompleted := s.metrics.tasksCompleted + 1, totalCost := b.ledger.sessionCost);
      TaskRun(Session(b.w, b.ledger, m, s.cache), Summary(b.results, b.ledger.sessionCost - start))
  }

  /** Over the limit, a task does nothing: no call, no change, an error report costing nothing. */
  lemma CostLimitGate(s: Session, limit: real, now: real, listing: Result<string>, analyst: Analyst,
                      generate: Generator, o: Oracles)
    requires s.ledger.sessionCost >= limit
    ensures Executed(s, limit, now, listing, analyst, generate, o) == TaskRun(s, Failure(CostLimitError, 0.0))
  {
  }

  /**
   * What a task reports as its cost is what the session spent on it; the ledger stays
   * balanced; a task makes at most two calls of its own and one per edit; only a task that
   * reaches its edits is counted as completed.
   */
  lemma TaskSpending(s: Session, limit: real, now: real, listing: Result<string>, analyst: Analyst,
                     generate: Generator, o: Oracles)
    ensures var t := Executed(s, limit, now, listing, analyst, generate, o);
      && t.report.cost == t.s.ledger.sessionCost - s.ledger.sessionCost
      && (Balanced(s.ledger) ==> Balanced(t.s.ledger))
      && s.ledger.apiCalls <= t.s.ledger.apiCalls
      && (t.report.Failure? ==> t.s.ledger.apiCalls <= s.ledger.apiCalls + 2 && t.s.metrics.tasksCompleted == s.metrics.tasksCompleted)
      && (t.report.Report? ==>
            t.s.ledger.apiCalls <= s.ledger.apiCalls + 2 + t.report.editsMade
            && t.s.metrics.tasksCompleted == s.metrics.tasksCompleted + 1
            && t.s.metrics.totalCost == t.s.ledger.sessionCost)
  {
    if s.ledger.sessionCost < limit {
      var look := LookUp(s.cache, now, listing);
      var a := analyst(look.projectMap);
      if Outcome(a).Ok? {
        var contents := Loaded(s.w.files, Outcome(a).value);
        if contents != map[] {
          var g := generate(contents);
          if Outcome(g).Ok? {
            var l2 := Settle(Settle(s.ledger, a), g);
            SmartAllCalls(s.w, l2, P.EditList(Outcome(g).value), o);
          }
        }
      }
    }
  }

  /** `get_cost_report`, without the per-call token counts. */
  datatype CostReport = CostReport(sessionCost: real, costLimit: real, remainingBudget: real, apiCalls: nat,
                                   cachedCalls: nat, averageCostPerCall: real, callBreakdown: seq<real>)

  function CostReportOf(l: Ledger, limit: real, m: Metrics): (r: CostReport)
    ensures r.remainingBudget == limit - l.sessionCost
    ensures l.apiCalls == 0 ==> r.averageCostPerCall == 0.0
    ensures l.apiCalls > 0 ==> r.averageCostPerCall * l.apiCalls as real == l.sessionCost
    ensures Balanced(l) ==> |r.callBreakdown| == r.apiCalls && Sum(r.callBreakdown) == r.sessionCost
  {
    var average := if l.apiCalls > 0 then Average(l.sessionCost, l.apiCalls) else 0.0;
    CostReport(l.sessionCost, limit, limit - l.sessionCost, l.apiCalls, m.cachedCalls, average, l.callCosts)
  }

  function Average(total: real, n: nat): (r: real)
    requires n > 0
    ensures r * n as real == total
  {
    total / n as real
  }

  // ---------------------------------------------------------------------------------
  // The agent
  // ---------------------------------------------------------------------------------

  class Agent {
    const shadow: S.ShadowWorkspace
    const oracles: Oracles
    const costLimit: real
    var ledger: Ledger
    var metrics: Metrics
    var cache: Cache

    constructor (shadow: S.ShadowWorkspace, oracles: Oracles, costLimit: real)
      ensures this.shadow == shadow && this.oracles == oracles && this.costLimit == costLimit
      ensures ledger == Ledger(0.0, 0, []) && Balanced(ledger)
      ensures metrics == Metrics(0, 0.0, 0) && cache == Cache(None, None)
    {
      this.shadow := shadow;
      this.oracles := oracles;
      this.costLimit := costLimit;
      ledger := Ledger(0.0, 0, []);
      metrics := Metrics(0, 0.0, 0);
      cache := Cache(None, None);
    }

    function State(): P.Workspace
      reads shadow, shadow.fs
    {
      P.Workspace(shadow.shadowFiles, shadow.fs.files, shadow.fs.readOnly)
    }

    function Snapshot(): Session
      reads this, shadow, shadow.fs
    {
      Session(State(), ledger, metrics, cache)
    }

    /** `get_cost_report`. */
    function GetCostReport(): (r: CostReport)
      reads this
      ensures r == CostReportOf(ledger, costLimit, metrics)
      ensures Balanced(ledger) ==> Sum(r.callBreakdown) == r.sessionCost
    {
      CostReportOf(ledger, costLimit, metrics)
    }

    /** The content for a try: created, or the surgeon's edit of the loaded file, which a modify stages. */
    method ProduceContent(e: P.Edit) returns (c: Result<string>)
      modifies shadow
      ensures c == P.Produce(old(State()), e, oracles.surgeon, oracles.creator)
      ensures shadow.shadowFiles ==
        if e.operation == P.CreateOperation || e.file in old(shadow.shadowFiles) || e.file !in shadow.fs.files
        then old(shadow.shadowFiles) else old(shadow.shadowFiles)[e.file := shadow.fs.files[e.file]]
      ensures shadow.shadowFiles - {e.file} == old(shadow.shadowFiles) - {e.file}
    {
      ghost var w0 := State();
      var intent := P.CurrentIntent(e);
      if e.operation == P.CreateOperation {
        var created := S.CheckCreate(oracles.creator(e.file, intent));
        c := if created.Created? then Ok(created.content) else Err(created.error);
        assert c == P.Produce(w0, e, oracles.surgeon, oracles.creator);
      } else {
        var current := shadow.LoadFile(e.file);
        assert current == if e.file in w0.shadow then w0.shadow[e.file] else if e.file in w0.files then w0.files[e.file] else "";
        var edited := S.ApplyEdit(oracles.surgeon, intent, current);
        c := if edited.Edited? then Ok(edited.newContent) else Err(edited.error);
        assert c == P.Produce(w0, e, oracles.surgeon, oracles.creator);
      }
    }

    /** The first try at an edit. */
    method TryFirst(e: P.Edit) returns (out: P.AttemptOutcome)
      modifies shadow, shadow.fs
      ensures P.Step(State(), out) == FirstTry(old(State()), e, oracles)
    {
      var content := ProduceContent(e.(improvedIntent := None));
      if content.Err? {
        shadow.Rollback(e.file);
        return P.Threw(content.error);
      }
      ghost var produced := State();
      out := CheckFirst(e.file, content.value);
      FirstCheckedIgnoresStaged(produced, old(State()), e.file, content.value, oracles.compiler);
    }

    method CheckFirst(path: string, content: string) returns (out: P.AttemptOutcome)
      modifies shadow, shadow.fs
      ensures P.Step(State(), out) == FirstChecked(old(State()), path, content, oracles.compiler)
    {
      shadow.UpdateFile(path, content);
      var ok := shadow.Commit(path);
      if !ok {
        shadow.Rollback(path);
        return P.Threw(CommitError);
      }
      var v := ValidateFast(oracles.compiler, shadow.fs.files, path);
      if v.Rejected? {
        shadow.Rollback(path);
      }
      out := P.Validated(v);
    }

    /** The retry with an improved intent; whether it passed. */
    method RetryWith(e: P.Edit, intent: string) returns (passed: bool)
      modifies shadow, shadow.fs
      ensures (State(), passed) == Retry(old(State()), e, intent, oracles)
    {
      ghost var w0 := State();
      var content := ProduceContent(e.(improvedIntent := Some(intent)));
      if content.Ok? {
        shadow.UpdateFile(e.file, content.value);
      }
      assert shadow.shadowFiles == Restaged(w0, e, intent, oracles);
      assert shadow.fs.files == w0.files && shadow.fs.readOnly == w0.readOnly;
      var ok := shadow.Commit(e.file);
      passed := false;
      if ok {
        var v := ValidateFast(oracles.compiler, shadow.fs.files, e.file);
        passed := v.Passed?;
      }
    }

    /** `_improve_intent_cheap`, charging the call when it is answered. */
    method ImproveIntentCheap(intent: string, error: string) returns (improved: Option<string>)
      modifies this
      ensures (improved, ledger) == ImproveCheap(oracles.improver, old(ledger), intent, error)
      ensures metrics == old(metrics) && cache == old(cache)
    {
      var c := oracles.improver(intent, Take(error, ImproveErrorLength));
      ledger := Settle(ledger, c);
      improved := None;
      if c.Answered? && c.parsed.Ok? {
        var text := Strip(c.parsed.value);
        if |text| > MinImprovedLength {
          improved := Some(text);
        }
      }
    }

    /** One edit of `_apply_edits_smart`. */
    method ApplyOne(e: P.Edit) returns (res: SmartResult)
      modifies this, shadow, shadow.fs
      ensures SmartRun(State(), ledger, res) == SmartEdit(old(State()), old(ledger), e, oracles)
      ensures metrics == old(metrics) && cache == old(cache)
    {
      ghost var l0 := ledger;
      var out := TryFirst(e);
      ghost var first := P.Step(State(), out);
      assert SmartEdit(old(State()), l0, e, oracles) == SmartAfter(first, l0, e, oracles);
      if out.Threw? {
        return Failed(out.error);
      }
      var v := out.validation;
      if v.Passed? {
        return Applied(false);
      }
      if !Fixable(v.error) {
        return Invalid(v.error);
      }
      res := RetryImproved(e, v.error);
    }

    /** The fixable rejection's follow-up: improve the intent, retry once, unstage a failed retry. */
    method RetryImproved(e: P.Edit, error: string) returns (res: SmartResult)
      modifies this, shadow, shadow.fs
      ensures SmartRun(State(), ledger, res) == SmartImproved(old(State()), old(ledger), e, error, oracles)
      ensures metrics == old(metrics) && cache == old(cache)
    {
      ghost var w0 := State();
      ghost var target := SmartImproved(w0, ledger, e, error, oracles);
      var improved := ImproveIntentCheap(e.intent, error);
      if improved.None? {
        assert target == SmartRun(w0, ledger, Invalid(error));
        return Invalid(error);
      }
      var passed := RetryWith(e, improved.value);
      ghost var w1 := State();
      assert target == if passed then SmartRun(w1, ledger, Applied(true)) else SmartRun(Unstaged(w1, e.file), ledger, Invalid(error));
      if passed {
        return Applied(true);
      }
      shadow.Rollback(e.file);
      assert State() == Unstaged(w1, e.file);
      res := Invalid(error);
    }

    /** `_apply_edits_smart`: every edit in order. */
    method ApplyEditsSmart(edits: seq<P.Edit>) returns (results: seq<SmartResult>)
      modifies this, shadow, shadow.fs
      ensures SmartBatch(State(), ledger, results) == SmartAll(old(State()), old(ledger), edits, oracles)
      ensures metrics == old(metrics) && cache == old(cache)
    {
      results := [];
      for i := 0 to |edits|
        invariant SmartBatch(State(), ledger, results) == SmartAll(old(State()), old(ledger), edits[..i], oracles)
        invariant metrics == old(metrics) && cache == old(cache)
      {
        var r := ApplyOne(edits[i]);
        assert edits[..i + 1][..i] == edits[..i];
        results := results + [r];
        assert results[..|results| - 1] == results[..i];
      }
      assert edits[..|edits|] == edits;
    }

    /** `_get_cached_project_map`. */
    method ProjectMap(now: real, listing: Result<string>) returns (projectMap: string)
      modifies this
      ensures var look := LookUp(old(cache), now, listing);
        && projectMap == look.projectMap && cache == look.cache
        && metrics == if look.hit then old(metrics).(cachedCalls := old(metrics).cachedCalls + 1) else old(metrics)
      ensures ledger == old(ledger)
    {
      if Fresh(cache, now) {
        metrics := metrics.(cachedCalls := metrics.cachedCalls + 1);
        return cache.projectMap.value;
      }
      match listing
      case Err(_) =>
        projectMap := NoProjectMap;
      case Ok(out) =>
        projectMap := Join(MapEntries(out), "\n");
        cache := Cache(Some(projectMap), Some(now));
    }

    /** `execute_task`. */
    method ExecuteTask(now: real, listing: Result<string>, analyst: Analyst, generate: Generator) returns (report: Report)
      modifies this, shadow, shadow.fs
      ensures TaskRun(Snapshot(), report) == Executed(old(Snapshot()), costLimit, now, listing, analyst, generate, oracles)
    {
      var start := ledger.sessionCost;
      if ledger.sessionCost >= costLimit {
        return Failure(CostLimitError, 0.0);
      }
      var analysis := Begin(now, listing, analyst);
      report := Analyse(start, analysis, generate);
    }

    /** The project map and the analysis call, charged. */
    method Begin(now: real, listing: Result<string>, analyst: Analyst) returns (analysis: Result<seq<P.FileInfo>>)
      modifies this
      ensures Start(Snapshot(), analysis) == Started(old(Snapshot()), now, listing, analyst)
    {
      var projectMap := ProjectMap(now, listing);
      var a := analyst(projectMap);
      ledger := Settle(ledger, a);
      analysis := Outcome(a);
    }

    /** Load the analysed files and generate the edits. */
    method Analyse(start: real, analysis: Result<seq<P.FileInfo>>, generate: Generator) returns (report: Report)
      modifies this, shadow, shadow.fs
      ensures TaskRun(Snapshot(), report) == Analysed(start, old(Snapshot()), analysis, generate, oracles)
    {
      if analysis.Err? {
        return Failure(analysis.error, ledger.sessionCost - start);
      }
      var contents := Loaded(shadow.fs.files, analysis.value);
      if contents == map[] {
        return Failure(NoFilesError, ledger.sessionCost - start);
      }
      var g := generate(contents);
      ledger := Settle(ledger, g);
      report := Finish(start, Outcome(g));
    }

    /** Apply the generated edits and roll up. */
    method Finish(start: real, generated: Result<P.Generated>) returns (report: Report)
      modifies this, shadow, shadow.fs
      ensures TaskRun(Snapshot(), report) == Finished(start, old(Snapshot()), generated, oracles)
    {
      if generated.Err? {
        return Failure(generated.error, ledger.sessionCost - start);
      }
      var results := ApplyEditsSmart(P.EditList(generated.value));
      metrics := metrics.(tasksCompleted := metrics.tasksCompleted + 1, totalCost := ledger.sessionCost);
      report := Summary(results, ledger.sessionCost - start);
    }
  }
}
