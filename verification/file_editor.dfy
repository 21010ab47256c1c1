/**
 * The file editor: targeted edits of workspace files. Each edit reads the file, decides
 * from its text what to write, and writes it.
 *   - Insert a text after, or before, the first occurrence of a pattern.
 *   - Replace the first occurrence of a pattern.
 *   - Append a text, creating the file if needed.
 *   - Add an import statement after the last import line.
 * The decision is a pure function of the file's text (an `Edit`); the class performs it.
 * A batch of create/overwrite/append operations reports the files written and the errors.
 */
module FileEditor {
  import opened Wrappers
  import opened Strings
  import opened Lists
  import Files

  /** What an edit decides, given the current text of the file. */
  datatype Edit =
    | Refused              // report failure, write nothing
    | Keep                 // report success, write nothing
    | Rewrite(content: string)
    | Raised(message: string)

  /** Python refuses to split on an empty string. */
  const EmptySeparator := "empty separator"

  /** `insert_after_pattern`: the text goes on a new line right after the first occurrence of the pattern. */
  function InsertAfterEdit(current: Option<string>, pattern: string, text: string): (e: Edit)
    ensures e.Refused? <==> current.None? || !Contains(current.value, pattern)
    ensures e.Raised? <==> current.Some? && pattern == []
    ensures e.Keep? == false
    ensures e.Rewrite? ==>
      var c, k := current.value, Find(current.value, pattern) + |pattern|;
      k <= |c| && e.content == c[..k] + "\n" + text + c[k..]
  {
    match current
    case None => Refused
    case Some(c) =>
      if !Contains(c, pattern) then Refused
      else if pattern == [] then Raised(EmptySeparator)
      else
        var parts := SplitFirst(c, pattern);
        assert c[..|parts[0]| + |pattern|] == parts[0] + pattern;
        Rewrite(parts[0] + pattern + "\n" + text + parts[1])
  }

  /** `insert_before_pattern`: the text goes on a line of its own right before the first occurrence. */
  function InsertBeforeEdit(current: Option<string>, pattern: string, text: string): (e: Edit)
    ensures e.Refused? <==> current.None? || !Contains(current.value, pattern)
    ensures e.Raised? <==> current.Some? && pattern == []
    ensures e.Keep? == false
    ensures e.Rewrite? ==>
      var c, k := current.value, Find(current.value, pattern);
      0 <= k <= |c| && e.content == c[..k] + text + "\n" + c[k..]
  {
    match current
    case None => Refused
    case Some(c) =>
      if !Contains(c, pattern) then Refused
      else if pattern == [] then Raised(EmptySeparator)
      else
        var parts := SplitFirst(c, pattern);
        assert c[|parts[0]|..] == pattern + parts[1];
        Rewrite(parts[0] + text + "\n" + pattern + parts[1])
  }

  /**
   * Removing what `insert_after_pattern` added gives the file back: the inserted line sits
   * right after the first occurrence of the pattern, which is left in place.
   */
  lemma InsertAfterRemovable(c: string, pattern: string, text: string)
    requires Contains(c, pattern) && pattern != []
    ensures var k := Find(c, pattern) + |pattern|;
      var r := InsertAfterEdit(Some(c), pattern, text).content;
      k <= |r| && r[..k] + r[k + 1 + |text|..] == c && r[k - |pattern|..k] == pattern
  {
    var k := Find(c, pattern) + |pattern|;
    var e := InsertAfterEdit(Some(c), pattern, text);
    assert e.Rewrite? && OccursAt(c, pattern, k - |pattern|);
    LineAfterRemovable(c, pattern, text, k, e.content);
  }

  lemma LineAfterRemovable(c: string, pattern: string, text: string, k: int, r: string)
    requires OccursAt(c, pattern, k - |pattern|) && k <= |c| && r == c[..k] + "\n" + text + c[k..]
    ensures k <= |r| && r[..k] + r[k + 1 + |text|..] == c && r[k - |pattern|..k] == pattern
  {
    Inserted(c, k, "\n", text, r, k - |pattern|);
  }

  /** Two pieces put in at position `k`: the text around them is the old text. */
  lemma Inserted(c: string, k: int, m1: string, m2: string, r: string, lo: int)
    requires 0 <= lo <= k <= |c| && r == c[..k] + m1 + m2 + c[k..]
    ensures |r| == |c| + |m1| + |m2|
    ensures r[..k] == c[..k] && r[lo..k] == c[lo..k] && r[k + |m1| + |m2|..] == c[k..]
    ensures r[..k] + r[k + |m1| + |m2|..] == c
  {
    assert c[..k] + c[k..] == c;
  }

  /**
   * Removing what `insert_before_pattern` added gives the file back: the inserted line sits
   * right before the first occurrence of the pattern, which is left in place.
   */
  lemma InsertBeforeRemovable(c: string, pattern: string, text: string)
    requires Contains(c, pattern) && pattern != []
    ensures var k := Find(c, pattern);
      var r := InsertBeforeEdit(Some(c), pattern, text).content;
      0 <= k && k + |text| + 1 + |pattern| <= |r| && r[..k] + r[k + |text| + 1..] == c &&
      r[k + |text| + 1..][..|pattern|] == pattern
  {
    var k := Find(c, pattern);
    var e := InsertBeforeEdit(Some(c), pattern, text);
    assert e.Rewrite? && OccursAt(c, pattern, k);
    LineBeforeRemovable(c, pattern, text, k, e.content);
  }

  lemma LineBeforeRemovable(c: string, pattern: string, text: string, k: int, r: string)
    requires OccursAt(c, pattern, k) && r == c[..k] + text + "\n" + c[k..]
    ensures 0 <= k && k + |text| + 1 + |pattern| <= |r| && r[..k] + r[k + |text| + 1..] == c &&
      r[k + |text| + 1..][..|pattern|] == pattern
  {
    Inserted(c, k, text, "\n", r, k);
    var rest := c[k..];
    assert rest[..|pattern|] == c[k..k + |pattern|];
  }

  /** `replace_pattern`: only the first occurrence is replaced. */
  function ReplaceEdit(current: Option<string>, pattern: string, replacement: string): (e: Edit)
    ensures e.Refused? <==> current.None? || !Contains(current.value, pattern)
    ensures !e.Keep? && !e.Raised?
    ensures e.Rewrite? ==>
      var c, k := current.value, Find(current.value, pattern);
      0 <= k && k + |pattern| <= |c| && c[k..k + |pattern|] == pattern &&
      (forall j :: 0 <= j < k ==> !OccursAt(c, pattern, j)) &&
      e.content == c[..k] + replacement + c[k + |pattern|..]
  {
    match current
    case None => Refused
    case Some(c) =>
      if !Contains(c, pattern) then Refused
      else Rewrite(ReplaceFirst(c, pattern, replacement))
  }

  /** `append_to_file`'s new text: the content alone for a new file, else the old text, a newline, the content. */
  function AppendEdit(current: Option<string>, text: string): (e: Edit)
    ensures e.Rewrite?
    ensures EndsWith(e.content, text)
    ensures current.None? ==> e.content == text
    ensures current.Some? ==>
      var c := current.value;
      |e.content| == |c| + 1 + |text| && e.content[..|c|] == c && e.content[|c|] == '\n'
  {
    match current
    case None => Rewrite(text)
    case Some(c) => Rewrite(c + "\n" + text)
  }

  /** A line that counts as an import: its stripped form starts with `import `. */
  predicate IsImportLine(line: string)
  {
    StartsWith(Strip(line), "import ")
  }

  /** The index of the last import line, or -1. */
  function LastImport(lines: seq<string>): (r: int)
    ensures -1 <= r < |lines|
    ensures r >= 0 ==> IsImportLine(lines[r])
    ensures forall j :: r < j < |lines| ==> !IsImportLine(lines[j])
  {
    LastWhere(lines, IsImportLine)
  }

  /** `add_import`: nothing to do when the statement is already there, else it goes after the last import line. */
  function ImportEdit(current: Option<string>, statement: string): (e: Edit)
    ensures e.Refused? <==> current.None?
    ensures e.Keep? <==> current.Some? && Contains(current.value, statement)
    ensures !e.Raised?
    ensures e.Rewrite? ==> Contains(e.content, statement)
  {
    match current
    case None => Refused
    case Some(c) =>
      if Contains(c, statement) then Keep
      else
        var lines := Split(c, "\n");
        var p := LastImport(lines) + 1;
        var updated := InsertAt(lines, p, statement);
        JoinContainsPart(updated, "\n", p);
        Rewrite(Join(updated, "\n"))
  }

  /** Adding an import a second time keeps the file as it is. */
  lemma ImportIdempotent(c: string, statement: string)
    requires ImportEdit(Some(c), statement).Rewrite?
    ensures ImportEdit(Some(ImportEdit(Some(c), statement).content), statement) == Keep
  {
  }

  /**
   * Where `add_import` puts a one-line statement: the lines of the new text are the old
   * lines with the statement inserted right after the last import line (`LastImport`),
   * or at the top when there is none.
   */
  lemma ImportPlacement(c: string, statement: string)
    requires ImportEdit(Some(c), statement).Rewrite? && !Contains(statement, "\n")
    ensures var lines := Split(c, "\n");
      Split(ImportEdit(Some(c), statement).content, "\n") == InsertAt(lines, LastImport(lines) + 1, statement)
  {
    var lines := Split(c, "\n");
    var p := LastImport(lines) + 1;
    var updated := InsertAt(lines, p, statement);
    assert ImportEdit(Some(c), statement).content == Join(updated, "\n");
    forall i | 0 <= i < |updated|
      ensures !Contains(updated[i], ['\n'])
    {
      if i < p {
        assert updated[..p][i] == lines[..p][i];
      } else if i > p {
        assert updated[p + 1..][i - p - 1] == lines[p..][i - p - 1];
      }
    }
    SplitJoin(updated, '\n');
  }

  /** What `get_file_info` reports. */
  datatype FileInfo = FileInfo(exists_: bool, lineCount: nat, imports: seq<string>, exports: seq<string>, head: string)

  predicate IsExportLine(line: string)
  {
    Contains(line, "export")
  }

  /** `get_file_info`: the first ten import and export lines, and the first fifty lines. */
  function InfoOf(current: Option<string>): (i: FileInfo)
    ensures current.None? ==> i == FileInfo(false, 0, [], [], "")
  {
    match current
    case None => FileInfo(false, 0, [], [], "")
    case Some(c) =>
      var lines := Split(c, "\n");
      FileInfo(true, |lines|, Take(Where(lines, IsImportLine), 10), Take(Where(lines, IsExportLine), 10),
               Join(Take(lines, 50), "\n"))
  }

  /**
   * The import and export lists are the first ten lines of their kind in file order (all of
   * them when there are fewer), and the preview splits back into the first fifty lines.
   */
  lemma InfoCaps(c: string)
    ensures var i, lines := InfoOf(Some(c)), Split(c, "\n");
      && i.exists_ && i.lineCount == |lines| >= 1
      && |i.imports| == (if Count(lines, IsImportLine) < 10 then Count(lines, IsImportLine) else 10)
      && |i.exports| == (if Count(lines, IsExportLine) < 10 then Count(lines, IsExportLine) else 10)
      && (forall k :: 0 <= k < |i.imports| ==> i.imports[k] in lines && IsImportLine(i.imports[k]))
      && (forall k :: 0 <= k < |i.exports| ==> i.exports[k] in lines && IsExportLine(i.exports[k]))
      && i.imports == Where(lines, IsImportLine)[..|i.imports|]
      && i.exports == Where(lines, IsExportLine)[..|i.exports|]
      && Split(i.head, "\n") == Take(lines, 50)
  {
    InfoCounts(c);
    InfoFirst(c);
    PreviewSplits(c);
  }

  /** The lists are cut to ten only when the file has more lines of their kind. */
  lemma InfoCounts(c: string)
    ensures var i, lines := InfoOf(Some(c)), Split(c, "\n");
      && i.exists_ && i.lineCount == |lines| >= 1
      && |i.imports| == (if Count(lines, IsImportLine) < 10 then Count(lines, IsImportLine) else 10)
      && |i.exports| == (if Count(lines, IsExportLine) < 10 then Count(lines, IsExportLine) else 10)
  {
    var lines := Split(c, "\n");
    CountIsWhereLength(lines, IsImportLine);
    CountIsWhereLength(lines, IsExportLine);
  }

  /** The lists are the first lines of their kind, in file order. */
  lemma InfoFirst(c: string)
    ensures var i, lines := InfoOf(Some(c)), Split(c, "\n");
      && (forall k :: 0 <= k < |i.imports| ==> i.imports[k] in lines && IsImportLine(i.imports[k]))
      && (forall k :: 0 <= k < |i.exports| ==> i.exports[k] in lines && IsExportLine(i.exports[k]))
      && i.imports == Where(lines, IsImportLine)[..|i.imports|]
      && i.exports == Where(lines, IsExportLine)[..|i.exports|]
  {
    var lines := Split(c, "\n");
    var i := InfoOf(Some(c));
    assert i.imports == Take(Where(lines, IsImportLine), 10) && i.exports == Take(Where(lines, IsExportLine), 10);
    FirstOfKind(lines, IsImportLine);
    FirstOfKind(lines, IsExportLine);
  }

  /** The first ten lines of a kind are lines of the file of that kind, in file order. */
  lemma FirstOfKind(lines: seq<string>, p: string -> bool)
    ensures var t := Take(Where(lines, p), 10);
      (forall k :: 0 <= k < |t| ==> t[k] in lines && p(t[k])) && t == Where(lines, p)[..|t|]
  {
    var w := Where(lines, p);
    var t := Take(w, 10);
    assert t == w[..|t|];
  }

  /** The preview of the first fifty lines splits back into those lines. */
  lemma PreviewSplits(c: string)
    ensures var first := Take(Split(c, "\n"), 50);
      Split(Join(first, "\n"), "\n") == first
  {
    var lines := Split(c, "\n");
    var first := Take(lines, 50);
    assert "\n" == ['\n'];
    forall k | 0 <= k < |first| ensures !Contains(first[k], ['\n']) {
      assert first[k] == lines[k];
    }
    SplitJoin(first, '\n');
  }

  /** One item of `execute_operations`' list; a missing `content` key is `None`. */
  datatype Operation = Operation(action: Option<string>, file: string, content: Option<string>)

  /** What `execute_operations` returns, besides `success`. */
  datatype Report = Report(written: seq<string>, errors: seq<string>)

  function ActionText(action: Option<string>): string
  {
    if action.Some? then action.value else "None"
  }

  /** The new files and report after one operation; `readOnly` are the paths whose writes fail. */
  function Performed(files: map<string, string>, readOnly: set<string>, report: Report, op: Operation): (map<string, string>, Report)
  {
    if IsUnknown(op) then
      (files, report.(errors := report.errors + ["Unknown action: " + ActionText(op.action)]))
    else if op.content.None? then
      (files, report.(errors := report.errors + ["Error processing " + op.file + ": 'content'"]))
    else
      var text :=
        if op.action == Some("append") then AppendEdit(if op.file in files then Some(files[op.file]) else None, op.content.value).content
        else op.content.value;
      if op.file in readOnly then
        var verb := if op.action == Some("create") then "create" else if op.action == Some("overwrite") then "overwrite" else "append to";
        (files, report.(errors := report.errors + ["Failed to " + verb + " " + op.file]))
      else
        (files[op.file := text], report.(written := report.written + [op.file]))
  }

  function Executed(files: map<string, string>, readOnly: set<string>, ops: seq<Operation>): (map<string, string>, Report)
  {
    if ops == [] then (files, Report([], []))
    else
      var before := Executed(files, readOnly, ops[..|ops| - 1]);
      Performed(before.0, readOnly, before.1, ops[|ops| - 1])
  }

  predicate IsUnknown(op: Operation)
  {
    op.action != Some("create") && op.action != Some("overwrite") && op.action != Some("append")
  }

  /**
   * Every operation adds exactly one entry, to the files written or to the errors, and
   * every operation with an unknown action adds an error.
   */
  lemma {:induction false} ExecutedAccounts(files: map<string, string>, readOnly: set<string>, ops: seq<Operation>)
    ensures var r := Executed(files, readOnly, ops).1;
      |r.written| + |r.errors| == |ops| && |r.errors| >= Count(ops, IsUnknown)
  {
    if ops != [] {
      ExecutedAccounts(files, readOnly, ops[..|ops| - 1]);
    }
  }

  /** No file outside the operations' paths changes, and no read-only file changes. */
  lemma {:induction false} ExecutedFrame(files: map<string, string>, readOnly: set<string>, ops: seq<Operation>, path: string)
    requires path in readOnly || forall i :: 0 <= i < |ops| ==> ops[i].file != path
    ensures var after := Executed(files, readOnly, ops).0;
      (path in after <==> path in files) && (path in files ==> after[path] == files[path])
  {
    if ops != [] {
      ExecutedFrame(files, readOnly, ops[..|ops| - 1], path);
    }
  }

  class Editor {
    const fs: Files.FileSystem

    constructor (fs: Files.FileSystem)
      ensures this.fs == fs
    {
      this.fs := fs;
    }

    /** Performs an edit: the boolean the source returns, or the error it raises. */
    method Perform(path: string, e: Edit) returns (r: Result<bool>)
      modifies fs
      ensures fs.readOnly == old(fs.readOnly)
      ensures r == match e
        case Refused => Ok(false)
        case Keep => Ok(true)
        case Raised(m) => Err(m)
        case Rewrite(_) => Ok(path !in fs.readOnly)
      ensures fs.files == if e.Rewrite? && path !in fs.readOnly then old(fs.files)[path := e.content] else old(fs.files)
    {
      match e
      case Refused => r := Ok(false);
      case Keep => r := Ok(true);
      case Raised(m) => r := Err(m);
      case Rewrite(text) =>
        var ok := fs.Write(path, text);
        r := Ok(ok);
    }

    method InsertAfterPattern(path: string, pattern: string, text: string) returns (r: Result<bool>)
      modifies fs
      ensures fs.readOnly == old(fs.readOnly)
      ensures var e := InsertAfterEdit(old(fs.Read(path)), pattern, text);
        r == (if e.Refused? then Ok(false) else if e.Raised? then Err(e.message) else Ok(path !in fs.readOnly)) &&
        fs.files == if e.Rewrite? && path !in fs.readOnly then old(fs.files)[path := e.content] else old(fs.files)
    {
      r := Perform(path, InsertAfterEdit(fs.Read(path), pattern, text));
    }

    method InsertBeforePattern(path: string, pattern: string, text: string) returns (r: Result<bool>)
      modifies fs
      ensures fs.readOnly == old(fs.readOnly)
      ensures var e := InsertBeforeEdit(old(fs.Read(path)), pattern, text);
        r == (if e.Refused? then Ok(false) else if e.Raised? then Err(e.message) else Ok(path !in fs.readOnly)) &&
        fs.files == if e.Rewrite? && path !in fs.readOnly then old(fs.files)[path := e.content] else old(fs.files)
    {
      r := Perform(path, InsertBeforeEdit(fs.Read(path), pattern, text));
    }

    method ReplacePattern(path: string, pattern: string, replacement: string) returns (ok: bool)
      modifies fs
      ensures fs.readOnly == old(fs.readOnly)
      ensures var e := ReplaceEdit(old(fs.Read(path)), pattern, replacement);
        ok == (e.Rewrite? && path !in fs.readOnly) &&
        fs.files == if e.Rewrite? && path !in fs.readOnly then old(fs.files)[path := e.content] else old(fs.files)
    {
      var r := Perform(path, ReplaceEdit(fs.Read(path), pattern, replacement));
      ok := r == Ok(true);
    }

    method AppendToFile(path: string, text: string) returns (ok: bool)
      modifies fs
      ensures fs.readOnly == old(fs.readOnly)
      ensures ok <==> path !in fs.readOnly
      ensures fs.files == if ok then old(fs.files)[path := AppendEdit(old(fs.Read(path)), text).content] else old(fs.files)
    {
      var r := Perform(path, AppendEdit(fs.Read(path), text));
      ok := r == Ok(true);
    }

    /** `add_import`, finding the last import line with a loop over the lines. */
    method AddImport(path: string, statement: string) returns (ok: bool)
      modifies fs
      ensures fs.readOnly == old(fs.readOnly)
      ensures var e := ImportEdit(old(fs.Read(path)), statement);
        ok == (e.Keep? || (e.Rewrite? && path !in fs.readOnly)) &&
        fs.files == if e.Rewrite? && path !in fs.readOnly then old(fs.files)[path := e.content] else old(fs.files)
    {
      var current := fs.Read(path);
      if current.None? {
        return false;
      }
      if Contains(current.value, statement) {
        return true;
      }
      var lines := Split(current.value, "\n");
      var lastImport := FindLastImport(lines);
      var text := Join(InsertAt(lines, lastImport + 1, statement), "\n");
      assert ImportEdit(current, statement) == Rewrite(text);
      ok := fs.Write(path, text);
    }

    /** The loop of `add_import` that remembers the last import line. */
    method FindLastImport(lines: seq<string>) returns (lastImport: int)
      ensures lastImport == LastImport(lines)
    {
      lastImport := -1;
      for i := 0 to |lines|
        invariant lastImport == LastWhere(lines[..i], IsImportLine)
      {
        LastWhereSnoc(lines, i, IsImportLine);
        if IsImportLine(lines[i]) {
          lastImport := i;
        }
      }
      assert lines[..|lines|] == lines;
    }

    method GetFileInfo(path: string) returns (info: FileInfo)
      ensures info == InfoOf(fs.Read(path))
    {
      info := InfoOf(fs.Read(path));
    }

    /** `execute_operations`. */
    method ExecuteOperations(ops: seq<Operation>) returns (success: bool, report: Report)
      modifies fs
      ensures fs.readOnly == old(fs.readOnly)
      ensures (fs.files, report) == Executed(old(fs.files), fs.readOnly, ops)
      ensures success <==> report.errors == []
    {
      report := Report([], []);
      for i := 0 to |ops|
        invariant fs.readOnly == old(fs.readOnly)
        invariant (fs.files, report) == Executed(old(fs.files), fs.readOnly, ops[..i])
      {
        assert ops[..i + 1][..i] == ops[..i];
        var op := ops[i];
        if IsUnknown(op) {
          report := report.(errors := report.errors + ["Unknown action: " + ActionText(op.action)]);
        } else if op.content.None? {
          report := report.(errors := report.errors + ["Error processing " + op.file + ": 'content'"]);
        } else {
          var ok;
          if op.action == Some("append") {
            ok := AppendToFile(op.file, op.content.value);
          } else {
            ok := fs.Write(op.file, op.content.value);
          }
          if ok {
            report := report.(written := report.written + [op.file]);
          } else {
            var verb := if op.action == Some("create") then "create" else if op.action == Some("overwrite") then "overwrite" else "append to";
            report := report.(errors := report.errors + ["Failed to " + verb + " " + op.file]);
          }
        }
      }
      assert ops[..|ops|] == ops;
      success := report.errors == [];
    }
  }
}
