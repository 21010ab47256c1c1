/**
 * The smart editor: one targeted edit of one file, described by a request with an
 * operation, a marker or a text to find, and the content.
 *   - `create` writes the content.
 *   - `insert_after` and `insert_before` put the content, as a line of its own, after or
 *     before the first line that contains the marker.
 *   - `replace` replaces the first occurrence of the text to find.
 *   - `append` and `prepend` add the content at the end or at the start.
 * Any error (a missing file, a missing key of the request, a refused write) makes the
 * edit fail with the error's text. A backup taken before an edit restores the file.
 *
 * The filesystem is `Files.FileSystem`. Python's messages for a missing file and for a
 * refused write are written out for error numbers 2 and 13.
 */
module SmartEditor {
  import opened Wrappers
  import opened Strings
  import opened Lists
  import Files

  /** The request: each key of the source's dictionary, `None` when absent. */
  datatype Request = Request(operation: Option<string>, marker: Option<string>, find: Option<string>, content: Option<string>)

  /** The `{"success": ..., "message": ...}` reply. */
  datatype Reply = Reply(success: bool, message: string)

  function Failed(reason: string): Reply
  {
    Reply(false, "Edit failed: " + reason)
  }

  function NoSuchFile(path: string): string
  {
    "[Errno 2] No such file or directory: '" + path + "'"
  }

  function Denied(path: string): string
  {
    "[Errno 13] Permission denied: '" + path + "'"
  }

  /** The text of a `KeyError`. */
  function MissingKey(key: string): string
  {
    "'" + key + "'"
  }

  /** The content with a newline added unless it already ends with one. */
  function Terminated(s: string): (r: string)
    ensures |s| <= |r| <= |s| + 1 && r[..|s|] == s && EndsWith(r, "\n")
    ensures EndsWith(s, "\n") ==> r == s
  {
    if EndsWith(s, "\n") then s else s + "\n"
  }

  /** The index of the first line containing the marker, or -1. */
  function FirstMarked(lines: seq<string>, marker: string): (r: int)
    ensures -1 <= r < |lines|
    ensures r >= 0 ==> Contains(lines[r], marker)
    ensures forall j :: 0 <= j < |lines| && (r < 0 || j < r) ==> !Contains(lines[j], marker)
  {
    if lines == [] then -1
    else if Contains(lines[0], marker) then 0
    else
      var k := FirstMarked(lines[1..], marker);
      assert forall j :: 1 <= j < |lines| ==> lines[j] == lines[1..][j - 1];
      if k < 0 then -1 else k + 1
  }

  /**
   * `_insert_after` as written: the content goes into the list of lines right after the
   * first marked line. When that line is the last one and has no newline, the content is
   * glued to it.
   */
  function InsertAfterTextAsWritten(text: string, marker: string, content: string): (r: Option<string>)
    ensures r.None? <==> forall j :: 0 <= j < |ReadLines(text)| ==> !Contains(ReadLines(text)[j], marker)
  {
    var lines := ReadLines(text);
    var i := FirstMarked(lines, marker);
    if i < 0 then None else Some(Concat(InsertAt(lines, i + 1, Terminated(content))))
  }

  /**
   * `_insert_after` as intended: the marked line is ended with a newline if it lacks one,
   * and the content follows it as a line of its own.
   */
  function InsertAfterText(text: string, marker: string, content: string): (r: Option<string>)
    ensures r.None? <==> forall j :: 0 <= j < |ReadLines(text)| ==> !Contains(ReadLines(text)[j], marker)
  {
    var lines := ReadLines(text);
    var i := FirstMarked(lines, marker);
    if i < 0 then None
    else
      var ended := lines[..i] + [Terminated(lines[i])] + lines[i + 1..];
      Some(Concat(InsertAt(ended, i + 1, Terminated(content))))
  }

  /** `_insert_before`: the content, as a line of its own, goes right before the first marked line. */
  function InsertBeforeText(text: string, marker: string, content: string): (r: Option<string>)
    ensures r.None? <==> forall j :: 0 <= j < |ReadLines(text)| ==> !Contains(ReadLines(text)[j], marker)
  {
    var lines := ReadLines(text);
    var i := FirstMarked(lines, marker);
    if i < 0 then None else Some(Concat(InsertAt(lines, i, Terminated(content))))
  }

  /** Inserting into a list of strings inserts into their concatenation. */
  lemma ConcatInsertAt(parts: seq<string>, p: int, t: string)
    requires 0 <= p <= |parts|
    ensures Concat(InsertAt(parts, p, t)) == Concat(parts[..p]) + t + Concat(parts[p..])
  {
    var u := InsertAt(parts, p, t);
    ConcatSplitAt(u, p);
    assert u[..p] == parts[..p];
    assert u[p..] == [t] + parts[p..];
    ConcatAppend([t], parts[p..]);
    assert Concat([t]) == t + Concat([]);
  }

  /** The text of the lines up to line `i` is the text before line `i`, then line `i`. */
  lemma ConcatThrough(parts: seq<string>, i: int)
    requires 0 <= i < |parts|
    ensures Concat(parts[..i + 1]) == Concat(parts[..i]) + parts[i]
  {
    assert parts[..i + 1] == parts[..i] + [parts[i]];
    ConcatAppend(parts[..i], [parts[i]]);
    assert Concat([parts[i]]) == parts[i] + Concat([]);
  }

  lemma TerminatedAfter(a: string, b: string)
    requires |b| > 0
    ensures Terminated(a + b) == a + Terminated(b)
  {
    assert (a + b)[|a + b| - 1..] == b[|b| - 1..];
  }

  /**
   * Where the content goes: right after the end of the first line that contains the marker,
   * on a line of its own. The text before it is the file up to the end of that line, with a
   * newline added when that line had none; the rest of the file follows unchanged.
   */
  lemma InsertAfterPlacement(text: string, marker: string, content: string)
    requires FirstMarked(ReadLines(text), marker) >= 0
    ensures var lines := ReadLines(text);
      var i := FirstMarked(lines, marker);
      var cut := |Concat(lines[..i + 1])|;
      cut <= |text| && Contains(lines[i], marker) &&
      InsertAfterText(text, marker, content) == Some(Terminated(text[..cut]) + Terminated(content) + text[cut..])
  {
    var lines := ReadLines(text);
    var i := FirstMarked(lines, marker);
    var ended := lines[..i] + [Terminated(lines[i])] + lines[i + 1..];
    assert InsertAfterText(text, marker, content) == Some(Concat(InsertAt(ended, i + 1, Terminated(content))));
    PlacementSplices(text, lines, i, content);
  }

  /** The spliced lines of `InsertAfterText` read as the text cut after line `i`, with the content between. */
  lemma PlacementSplices(text: string, lines: seq<string>, i: int, content: string)
    requires lines == ReadLines(text) && 0 <= i < |lines|
    ensures var cut := |Concat(lines[..i + 1])|;
      var ended := lines[..i] + [Terminated(lines[i])] + lines[i + 1..];
      cut <= |text| &&
      Concat(InsertAt(ended, i + 1, Terminated(content))) == Terminated(text[..cut]) + Terminated(content) + text[cut..]
  {
    var head := Concat(lines[..i]);
    CutAfterLine(text, lines, i);
    EndedSplices(lines, i, Terminated(content));
    TerminatedAfter(head, lines[i]);
  }

  /** Cutting the text after line `i` leaves the lines before it and line `i`, then the lines after it. */
  lemma CutAfterLine(text: string, lines: seq<string>, i: int)
    requires Concat(lines) == text && 0 <= i < |lines|
    ensures var cut := |Concat(lines[..i + 1])|;
      cut <= |text| && text[..cut] == Concat(lines[..i]) + lines[i] && text[cut..] == Concat(lines[i + 1..])
  {
    ConcatSplitAt(lines, i + 1);
    ConcatThrough(lines, i);
  }

  /** Ending line `i` and inserting `t` after it, read as one text. */
  lemma EndedSplices(lines: seq<string>, i: int, t: string)
    requires 0 <= i < |lines|
    ensures var ended := lines[..i] + [Terminated(lines[i])] + lines[i + 1..];
      Concat(InsertAt(ended, i + 1, t)) == Concat(lines[..i]) + Terminated(lines[i]) + t + Concat(lines[i + 1..])
  {
    var ended := lines[..i] + [Terminated(lines[i])] + lines[i + 1..];
    ConcatInsertAt(ended, i + 1, t);
    assert ended[..i + 1] == lines[..i] + [Terminated(lines[i])];
    assert ended[i + 1..] == lines[i + 1..];
    ConcatAppend(lines[..i], [Terminated(lines[i])]);
    assert Concat([Terminated(lines[i])]) == Terminated(lines[i]) + Concat([]);
  }

  /** The file "abc" is one line without a newline, and it contains "b". */
  lemma OneUnterminatedLine()
    ensures ReadLines("abc") == ["abc"] && FirstMarked(["abc"], "b") == 0
    ensures Terminated("X") == "X\n" && Terminated("abc") == "abc\n"
  {
    SampleLine("abc");
    SampleMarked("abc");
    SampleTerminated("X");
    SampleTerminated("abc");
  }

  lemma SampleLine(text: string)
    requires text == "abc"
    ensures ReadLines(text) == [text]
  {
    NotContainsChar(text, '\n');
    assert Find(text, "\n") < 0;
  }

  lemma SampleMarked(text: string)
    requires text == "abc"
    ensures FirstMarked([text], "b") == 0
  {
    assert OccursAt(text, "b", 1);
  }

  lemma SampleTerminated(text: string)
    requires text == "X" || text == "abc"
    ensures Terminated(text) == text + "\n"
  {
    assert !EndsWith(text, "\n") by {
      assert text[|text| - 1] != '\n';
    }
  }

  /** As written, content inserted after the last line of a file without a final newline joins that line. */
  lemma InsertAfterGlues()
    ensures InsertAfterTextAsWritten("abc", "b", "X") == Some("abcX\n")
  {
    var text := "abc";
    OneUnterminatedLine();
    assert InsertAfterTextAsWritten(text, "b", "X") == Some(Concat(InsertAt([text], 1, "X\n")));
    calc {
      Concat(InsertAt([text], 1, "X\n"));
      { assert InsertAt([text], 1, "X\n") == [text, "X\n"]; }
      Concat([text, "X\n"]);
      { assert [text, "X\n"][1..] == ["X\n"]; }
      text + Concat(["X\n"]);
      { assert Concat(["X\n"]) == "X\n" + Concat([]); }
      text + "X\n";
      "abcX\n";
    }
  }

  /** The intended insertion keeps the marked line whole and puts the content on the next line. */
  lemma InsertAfterKeepsLine()
    ensures InsertAfterText("abc", "b", "X") == Some("abc\nX\n")
  {
    var text := "abc";
    OneUnterminatedLine();
    InsertAfterPlacement(text, "b", "X");
    assert [text][..1] == [text];
    assert Concat([text]) == text + Concat([]);
    assert text[..3] == text && text[3..] == [];
    assert Terminated(text[..3]) + Terminated("X") + text[3..] == "abc\nX\n";
  }

  /** When every part but the last ends with a newline, the text of the first `i` parts ends with one. */
  lemma ConcatEndsWithNewline(parts: seq<string>, i: int)
    requires 0 < i < |parts|
    requires forall j :: 0 <= j < |parts| ==> |parts[j]| > 0
    requires forall j :: 0 <= j < |parts| - 1 ==> parts[j][|parts[j]| - 1] == '\n'
    ensures var c := Concat(parts[..i]); |c| > 0 && c[|c| - 1] == '\n'
  {
    ConcatThrough(parts, i - 1);
    var prev := parts[i - 1];
    assert prev[|prev| - 1] == '\n';
  }

  /**
   * Where `_insert_before` puts the content: right at the start of the first line that
   * contains the marker, which is the start of the file or follows a newline.
   */
  lemma InsertBeforePlacement(text: string, marker: string, content: string)
    requires FirstMarked(ReadLines(text), marker) >= 0
    ensures var lines := ReadLines(text);
      var i := FirstMarked(lines, marker);
      var cut := |Concat(lines[..i])|;
      cut <= |text| && (cut == 0 || text[cut - 1] == '\n') && Contains(lines[i], marker) &&
      InsertBeforeText(text, marker, content) == Some(text[..cut] + Terminated(content) + text[cut..])
  {
    var lines := ReadLines(text);
    var i := FirstMarked(lines, marker);
    var t := Terminated(content);
    ConcatInsertAt(lines, i, t);
    ConcatSplitAt(lines, i);
    var cut := |Concat(lines[..i])|;
    assert text == Concat(lines[..i]) + Concat(lines[i..]);
    assert text[..cut] == Concat(lines[..i]);
    assert text[cut..] == Concat(lines[i..]);
    if i > 0 {
      ConcatEndsWithNewline(lines, i);
    }
  }

  /** `_append`'s new text: a missing file is created, and the content is put after a newline. */
  function AppendText(current: Option<string>, content: string): (r: string)
    ensures var old_ := current.GetOr("");
      |r| >= |old_| + 1 && r[..|old_|] == old_ && r[|old_|] == '\n' && EndsWith(r, content)
  {
    current.GetOr("") + (if StartsWith(content, "\n") then content else "\n" + content)
  }

  /** `_prepend`'s new text: the content as a line of its own, then the old text. */
  function PrependText(existing: string, content: string): (r: string)
    ensures |r| > |existing| && EndsWith(r, existing) && StartsWith(r, content) && r[|r| - |existing| - 1] == '\n'
  {
    Terminated(content) + existing
  }

  /** A write of `text`, with the reply for success, or the permission error for a read-only path. */
  function Wrote(files: map<string, string>, readOnly: set<string>, path: string, text: string, done: Reply): (map<string, string>, Reply)
  {
    if path in readOnly then (files, Failed(Denied(path))) else (files[path := text], done)
  }

  /** `_insert_after` and `_insert_before` (`after` tells which). */
  function Inserted(files: map<string, string>, readOnly: set<string>, path: string, req: Request, after: bool): (map<string, string>, Reply)
  {
    if path !in files then (files, Failed(NoSuchFile(path)))
    else if req.marker.None? then (files, Failed(MissingKey("marker")))
    else if req.content.None? then (files, Failed(MissingKey("content")))
    else
      var m := req.marker.value;
      var r := if after then InsertAfterText(files[path], m, req.content.value)
               else InsertBeforeText(files[path], m, req.content.value);
      if r.None? then (files, Reply(false, "Marker not found: " + m))
      else Wrote(files, readOnly, path, r.value, Reply(true, (if after then "Inserted after '" else "Inserted before '") + m + "'"))
  }

  function Replaced(files: map<string, string>, readOnly: set<string>, path: string, req: Request): (map<string, string>, Reply)
  {
    if path !in files then (files, Failed(NoSuchFile(path)))
    else if req.find.None? then (files, Failed(MissingKey("find")))
    else if req.content.None? then (files, Failed(MissingKey("content")))
    else if !Contains(files[path], req.find.value) then
      (files, Reply(false, "Code to replace not found: " + Take(req.find.value, 50) + "..."))
    else Wrote(files, readOnly, path, ReplaceFirst(files[path], req.find.value, req.content.value), Reply(true, "Replaced code section"))
  }

  function OperationText(op: Option<string>): string
  {
    if op.Some? then op.value else "None"
  }

  /** `apply_edit`: the new files and the reply. */
  function Applied(files: map<string, string>, readOnly: set<string>, path: string, req: Request): (map<string, string>, Reply)
  {
    var op := req.operation;
    if op == Some("create") then
      // the file is opened for writing, and so emptied, before the content is looked up
      if path in readOnly then (files, Failed(Denied(path)))
      else if req.content.None? then (files[path := ""], Failed(MissingKey("content")))
      else (files[path := req.content.value], Reply(true, "Created " + path))
    else if op == Some("insert_after") then Inserted(files, readOnly, path, req, true)
    else if op == Some("insert_before") then Inserted(files, readOnly, path, req, false)
    else if op == Some("replace") then Replaced(files, readOnly, path, req)
    else if op == Some("append") then
      if req.content.None? then (files, Failed(MissingKey("content")))
      else
        var current := if path in files then Some(files[path]) else None;
        Wrote(files, readOnly, path, AppendText(current, req.content.value), Reply(true, "Appended to end of file"))
    else if op == Some("prepend") then
      if path !in files then (files, Failed(NoSuchFile(path)))
      else if req.content.None? then (files, Failed(MissingKey("content")))
      else Wrote(files, readOnly, path, PrependText(files[path], req.content.value), Reply(true, "Prepended to start of file"))
    else (files, Reply(false, "Unknown operation: " + OperationText(op)))
  }

  const Operations := ["create", "insert_after", "insert_before", "replace", "append", "prepend"]

  lemma InsertedTouchesOnlyPath(files: map<string, string>, readOnly: set<string>, path: string, req: Request, after: bool)
    ensures var r := Inserted(files, readOnly, path, req, after);
      (r.0 == files || (path in r.0 && r.0 == files[path := r.0[path]])) && (path in readOnly ==> r.0 == files) &&
      (!r.1.success ==> r.0 == files) && (r.1.success ==> path !in readOnly && path in r.0)
  {
    if path in files && req.marker.Some? && req.content.Some? {
      var m := req.marker.value;
      var t := if after then InsertAfterText(files[path], m, req.content.value)
               else InsertBeforeText(files[path], m, req.content.value);
      if t.Some? {
        var w := Wrote(files, readOnly, path, t.value, Reply(true, (if after then "Inserted after '" else "Inserted before '") + m + "'"));
        assert Inserted(files, readOnly, path, req, after) == w;
        assert w.0 == files || w.0 == files[path := t.value];
      }
    }
  }

  lemma ReplacedTouchesOnlyPath(files: map<string, string>, readOnly: set<string>, path: string, req: Request)
    ensures var r := Replaced(files, readOnly, path, req);
      (r.0 == files || (path in r.0 && r.0 == files[path := r.0[path]])) && (path in readOnly ==> r.0 == files)
  {
    if path in files && req.find.Some? && req.content.Some? && Contains(files[path], req.find.value) {
      var w := Wrote(files, readOnly, path, ReplaceFirst(files[path], req.find.value, req.content.value), Reply(true, "Replaced code section"));
      assert w.0 == files || w.0 == files[path := ReplaceFirst(files[path], req.find.value, req.content.value)];
    }
  }

  /** An edit changes at most the file it names, and never a file whose writes fail. */
  lemma AppliedTouchesOnlyPath(files: map<string, string>, readOnly: set<string>, path: string, req: Request)
    ensures var r := Applied(files, readOnly, path, req);
      (r.0 == files || (path in r.0 && r.0 == files[path := r.0[path]])) &&
      (path in readOnly ==> r.0 == files)
  {
    var op := req.operation;
    if op == Some("insert_after") || op == Some("insert_before") {
      InsertedTouchesOnlyPath(files, readOnly, path, req, op == Some("insert_after"));
    } else if op == Some("replace") {
      ReplacedTouchesOnlyPath(files, readOnly, path, req);
    } else if op == Some("create") || op == Some("append") || op == Some("prepend") {
      var r := Applied(files, readOnly, path, req);
      assert r.0 == files || r.0 == files[path := r.0[path]];
    } else {
      assert Applied(files, readOnly, path, req).0 == files;
    }
  }

  /**
   * A failed edit leaves the files as they were, except a `create` without content, which
   * has already emptied the file; an edit that succeeds has written its file.
   */
  lemma AppliedFailureKeepsFiles(files: map<string, string>, readOnly: set<string>, path: string, req: Request)
    ensures var r := Applied(files, readOnly, path, req);
      (!r.1.success ==> r.0 == files || (req.operation == Some("create") && req.content.None? && r.0 == files[path := ""])) &&
      (r.1.success ==> path !in readOnly && path in r.0)
  {
    var op := req.operation;
    if op == Some("insert_after") || op == Some("insert_before") {
      InsertedTouchesOnlyPath(files, readOnly, path, req, op == Some("insert_after"));
    } else if op == Some("replace") {
      ReplacedKeepsOnFailure(files, readOnly, path, req);
    }
  }

  lemma ReplacedKeepsOnFailure(files: map<string, string>, readOnly: set<string>, path: string, req: Request)
    ensures var r := Replaced(files, readOnly, path, req);
      (!r.1.success ==> r.0 == files) && (r.1.success ==> path !in readOnly && path in r.0)
  {
  }

  /** Any operation but the six is refused with its name and changes nothing. */
  lemma UnknownOperation(files: map<string, string>, readOnly: set<string>, path: string, req: Request)
    requires req.operation.None? || req.operation.value !in Operations
    ensures Applied(files, readOnly, path, req) == (files, Reply(false, "Unknown operation: " + OperationText(req.operation)))
  {
  }

  /** Every operation but `create` and `append` fails on a missing file, with Python's message. */
  lemma MissingFile(files: map<string, string>, readOnly: set<string>, path: string, req: Request)
    requires path !in files && req.operation.Some? && req.operation.value in Operations[1..4] + [Operations[5]]
    ensures Applied(files, readOnly, path, req) == (files, Failed(NoSuchFile(path)))
  {
  }

  /** `backup_file`: the contents, or `None` for a missing file. */
  function Backup(files: map<string, string>, path: string): Option<string>
  {
    if path in files then Some(files[path]) else None
  }

  /** `restore_backup`: the new files, and `false` when the write raised. */
  function Restored(files: map<string, string>, readOnly: set<string>, path: string, backup: Option<string>): (map<string, string>, bool)
  {
    match backup
    case Some(c) => if path in readOnly then (files, false) else (files[path := c], true)
    case None => (files - {path}, true)
  }

  /**
   * Restoring a backup gives the file back as it was when the backup was taken, or removes
   * it when it did not exist then, whatever happened to it in between; other files are
   * left as they are.
   */
  lemma BackupRestores(before: map<string, string>, after: map<string, string>, readOnly: set<string>, path: string)
    ensures var r := Restored(after, readOnly, path, Backup(before, path));
      r.1 ==> (path in r.0 <==> path in before) && (path in before ==> r.0[path] == before[path]) &&
              forall q :: q != path ==> (q in r.0 <==> q in after) && (q in after ==> r.0[q] == after[q])
    ensures path !in before ==> Restored(after, readOnly, path, Backup(before, path)).1
  {
  }

  /** `_insert_after`/`_insert_before`: the loop that looks for the first line with the marker. */
  method Insert(fs: Files.FileSystem, path: string, req: Request, after: bool) returns (reply: Reply)
    modifies fs
    ensures fs.readOnly == old(fs.readOnly)
    ensures (fs.files, reply) == Inserted(old(fs.files), fs.readOnly, path, req, after)
  {
    var current := fs.Read(path);
    if current.None? {
      return Failed(NoSuchFile(path));
    }
    if req.marker.None? {
      return Failed(MissingKey("marker"));
    }
    if req.content.None? {
      return Failed(MissingKey("content"));
    }
    var lines := ReadLines(current.value);
    var marker, content := req.marker.value, Terminated(req.content.value);
    var i := 0;
    while i < |lines| && !Contains(lines[i], marker)
      invariant 0 <= i <= |lines|
      invariant forall j :: 0 <= j < i ==> !Contains(lines[j], marker)
    {
      i := i + 1;
    }
    if i == |lines| {
      return Reply(false, "Marker not found: " + marker);
    }
    assert i == FirstMarked(lines, marker);
    if after {
      lines := lines[..i] + [Terminated(lines[i])] + lines[i + 1..];
      lines := InsertAt(lines, i + 1, content);
    } else {
      lines := InsertAt(lines, i, content);
    }
    var ok := fs.Write(path, Concat(lines));
    reply := if !ok then Failed(Denied(path))
             else Reply(true, (if after then "Inserted after '" else "Inserted before '") + marker + "'");
  }

  /** A write whose reply is `done`, or the permission error. */
  method Write(fs: Files.FileSystem, path: string, text: string, done: Reply) returns (reply: Reply)
    modifies fs
    ensures fs.readOnly == old(fs.readOnly)
    ensures (fs.files, reply) == Wrote(old(fs.files), fs.readOnly, path, text, done)
  {
    var ok := fs.Write(path, text);
    reply := if ok then done else Failed(Denied(path));
  }

  /** `apply_edit`. */
  method ApplyEdit(fs: Files.FileSystem, path: string, req: Request) returns (reply: Reply)
    modifies fs
    ensures fs.readOnly == old(fs.readOnly)
    ensures (fs.files, reply) == Applied(old(fs.files), fs.readOnly, path, req)
  {
    var op := req.operation;
    var current := fs.Read(path);
    if op == Some("create") {
      var ok := fs.Write(path, "");
      if !ok {
        return Failed(Denied(path));
      }
      if req.content.None? {
        return Failed(MissingKey("content"));
      }
      ok := fs.Write(path, req.content.value);
      assert fs.files == old(fs.files)[path := req.content.value];
      reply := Reply(true, "Created " + path);
    } else if op == Some("insert_after") {
      reply := Insert(fs, path, req, true);
    } else if op == Some("insert_before") {
      reply := Insert(fs, path, req, false);
    } else if op == Some("replace") {
      if current.None? {
        return Failed(NoSuchFile(path));
      } else if req.find.None? {
        return Failed(MissingKey("find"));
      } else if req.content.None? {
        return Failed(MissingKey("content"));
      } else if !Contains(current.value, req.find.value) {
        return Reply(false, "Code to replace not found: " + Take(req.find.value, 50) + "...");
      }
      reply := Write(fs, path, ReplaceFirst(current.value, req.find.value, req.content.value), Reply(true, "Replaced code section"));
    } else if op == Some("append") {
      if req.content.None? {
        return Failed(MissingKey("content"));
      }
      reply := Write(fs, path, AppendText(current, req.content.value), Reply(true, "Appended to end of file"));
    } else if op == Some("prepend") {
      if current.None? {
        return Failed(NoSuchFile(path));
      } else if req.content.None? {
        return Failed(MissingKey("content"));
      }
      reply := Write(fs, path, PrependText(current.value, req.content.value), Reply(true, "Prepended to start of file"));
    } else {
      reply := Reply(false, "Unknown operation: " + OperationText(op));
    }
  }

  method BackupFile(fs: Files.FileSystem, path: string) returns (backup: Option<string>)
    ensures backup == Backup(fs.files, path)
  {
    backup := fs.Read(path);
  }

  /** `restore_backup`; `ok` is false when the write raised. */
  method RestoreBackup(fs: Files.FileSystem, path: string, backup: Option<string>) returns (ok: bool)
    modifies fs
    ensures fs.readOnly == old(fs.readOnly)
    ensures (fs.files, ok) == Restored(old(fs.files), fs.readOnly, path, backup)
  {
    match backup
    case Some(c) =>
      ok := fs.Write(path, c);
    case None =>
      ok := true;
      if fs.Exists(path) {
        fs.Delete(path);
      } else {
        assert fs.files - {path} == fs.files;
      }
  }
}
