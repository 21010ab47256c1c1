/**
 * The file extractor: from the text of an understanding phase it gathers the file
 * paths three patterns find, drops the false positives, and keeps at most ten.
 *
 * The regular-expression search itself is not modelled: each pattern's matches are a
 * parameter. The model computes which text the third pattern scans (the window after
 * "files to modify") and everything done with the matches afterwards.
 */
module FileExtractor {
  import opened Wrappers
  import opened Strings
  import opened Lists

  /** At most this many paths are returned. */
  const MaxFiles := 10

  /** The third pattern scans this many characters from the section's start. */
  const SectionLength := 500

  /** The window the "files to modify" pattern scans, when the phrase occurs in any case. */
  function Section(text: string): (r: Option<string>)
    ensures r.Some? <==> Contains(Lower(text), "files to modify")
    ensures r.Some? ==> |r.value| <= SectionLength
  {
    if Contains(Lower(text), "files to modify") then
      var k := Find(Lower(text), "files to modify");
      Some(text[k..if k + SectionLength < |text| then k + SectionLength else |text|])
    else None
  }

  /**
   * The window starts at the first case-insensitive occurrence of the phrase, holds the
   * phrase and runs for 500 characters or to the end of the text.
   */
  lemma SectionWindow(text: string)
    requires Section(text).Some?
    ensures var k := Find(Lower(text), "files to modify");
      0 <= k && k + |Section(text).value| <= |text| && Section(text).value == text[k..k + |Section(text).value|]
      && StartsWith(Lower(Section(text).value), "files to modify")
      && (forall j :: 0 <= j < k ==> !OccursAt(Lower(text), "files to modify", j))
      && |Section(text).value| == (if k + SectionLength < |text| then SectionLength else |text| - k)
  {
    var k := Find(Lower(text), "files to modify");
    var s := Section(text).value;
    assert Lower(text)[k..k + 15] == "files to modify";
    assert Lower(s)[..15] == Lower(text)[k..k + 15];
  }

  /** A path is kept unless it is under node_modules, dist/ or build/, or is shorter than five characters. */
  predicate Keep(path: string)
  {
    !(Contains(path, "node_modules") || Contains(path, "dist/") || Contains(path, "build/")) && |path| >= 5
  }

  function Elements(s: seq<string>): set<string>
  {
    set x | x in s
  }

  /** Every path a pattern found; the third pattern's only when the section exists. */
  function Candidates(text: string, modifyMatches: seq<string>, pathMatches: seq<string>, sectionMatches: seq<string>): set<string>
  {
    Elements(modifyMatches) + Elements(pathMatches) + (if Section(text).Some? then Elements(sectionMatches) else {})
  }

  function Filtered(files: set<string>): set<string>
  {
    set p | p in files && Keep(p)
  }

  /**
   * `extract_files_from_understanding`. The paths come out in no particular order (the
   * source goes through a set twice), so the result is any ten of the kept candidates,
   * or all of them when there are at most ten.
   */
  method ExtractFiles(text: string, modifyMatches: seq<string>, pathMatches: seq<string>, sectionMatches: seq<string>)
    returns (r: seq<string>)
    ensures NoDuplicates(r)
    ensures forall p :: p in r ==> p in Candidates(text, modifyMatches, pathMatches, sectionMatches) && Keep(p)
    ensures var kept := |Filtered(Candidates(text, modifyMatches, pathMatches, sectionMatches))|;
      |r| == if kept < MaxFiles then kept else MaxFiles
    ensures |Filtered(Candidates(text, modifyMatches, pathMatches, sectionMatches))| <= MaxFiles ==>
      Elements(r) == Filtered(Candidates(text, modifyMatches, pathMatches, sectionMatches))
  {
    var files: set<string> := {};
    files := files + Elements(modifyMatches);
    files := files + Elements(pathMatches);
    if Contains(Lower(text), "files to modify") {
      files := files + Elements(sectionMatches);
    }
    assert files == Candidates(text, modifyMatches, pathMatches, sectionMatches);
    var filtered := FilterPaths(files);
    NoDuplicatesCardinality(filtered);
    r := Take(filtered, MaxFiles);
    forall p | p in r
      ensures p in Elements(filtered)
    {
      var i :| 0 <= i < |r| && r[i] == p;
      assert filtered[i] == p;
    }
    if |Filtered(files)| <= MaxFiles {
      AllKeptWhenFew(r, files);
    }
  }

  /** The false-positive filter: each candidate once, in no particular order, if it is kept. */
  method FilterPaths(files: set<string>) returns (filtered: seq<string>)
    ensures NoDuplicates(filtered)
    ensures Elements(filtered) == Filtered(files)
  {
    filtered := [];
    var rest := files;
    while rest != {}
      invariant rest <= files
      invariant NoDuplicates(filtered)
      invariant forall p :: p in filtered <==> p in files - rest && Keep(p)
      decreases |rest|
    {
      var p :| p in rest;
      rest := rest - {p};
      if Keep(p) {
        filtered := filtered + [p];
      }
    }
  }

  /** When at most ten paths survive the filter, every one of them is returned. */
  lemma AllKeptWhenFew(r: seq<string>, files: set<string>)
    requires NoDuplicates(r) && (forall p :: p in r ==> p in Filtered(files))
    requires |r| == |Filtered(files)|
    ensures Elements(r) == Filtered(files)
  {
    NoDuplicatesCardinality(r);
    SubsetOfSameSize(Elements(r), Filtered(files));
  }

  lemma {:induction false} SubsetOfSameSize(a: set<string>, b: set<string>)
    requires a <= b && |a| == |b|
    ensures a == b
    decreases |a|
  {
    if a != {} {
      var x :| x in a;
      SubsetOfSameSize(a - {x}, b - {x});
      assert a == (a - {x}) + {x} && b == (b - {x}) + {x};
    }
  }
}
