/**
 * The project knowledge graph: components (one per source file) with paired
 * `depends_on` / `used_by` edges derived from their imports, a path-based type
 * classifier, and direct or transitive dependency queries.
 */
module KnowledgeGraph {
  import opened Wrappers
  import opened Strings
  import Lists

  datatype Component = Component(
    componentId: string,
    name: string,
    path: string,
    componentType: string,
    status: string,
    completionPercentage: real,
    dependsOn: seq<string>,
    usedBy: seq<string>,
    imports: seq<string>,
    exports: seq<string>,
    fileSize: int,
    linesOfCode: int,
    lastModified: real,
    description: string,
    tags: seq<string>)

  // ---------------------------------------------------------------------------
  // Paths

  /** The path fragments that exclude a file from analysis. */
  const IgnorePatterns: seq<string> :=
    ["node_modules", ".git", "dist", "build", ".next", "coverage", ".cache", "tmp", "temp",
     ".venv", "venv", "__pycache__", ".pytest_cache", ".mypy_cache"]

  /** `any(w in s for w in words)`. */
  predicate HasAny(s: string, words: seq<string>)
  {
    exists i :: 0 <= i < |words| && Contains(s, words[i])
  }

  /** The source suffixes, in the order the tree is searched for them. */
  const SourceExtensions: seq<string> := [".tsx", ".ts", ".jsx", ".js", ".py"]

  /** The files of `tree` (relative paths, in directory order) that end in one of `exts`, grouped by suffix. */
  function SourceFiles(tree: seq<string>, exts: seq<string>): (r: seq<string>)
    ensures forall f :: f in r <==> f in tree && exists i :: 0 <= i < |exts| && EndsWith(f, exts[i])
    decreases |exts|
  {
    if exts == [] then []
    else
      var here := Lists.Where(tree, f => EndsWith(f, exts[0]));
      var rest := SourceFiles(tree, exts[1..]);
      assert forall f :: (exists i :: 0 <= i < |exts| && EndsWith(f, exts[i])) <==>
        EndsWith(f, exts[0]) || exists i :: 0 <= i < |exts[1..]| && EndsWith(f, exts[1..][i]) by {
        forall f ensures (exists i :: 0 <= i < |exts| && EndsWith(f, exts[i])) <==>
          EndsWith(f, exts[0]) || exists i :: 0 <= i < |exts[1..]| && EndsWith(f, exts[1..][i]) {
          if i :| 0 <= i < |exts| && EndsWith(f, exts[i]) {
            if i > 0 { assert exts[1..][i - 1] == exts[i]; }
          }
          if i :| 0 <= i < |exts[1..]| && EndsWith(f, exts[1..][i]) {
            assert exts[i + 1] == exts[1..][i];
          }
        }
      }
      here + rest
  }

  /** The full path of a file found under `root`, as the tree search reports it. */
  function FullPath(root: string, relativePath: string): string
  {
    root + "/" + relativePath
  }

  /**
   * The ignore filter of `build_from_codebase` as written: the patterns are looked for
   * in the full path, project directory included.
   */
  function FilterAsWritten(root: string, files: seq<string>): (r: seq<string>)
    ensures forall f :: f in r <==> f in files && !HasAny(FullPath(root, f), IgnorePatterns)
  {
    Lists.Where(files, f => !HasAny(FullPath(root, f), IgnorePatterns))
  }

  /** A project kept under a directory such as `/tmp` loses every file to the filter. */
  lemma FilterAsWrittenDropsWholeProject()
    ensures FilterAsWritten("/tmp/app", ["src/App.tsx"]) == []
  {
    var p := FullPath("/tmp/app", "src/App.tsx");
    assert OccursAt(p, "tmp", 1);
    ContainsIff(p, "tmp");
    assert IgnorePatterns[7] == "tmp";
    assert HasAny(p, IgnorePatterns);
  }

  /** The ignore filter as intended: the patterns are looked for in the project-relative path only. */
  function Filter(files: seq<string>): (r: seq<string>)
    ensures forall f :: f in r <==> f in files && !HasAny(f, IgnorePatterns)
  {
    Lists.Where(files, f => !HasAny(f, IgnorePatterns))
  }

  /** `str.replace` for a one-character pattern. */
  function ReplaceChar(s: string, a: char, b: char): (r: string)
    ensures |r| == |s|
    ensures forall i :: 0 <= i < |s| ==> r[i] == (if s[i] == a then b else s[i])
  {
    seq(|s|, i requires 0 <= i < |s| => if s[i] == a then b else s[i])
  }

  /** The component id of a file: its relative path with both kinds of separator turned into `_`. */
  function ComponentId(relativePath: string): (id: string)
    ensures |id| == |relativePath|
    ensures forall i :: 0 <= i < |id| ==> id[i] != '/' && id[i] != '\\'
    ensures forall i :: 0 <= i < |id| && relativePath[i] != '/' && relativePath[i] != '\\' ==> id[i] == relativePath[i]
  {
    ReplaceChar(ReplaceChar(relativePath, '/', '_'), '\\', '_')
  }

  /** The last `/`-separated segment of a path. */
  function LastSegment(path: string): (r: string)
    ensures !Contains(r, "/")
    ensures EndsWith(path, r)
  {
    var parts := Split(path, "/");
    JoinEndsWithLast(parts, "/");
    parts[|parts| - 1]
  }

  lemma {:induction false} JoinEndsWithLast(parts: seq<string>, sep: string)
    requires |parts| > 0
    ensures EndsWith(Join(parts, sep), parts[|parts| - 1])
  {
    if |parts| > 1 {
      JoinEndsWithLast(parts[1..], sep);
      assert parts[1..][|parts[1..]| - 1] == parts[|parts| - 1];
      var rest := Join(parts[1..], sep);
      assert Join(parts, sep) == parts[0] + sep + rest;
      var last := parts[|parts| - 1];
      assert rest[|rest| - |last|..] == last;
      assert (parts[0] + sep + rest)[|parts[0] + sep + rest| - |last|..] == rest[|rest| - |last|..];
    }
  }

  /** The index of the last `.` in `s`, or -1. */
  function LastDot(s: string): (i: int)
    ensures -1 <= i < |s|
    ensures i >= 0 ==> s[i] == '.'
    ensures forall j :: i < j < |s| ==> s[j] != '.'
  {
    if s == [] then -1
    else if s[|s| - 1] == '.' then |s| - 1
    else LastDot(s[..|s| - 1])
  }

  /** `Path.stem`: the file name without its last suffix; a leading dot does not start a suffix. */
  function Stem(path: string): (r: string)
    ensures !Contains(r, "/")
    ensures r <= LastSegment(path)
  {
    var name := LastSegment(path);
    var i := LastDot(name);
    if 0 < i < |name| - 1 then
      assert !Contains(name[..i], "/") by {
        forall j | 0 <= j ensures !OccursAt(name[..i], "/", j) {
          OccursInPrefix(name, "/", i, j);
        }
      }
      name[..i]
    else name
  }

  /** `Path.suffix`: the last suffix of the file name, dot included, or empty. */
  function Suffix(path: string): (r: string)
    ensures r == [] || r[0] == '.'
  {
    var name := LastSegment(path);
    var i := LastDot(name);
    if 0 < i < |name| - 1 then name[i..] else ""
  }

  /** The stem followed by the suffix is the file name. */
  lemma StemSuffix(path: string)
    ensures Stem(path) + Suffix(path) == LastSegment(path)
  {
    var name := LastSegment(path);
    var i := LastDot(name);
    if 0 < i < |name| - 1 {
      SplitAtDot(name, i, Stem(path), Suffix(path));
    }
  }

  lemma SplitAtDot(name: string, i: int, stem: string, suffix: string)
    requires 0 <= i <= |name| && stem == name[..i] && suffix == name[i..]
    ensures stem + suffix == name
  {
  }

  /** The number of occurrences of `c` in `s`. */
  function CountChar(s: string, c: char): (n: nat)
    ensures n <= |s|
    ensures n == 0 <==> c !in s
  {
    if s == [] then 0
    else
      assert forall x :: x in s <==> x in s[..|s| - 1] || x == s[|s| - 1];
      CountChar(s[..|s| - 1], c) + (if s[|s| - 1] == c then 1 else 0)
  }

  /** Lowering is idempotent. */
  lemma LowerLower(s: string)
    ensures Lower(Lower(s)) == Lower(s)
  {
    assert forall i :: 0 <= i < |s| ==> LowerChar(LowerChar(s[i])) == LowerChar(s[i]);
  }

  /** The classification rules of `_determine_type`, tried in order. */
  const TypeRules: seq<(string, seq<string>)> := [
    ("page", ["pages", "routes"]),
    ("component", ["components"]),
    ("api", ["api", "routers"]),
    ("database", ["db", "database", "schema"]),
    ("test", ["test", "spec"]),
    ("config", ["config", "settings"])]

  const RuleWords: seq<string> := ["pages", "routes", "components", "api", "routers", "db", "database", "schema",
                                   "test", "spec", "config", "settings"]

  /** The kind of the first rule one of whose words occurs in `p`, or `utility`. */
  function Classify(p: string, rules: seq<(string, seq<string>)>): (t: string)
    ensures t == "utility" || exists i :: 0 <= i < |rules| && t == rules[i].0
    ensures (forall i :: 0 <= i < |rules| ==> !HasAny(p, rules[i].1)) ==> t == "utility"
    ensures forall i :: (0 <= i < |rules| && HasAny(p, rules[i].1) &&
                         forall j :: 0 <= j < i ==> !HasAny(p, rules[j].1)) ==> t == rules[i].0
    decreases |rules|
  {
    if rules == [] then "utility"
    else if HasAny(p, rules[0].1) then rules[0].0
    else
      var t := Classify(p, rules[1..]);
      assert forall i :: 1 <= i < |rules| ==> rules[1..][i - 1] == rules[i];
      t
  }

  /** `_determine_type`: the lowered path decides by the first matching rule. */
  function DetermineType(path: string): (t: string)
    ensures t in {"page", "component", "api", "database", "test", "config", "utility"}
  {
    var t := Classify(Lower(path), TypeRules);
    assert t == "utility" || exists i :: 0 <= i < |TypeRules| && t == TypeRules[i].0;
    t
  }

  /** The classification does not depend on letter case. */
  lemma DetermineTypeIgnoresCase(path: string)
    ensures DetermineType(Lower(path)) == DetermineType(path)
  {
    LowerLower(path);
  }

  /** A path under a `pages` or `routes` directory is a page whatever else it mentions. */
  lemma PagesComeFirst(path: string)
    requires Contains(Lower(path), "pages") || Contains(Lower(path), "routes")
    ensures DetermineType(path) == "page"
  {
    var p := Lower(path);
    if Contains(p, "pages") {
      assert TypeRules[0].1[0] == "pages";
    } else {
      assert TypeRules[0].1[1] == "routes";
    }
    assert HasAny(p, TypeRules[0].1);
  }

  /** A path that mentions none of the rule words is a utility. */
  lemma UtilityIsTheDefault(path: string)
    requires forall w :: w in RuleWords ==> !Contains(Lower(path), w)
    ensures DetermineType(path) == "utility"
  {
    var p := Lower(path);
    RuleWordsCover();
    forall i | 0 <= i < |TypeRules| ensures !HasAny(p, TypeRules[i].1) {
      NoneOf(p, TypeRules[i].1, RuleWords);
    }
  }

  /** Every word of every rule is one of the rule words. */
  lemma RuleWordsCover()
    ensures forall i, j :: 0 <= i < |TypeRules| && 0 <= j < |TypeRules[i].1| ==> TypeRules[i].1[j] in RuleWords
  {
  }

  lemma NoneOf(p: string, words: seq<string>, all: seq<string>)
    requires forall j :: 0 <= j < |words| ==> words[j] in all
    requires forall w :: w in all ==> !Contains(p, w)
    ensures !HasAny(p, words)
  {
  }

  /**
   * `_matches_import`: the lowered component name occurs in the lowered last segment of
   * the import, or the other way round.
   */
  function MatchesImport(c: Component, importPath: string): (r: bool)
    ensures Lower(c.name) == Lower(LastSegment(importPath)) ==> r
    ensures LastSegment(importPath) == [] ==> r
    ensures c.name == [] ==> r
  {
    var componentName := Lower(c.name);
    var importName := Lower(LastSegment(importPath));
    ContainsEmpty(componentName);
    ContainsEmpty(importName);
    assert componentName == importName ==> OccursAt(importName, componentName, 0);
    ContainsIff(importName, componentName);
    Contains(importName, componentName) || Contains(componentName, importName)
  }

  /** Some import in `imports` matches `c`. */
  predicate MatchesAny(c: Component, imports: seq<string>)
  {
    imports != [] && (MatchesAny(c, imports[..|imports| - 1]) || MatchesImport(c, imports[|imports| - 1]))
  }

  // ---------------------------------------------------------------------------
  // Edges

  /** `c` and `d` differ at most in their edge lists. */
  predicate SameButEdges(c: Component, d: Component)
  {
    d == c.(dependsOn := d.dependsOn, usedBy := d.usedBy)
  }

  /** Append `x` unless it is already present. */
  function AddOnce(s: seq<string>, x: string): (r: seq<string>)
    ensures forall y :: y in r <==> y in s || y == x
    ensures Lists.NoDuplicates(s) ==> Lists.NoDuplicates(r)
    ensures s <= r
  {
    if x in s then s else s + [x]
  }

  /** Every `depends_on` edge between two components has its `used_by` partner, and back. */
  ghost predicate Symmetric(m: map<string, Component>)
  {
    forall a, b :: a in m && b in m ==> (b in m[a].dependsOn <==> a in m[b].usedBy)
  }

  ghost predicate NoSelfEdges(m: map<string, Component>)
  {
    forall a :: a in m ==> a !in m[a].dependsOn && a !in m[a].usedBy
  }

  ghost predicate NoDuplicateEdges(m: map<string, Component>)
  {
    forall a :: a in m ==> Lists.NoDuplicates(m[a].dependsOn) && Lists.NoDuplicates(m[a].usedBy)
  }

  /**
   * `m1` is `m0` with exactly the edges `E` added, each as a `depends_on` entry of its
   * source and a `used_by` entry of its target, no entry repeated and nothing else changed.
   */
  ghost predicate Adds(m0: map<string, Component>, m1: map<string, Component>, E: set<(string, string)>)
  {
    m1.Keys == m0.Keys &&
    (forall id :: id in m0 ==> SameButEdges(m0[id], m1[id])) &&
    (forall a, x :: a in m0 ==> (x in m1[a].dependsOn <==> x in m0[a].dependsOn || (a, x) in E)) &&
    (forall b, x :: b in m0 ==> (x in m1[b].usedBy <==> x in m0[b].usedBy || (x, b) in E)) &&
    (forall id :: id in m0 && Lists.NoDuplicates(m0[id].dependsOn) ==> Lists.NoDuplicates(m1[id].dependsOn)) &&
    (forall id :: id in m0 && Lists.NoDuplicates(m0[id].usedBy) ==> Lists.NoDuplicates(m1[id].usedBy))
  }

  lemma AddsNothing(m: map<string, Component>)
    ensures Adds(m, m, {})
  {
  }

  lemma AddsTrans(m0: map<string, Component>, m1: map<string, Component>, m2: map<string, Component>,
                  E1: set<(string, string)>, E2: set<(string, string)>)
    requires Adds(m0, m1, E1) && Adds(m1, m2, E2)
    ensures Adds(m0, m2, E1 + E2)
  {
    forall id | id in m0 ensures SameButEdges(m0[id], m2[id]) {
      assert SameButEdges(m0[id], m1[id]) && SameButEdges(m1[id], m2[id]);
    }
  }

  /** Components related by `Adds` have the same names and imports. */
  lemma AddsKeepsNames(m0: map<string, Component>, m1: map<string, Component>, E: set<(string, string)>, id: string)
    requires Adds(m0, m1, E) && id in m0
    ensures m1[id].name == m0[id].name && m1[id].imports == m0[id].imports
  {
    assert SameButEdges(m0[id], m1[id]);
  }

  /** What `_build_relationships` does for one matching pair: `a` depends on `b`, `b` is used by `a`. */
  function LinkPair(m: map<string, Component>, a: string, b: string): (r: map<string, Component>)
    requires a in m && b in m && a != b
    ensures Adds(m, r, {(a, b)})
  {
    m[a := m[a].(dependsOn := AddOnce(m[a].dependsOn, b))][b := m[b].(usedBy := AddOnce(m[b].usedBy, a))]
  }

  /** The body of the innermost loop: link `a` to `b` when `b` is another component matching `p`. */
  function Step(m: map<string, Component>, a: string, p: string, b: string): map<string, Component>
  {
    if a in m && b in m && b != a && MatchesImport(m[b], p) then LinkPair(m, a, b) else m
  }

  /** The innermost loop: one import of `a` against the components `others`, in order. */
  function LinkImportAll(m: map<string, Component>, a: string, p: string, others: seq<string>): map<string, Component>
  {
    if others == [] then m
    else Step(LinkImportAll(m, a, p, others[..|others| - 1]), a, p, others[|others| - 1])
  }

  /** The middle loop: every import of `a`. */
  function LinkComponentAll(m: map<string, Component>, a: string, imports: seq<string>, others: seq<string>): map<string, Component>
  {
    if imports == [] then m
    else LinkImportAll(LinkComponentAll(m, a, imports[..|imports| - 1], others), a, imports[|imports| - 1], others)
  }

  lemma LinkComponentAllSnoc(m: map<string, Component>, a: string, imports: seq<string>, j: int, others: seq<string>)
    requires 0 <= j < |imports|
    ensures LinkComponentAll(m, a, imports[..j + 1], others) ==
      LinkImportAll(LinkComponentAll(m, a, imports[..j], others), a, imports[j], others)
  {
    assert imports[..j + 1][..j] == imports[..j];
  }

  /** The outer loop: the components `todo`, each with the imports it has when reached. */
  function BuildAll(m: map<string, Component>, todo: seq<string>, others: seq<string>): map<string, Component>
  {
    if todo == [] then m
    else
      var prev := BuildAll(m, todo[..|todo| - 1], others);
      var a := todo[|todo| - 1];
      if a in prev then LinkComponentAll(prev, a, prev[a].imports, others) else prev
  }

  lemma BuildAllSnoc(m: map<string, Component>, todo: seq<string>, i: int, others: seq<string>)
    requires 0 <= i < |todo|
    ensures var prev := BuildAll(m, todo[..i], others);
      BuildAll(m, todo[..i + 1], others) ==
        if todo[i] in prev then LinkComponentAll(prev, todo[i], prev[todo[i]].imports, others) else prev
  {
    assert todo[..i + 1][..i] == todo[..i];
  }

  ghost function ImportEdges(m: map<string, Component>, a: string, p: string, others: seq<string>): set<(string, string)>
  {
    set b | b in others && a in m && b in m && b != a && MatchesImport(m[b], p) :: (a, b)
  }

  ghost function ComponentEdges(m: map<string, Component>, a: string, imports: seq<string>, others: seq<string>): set<(string, string)>
  {
    set b | b in others && a in m && b in m && b != a && MatchesAny(m[b], imports) :: (a, b)
  }

  ghost function BuildEdges(m: map<string, Component>, todo: seq<string>, others: seq<string>): set<(string, string)>
  {
    set a, b | a in todo && b in others && a in m && b in m && b != a && MatchesAny(m[b], m[a].imports) :: (a, b)
  }

  /** The edges the build is meant to add: `a` has an import whose last segment matches `b`'s name. */
  ghost function WantedEdges(m: map<string, Component>): set<(string, string)>
  {
    set a, b | a in m && b in m && b != a && MatchesAny(m[b], m[a].imports) :: (a, b)
  }

  /** One step links the pair when it matches and changes nothing otherwise. */
  lemma StepAdds(m0: map<string, Component>, m: map<string, Component>, E: set<(string, string)>, a: string, p: string, b: string)
    requires Adds(m0, m, E)
    ensures Adds(m, Step(m, a, p, b),
                 if a in m0 && b in m0 && b != a && MatchesImport(m0[b], p) then {(a, b)} else {})
  {
    if b in m0 { AddsKeepsNames(m0, m, E, b); }
    if a in m && b in m && b != a && MatchesImport(m[b], p) {
    } else {
      AddsNothing(m);
    }
  }

  lemma {:induction false} LinkImportAllAdds(m: map<string, Component>, a: string, p: string, others: seq<string>)
    ensures Adds(m, LinkImportAll(m, a, p, others), ImportEdges(m, a, p, others))
  {
    if others == [] {
      AddsNothing(m);
      assert ImportEdges(m, a, p, others) == {};
    } else {
      var init, b := others[..|others| - 1], others[|others| - 1];
      var prev := LinkImportAll(m, a, p, init);
      LinkImportAllAdds(m, a, p, init);
      var E1 := ImportEdges(m, a, p, init);
      StepAdds(m, prev, E1, a, p, b);
      var E2: set<(string, string)> := if a in m && b in m && b != a && MatchesImport(m[b], p) then {(a, b)} else {};
      AddsTrans(m, prev, LinkImportAll(m, a, p, others), E1, E2);
      ImportEdgesSnoc(m, a, p, others);
    }
  }

  lemma ImportEdgesSnoc(m: map<string, Component>, a: string, p: string, others: seq<string>)
    requires others != []
    ensures var b := others[|others| - 1];
            ImportEdges(m, a, p, others) == ImportEdges(m, a, p, others[..|others| - 1]) +
              (if a in m && b in m && b != a && MatchesImport(m[b], p) then {(a, b)} else {})
  {
    var init, b := others[..|others| - 1], others[|others| - 1];
    assert forall x :: x in others <==> x in init || x == b;
  }

  lemma {:induction false} LinkComponentAllAdds(m: map<string, Component>, a: string, imports: seq<string>, others: seq<string>)
    ensures Adds(m, LinkComponentAll(m, a, imports, others), ComponentEdges(m, a, imports, others))
  {
    if imports == [] {
      AddsNothing(m);
      assert ComponentEdges(m, a, imports, others) == {};
    } else {
      var init, p := imports[..|imports| - 1], imports[|imports| - 1];
      var prev := LinkComponentAll(m, a, init, others);
      LinkComponentAllAdds(m, a, init, others);
      var E1 := ComponentEdges(m, a, init, others);
      LinkImportAllAdds(prev, a, p, others);
      var E2 := ImportEdges(prev, a, p, others);
      AddsTrans(m, prev, LinkComponentAll(m, a, imports, others), E1, E2);
      forall b | b in m ensures MatchesImport(prev[b], p) == MatchesImport(m[b], p) {
        AddsKeepsNames(m, prev, E1, b);
      }
      assert E1 + E2 == ComponentEdges(m, a, imports, others);
    }
  }

  lemma {:induction false} BuildAllAdds(m: map<string, Component>, todo: seq<string>, others: seq<string>)
    ensures Adds(m, BuildAll(m, todo, others), BuildEdges(m, todo, others))
  {
    if todo == [] {
      AddsNothing(m);
      assert BuildEdges(m, todo, others) == {};
    } else {
      var init, a := todo[..|todo| - 1], todo[|todo| - 1];
      var prev := BuildAll(m, init, others);
      BuildAllAdds(m, init, others);
      var E1 := BuildEdges(m, init, others);
      if a in prev {
        AddsKeepsNames(m, prev, E1, a);
        LinkComponentAllAdds(prev, a, prev[a].imports, others);
        var E2 := ComponentEdges(prev, a, prev[a].imports, others);
        AddsTrans(m, prev, BuildAll(m, todo, others), E1, E2);
        ComponentEdgesSameNames(m, prev, E1, a, others);
        BuildEdgesSnoc(m, todo, others);
      } else {
        assert a !in m;
        BuildEdgesSnoc(m, todo, others);
      }
    }
  }

  /** The edges wanted for one component depend only on the names and imports of the graph. */
  lemma ComponentEdgesSameNames(m: map<string, Component>, m1: map<string, Component>, E: set<(string, string)>,
                                a: string, others: seq<string>)
    requires Adds(m, m1, E) && a in m
    ensures ComponentEdges(m1, a, m1[a].imports, others) == ComponentEdges(m, a, m[a].imports, others)
  {
    forall b | b in m ensures m1[b].name == m[b].name && m1[b].imports == m[b].imports {
      AddsKeepsNames(m, m1, E, b);
    }
    forall b | b in m ensures MatchesAny(m1[b], m[a].imports) == MatchesAny(m[b], m[a].imports) {
      MatchesAnySameName(m1[b], m[b], m[a].imports);
    }
  }

  lemma {:induction false} MatchesAnySameName(c: Component, d: Component, imports: seq<string>)
    requires c.name == d.name
    ensures MatchesAny(c, imports) == MatchesAny(d, imports)
  {
    if imports != [] {
      MatchesAnySameName(c, d, imports[..|imports| - 1]);
    }
  }

  lemma BuildEdgesSnoc(m: map<string, Component>, todo: seq<string>, others: seq<string>)
    requires todo != []
    ensures var a := todo[|todo| - 1];
            BuildEdges(m, todo, others) == BuildEdges(m, todo[..|todo| - 1], others) +
              (if a in m then ComponentEdges(m, a, m[a].imports, others) else {})
  {
    var init, a := todo[..|todo| - 1], todo[|todo| - 1];
    assert forall x :: x in todo <==> x in init || x == a;
  }

  /** With every component both reached and compared against, the build adds exactly the wanted edges. */
  lemma BuildAllAddsWanted(m: map<string, Component>, order: seq<string>)
    requires forall id :: id in m <==> id in order
    ensures Adds(m, BuildAll(m, order, order), WantedEdges(m))
  {
    BuildAllAdds(m, order, order);
    assert BuildEdges(m, order, order) == WantedEdges(m);
  }

  lemma AddsKeepsSymmetric(m0: map<string, Component>, m1: map<string, Component>, E: set<(string, string)>)
    requires Adds(m0, m1, E) && Symmetric(m0)
    ensures Symmetric(m1)
  {
  }

  lemma AddsKeepsNoSelfEdges(m0: map<string, Component>, m1: map<string, Component>, E: set<(string, string)>)
    requires Adds(m0, m1, E) && NoSelfEdges(m0) && forall a :: (a, a) !in E
    ensures NoSelfEdges(m1)
  {
  }

  lemma AddsKeepsNoDuplicateEdges(m0: map<string, Component>, m1: map<string, Component>, E: set<(string, string)>)
    requires Adds(m0, m1, E) && NoDuplicateEdges(m0)
    ensures NoDuplicateEdges(m1)
  {
  }

  /**
   * A second build adds nothing: the wanted edges depend only on names and imports,
   * which the first build leaves alone, and they are all present after it.
   */
  lemma BuildTwiceAddsNothing(m: map<string, Component>, order: seq<string>)
    requires forall id :: id in m <==> id in order
    ensures var m1 := BuildAll(m, order, order);
            var m2 := BuildAll(m1, order, order);
            m2.Keys == m1.Keys &&
            forall a, x :: a in m1 ==> (x in m2[a].dependsOn <==> x in m1[a].dependsOn) && (x in m2[a].usedBy <==> x in m1[a].usedBy)
  {
    var m1 := BuildAll(m, order, order);
    BuildAllAddsWanted(m, order);
    BuildAllAddsWanted(m1, order);
    WantedEdgesSameNames(m, m1, WantedEdges(m));
  }

  lemma WantedEdgesSameNames(m: map<string, Component>, m1: map<string, Component>, E: set<(string, string)>)
    requires Adds(m, m1, E)
    ensures WantedEdges(m1) == WantedEdges(m)
  {
    forall a | a in m ensures m1[a].name == m[a].name && m1[a].imports == m[a].imports {
      AddsKeepsNames(m, m1, E, a);
    }
    forall a, b | a in m && b in m ensures MatchesAny(m1[b], m1[a].imports) == MatchesAny(m[b], m[a].imports) {
      MatchesAnySameName(m1[b], m[b], m[a].imports);
    }
  }

  // ---------------------------------------------------------------------------
  // Traversal

  function Neighbours(c: Component, forward: bool): seq<string>
  {
    if forward then c.dependsOn else c.usedBy
  }

  /** Collect the existing components named in `ids` into `acc`, skipping values already present. */
  function Gather(m: map<string, Component>, acc: seq<Component>, ids: seq<string>): (r: seq<Component>)
    ensures acc <= r
    ensures Lists.NoDuplicates(acc) ==> Lists.NoDuplicates(r)
    ensures forall x :: x in r ==> x in acc || exists d :: d in ids && d in m && m[d] == x
    ensures forall d :: d in ids && d in m ==> m[d] in r
  {
    if ids == [] then acc
    else
      var prev := Gather(m, acc, ids[..|ids| - 1]);
      var d := ids[|ids| - 1];
      assert forall e :: e in ids <==> e in ids[..|ids| - 1] || e == d;
      if d in m && m[d] !in prev then prev + [m[d]] else prev
  }

  /** Every existing neighbour of every existing component of `visited` is in `acc`. */
  ghost predicate Covers(m: map<string, Component>, visited: set<string>, acc: seq<Component>, forward: bool)
  {
    forall v, d :: v in visited && v in m && d in Neighbours(m[v], forward) && d in m ==> m[d] in acc
  }

  lemma CoversCombine(m: map<string, Component>, A: set<string>, B: set<string>, C: set<string>,
                      X: seq<Component>, Y: seq<Component>, forward: bool)
    requires Covers(m, A, X, forward) && Covers(m, B, Y, forward) && X <= Y && C <= A + B
    ensures Covers(m, C, Y, forward)
  {
    forall v, d | v in C && v in m && d in Neighbours(m[v], forward) && d in m ensures m[d] in Y {
      if v in A {
        assert m[d] in X;
        var i :| 0 <= i < |X| && X[i] == m[d];
        assert Y[i] == m[d];
      }
    }
  }

  /**
   * `acc'` extends `acc` with components stored under their own ids, each of them
   * visited.
   */
  ghost predicate Collected(m: map<string, Component>, acc: seq<Component>, acc': seq<Component>, visited: set<string>)
  {
    acc <= acc' &&
    forall j :: |acc| <= j < |acc'| ==>
      acc'[j].componentId in visited && acc'[j].componentId in m && m[acc'[j].componentId] == acc'[j]
  }

  lemma CollectedChain(m: map<string, Component>, acc: seq<Component>, acc0: seq<Component>, d: string,
                       acc2: seq<Component>, V0: set<string>, V2: set<string>)
    requires d in m && m[d].componentId == d
    requires Collected(m, acc, acc0, V0) && V0 <= V2 && d in V2
    requires Collected(m, acc0 + [m[d]], acc2, V2)
    ensures Collected(m, acc, acc2, V2)
    ensures acc0 <= acc2 && m[d] in acc2
    ensures Lists.NoDuplicates(acc0) && m[d] !in acc0 && (Lists.NoDuplicates(acc0 + [m[d]]) ==> Lists.NoDuplicates(acc2)) ==>
      Lists.NoDuplicates(acc2)
  {
    assert acc2[|acc0|] == m[d];
    if Lists.NoDuplicates(acc0) && m[d] !in acc0 {
      assert Lists.NoDuplicates(acc0 + [m[d]]);
    }
  }

  /** What a prefix holds, the whole holds. */
  lemma PrefixMembers(X: seq<Component>, Y: seq<Component>)
    requires X <= Y
    ensures forall x :: x in X ==> x in Y
  {
    forall x | x in X ensures x in Y {
      var i :| 0 <= i < |X| && X[i] == x;
      assert Y[i] == x;
    }
  }

  lemma CollectedTrans(m: map<string, Component>, acc: seq<Component>, acc0: seq<Component>, acc2: seq<Component>,
                       V0: set<string>, V2: set<string>)
    requires Collected(m, acc, acc0, V0) && Collected(m, acc0, acc2, V2) && V0 <= V2
    ensures Collected(m, acc, acc2, V2)
  {
    forall j | |acc| <= j < |acc0| ensures acc2[j] == acc0[j] { }
  }

  /** `acc` together with `start` is closed under the neighbour relation. */
  ghost predicate Closed(m: map<string, Component>, acc: seq<Component>, start: Component, forward: bool)
  {
    forall x, d :: (x in acc || x == start) && d in Neighbours(x, forward) && d in m ==> m[d] in acc
  }

  /**
   * `p` is a walk of one or more steps along neighbour links: each of its ids but the
   * last names an existing component, and the next id is one of that component's
   * neighbours.
   */
  ghost predicate Walk(m: map<string, Component>, p: seq<string>, forward: bool)
  {
    |p| >= 2 && forall i :: 0 <= i < |p| - 1 ==> p[i] in m && p[i + 1] in Neighbours(m[p[i]], forward)
  }

  /** `b` is reached from `a` by following neighbour links one or more times. */
  ghost predicate Reachable(m: map<string, Component>, a: string, b: string, forward: bool)
  {
    exists p :: Walk(m, p, forward) && p[0] == a && p[|p| - 1] == b
  }

  /** A neighbour of `a`, or of a component reached from `a`, is reached from `a`. */
  lemma ReachableNext(m: map<string, Component>, a: string, c: string, d: string, forward: bool)
    requires c == a || Reachable(m, a, c, forward)
    requires c in m && d in Neighbours(m[c], forward)
    ensures Reachable(m, a, d, forward)
  {
    if c == a {
      assert Walk(m, [a, d], forward);
    } else {
      var p :| Walk(m, p, forward) && p[0] == a && p[|p| - 1] == c;
      var q := p + [d];
      forall i | 0 <= i < |q| - 1 ensures q[i] in m && q[i + 1] in Neighbours(m[q[i]], forward) {
        if i < |p| - 1 {
          assert q[i] == p[i] && q[i + 1] == p[i + 1];
        }
      }
      assert Walk(m, q, forward) && q[0] == a && q[|q| - 1] == d;
    }
  }

  /** The components `acc'` adds to `acc` are all reached from `start`. */
  ghost predicate FromStart(m: map<string, Component>, acc: seq<Component>, acc': seq<Component>, start: string, forward: bool)
  {
    forall j :: |acc| <= j < |acc'| ==> Reachable(m, start, acc'[j].componentId, forward)
  }

  lemma FromStartTrans(m: map<string, Component>, acc: seq<Component>, acc0: seq<Component>, acc2: seq<Component>,
                       start: string, forward: bool)
    requires acc <= acc0 <= acc2
    requires FromStart(m, acc, acc0, start, forward) && FromStart(m, acc0, acc2, start, forward)
    ensures FromStart(m, acc, acc2, start, forward)
  {
    forall j | |acc| <= j < |acc0| ensures acc2[j] == acc0[j] { }
  }

  /**
   * A list closed under the neighbour relation from `m[a]` holds every existing
   * component reached from `a`.
   */
  lemma {:induction false} ClosedHoldsWalk(m: map<string, Component>, acc: seq<Component>, a: string, p: seq<string>,
                                           forward: bool)
    requires a in m && Closed(m, acc, m[a], forward)
    requires Walk(m, p, forward) && p[0] == a && p[|p| - 1] in m
    ensures m[p[|p| - 1]] in acc
    decreases |p|
  {
    var n := |p|;
    if n > 2 {
      var q := p[..n - 1];
      assert Walk(m, q, forward) by {
        forall i | 0 <= i < |q| - 1 ensures q[i] in m && q[i + 1] in Neighbours(m[q[i]], forward) {
          assert q[i] == p[i] && q[i + 1] == p[i + 1];
        }
      }
      assert q[|q| - 1] == p[n - 2];
      ClosedHoldsWalk(m, acc, a, q, forward);
    }
    assert p[n - 2] in m && p[n - 1] in Neighbours(m[p[n - 2]], forward);
  }

  lemma CardinalityShrinks(keys: set<string>, before: set<string>, after: set<string>, c: string)
    requires before <= after && c in keys && c !in before && c in after
    ensures |keys - after| < |keys - before|
  {
    var big, small := keys - before, keys - after;
    assert small <= big && c in big && c !in small;
    assert big == small + (big - small);
    assert |big| == |small| + |big - small|;
    assert c in big - small;
  }

  datatype GraphStatistics = GraphStatistics(totalComponents: nat, totalDependencies: nat, averageDependencies: real)

  /** The number of `depends_on` entries over the components `ids`. */
  function TotalDependencies(m: map<string, Component>, ids: seq<string>): nat
  {
    if ids == [] then 0
    else TotalDependencies(m, ids[..|ids| - 1]) + (if ids[|ids| - 1] in m then |m[ids[|ids| - 1]].dependsOn| else 0)
  }

  /** The contents and attributes of a readable source file. */
  datatype SourceFile = SourceFile(content: string, size: int, modified: real)

  /**
   * The component `_analyze_file` makes of a file: identified by its relative path,
   * typed by its full path, named by its stem, without edges, with the imports and
   * exports the extractors find for its suffix and one line more than it has newlines.
   */
  function AnalyzedComponent(root: string, relativePath: string, f: SourceFile,
                             extractImports: (string, string) -> seq<string>,
                             extractExports: (string, string) -> seq<string>): (c: Component)
    ensures c.componentId == ComponentId(relativePath) && c.path == relativePath
    ensures c.status == "incomplete" && c.dependsOn == [] && c.usedBy == []
    ensures c.linesOfCode >= 1 && (c.linesOfCode == 1 <==> '\n' !in f.content)
    ensures c.componentType in {"page", "component", "api", "database", "test", "config", "utility"}
    ensures !Contains(c.name, "/")
  {
    var suffix := Suffix(relativePath);
    Component(ComponentId(relativePath), Stem(relativePath), relativePath, DetermineType(FullPath(root, relativePath)),
              "incomplete", 0.0, [], [], extractImports(f.content, suffix), extractExports(f.content, suffix),
              f.size, CountChar(f.content, '\n') + 1, f.modified, "", [])
  }

  /**
   * The components after the file loop of `build_from_codebase`: each listed file that
   * can be read, in order, stores its component under its id.
   */
  function Analyzed(m: map<string, Component>, root: string, paths: seq<string>, files: map<string, SourceFile>,
                    extractImports: (string, string) -> seq<string>,
                    extractExports: (string, string) -> seq<string>): (r: map<string, Component>)
    ensures m.Keys <= r.Keys
  {
    if paths == [] then m
    else
      var prev := Analyzed(m, root, paths[..|paths| - 1], files, extractImports, extractExports);
      var p := paths[|paths| - 1];
      assert forall f :: f in paths <==> f in paths[..|paths| - 1] || f == p;
      if p in files then prev[ComponentId(p) := AnalyzedComponent(root, p, files[p], extractImports, extractExports)]
      else prev
  }

  /**
   * The component of a listed readable file is the one it was analysed into, unless a
   * later readable file has the same id and replaces it.
   */
  lemma {:induction false} AnalyzedLatest(m: map<string, Component>, root: string, paths: seq<string>,
                                          files: map<string, SourceFile>,
                                          extractImports: (string, string) -> seq<string>,
                                          extractExports: (string, string) -> seq<string>, j: int)
    requires 0 <= j < |paths| && paths[j] in files
    requires forall k :: j < k < |paths| && paths[k] in files ==> ComponentId(paths[k]) != ComponentId(paths[j])
    ensures var r := Analyzed(m, root, paths, files, extractImports, extractExports);
            ComponentId(paths[j]) in r &&
            r[ComponentId(paths[j])] == AnalyzedComponent(root, paths[j], files[paths[j]], extractImports, extractExports)
  {
    var n := |paths|;
    var init, p := paths[..n - 1], paths[n - 1];
    var id := ComponentId(paths[j]);
    var want := AnalyzedComponent(root, paths[j], files[paths[j]], extractImports, extractExports);
    var prev := Analyzed(m, root, init, files, extractImports, extractExports);
    var r := Analyzed(m, root, paths, files, extractImports, extractExports);
    if j == n - 1 {
      assert r == prev[id := want];
    } else {
      assert init[j] == paths[j];
      forall k | j < k < |init| && init[k] in files ensures ComponentId(init[k]) != id {
        assert init[k] == paths[k];
      }
      AnalyzedLatest(m, root, init, files, extractImports, extractExports, j);
      assert id in prev && prev[id] == want;
      if p in files {
        assert ComponentId(p) != id;
        assert r == prev[ComponentId(p) := AnalyzedComponent(root, p, files[p], extractImports, extractExports)];
      } else {
        assert r == prev;
      }
    }
  }

  /** The file loop keeps every component, adds one for each listed readable file and no other. */
  lemma {:induction false} AnalyzedKeys(m: map<string, Component>, root: string, paths: seq<string>,
                                        files: map<string, SourceFile>,
                                        extractImports: (string, string) -> seq<string>,
                                        extractExports: (string, string) -> seq<string>)
    ensures var r := Analyzed(m, root, paths, files, extractImports, extractExports);
            (forall f :: f in paths && f in files ==> ComponentId(f) in r) &&
            (forall id :: id in r && id !in m ==> exists f :: f in paths && f in files && ComponentId(f) == id)
  {
    if paths != [] {
      var init, p := paths[..|paths| - 1], paths[|paths| - 1];
      AnalyzedKeys(m, root, init, files, extractImports, extractExports);
      assert forall f :: f in paths <==> f in init || f == p;
    }
  }

  // ---------------------------------------------------------------------------
  // The graph

  class KnowledgeGraph {
    var components: map<string, Component>
    /** The dictionary's insertion order. */
    var order: seq<string>

    ghost predicate Valid()
      reads this
    {
      Lists.NoDuplicates(order) &&
      (forall id :: id in components <==> id in order) &&
      (forall id :: id in components ==> components[id].componentId == id)
    }

    constructor ()
      ensures Valid() && components == map[] && order == []
    {
      components := map[];
      order := [];
    }

    /** Store `c` under its id; a new id goes last, a replaced one keeps its place. */
    method Put(c: Component)
      requires Valid()
      modifies this
      ensures Valid()
      ensures components == old(components)[c.componentId := c]
      ensures order == if c.componentId in old(components) then old(order) else old(order) + [c.componentId]
    {
      if c.componentId !in components {
        order := order + [c.componentId];
      }
      components := components[c.componentId := c];
    }

    /** `add_component` (the save to disk is not modelled). */
    method AddComponent(c: Component) returns (saved: bool)
      requires Valid()
      modifies this
      ensures Valid() && saved
      ensures components == old(components)[c.componentId := c]
      ensures order == if c.componentId in old(components) then old(order) else old(order) + [c.componentId]
    {
      Put(c);
      saved := true;
    }

    /** `get_component`. */
    function GetComponent(id: string): (r: Option<Component>)
      reads this
      ensures r.Some? <==> id in components
      ensures r.Some? ==> r.value == components[id]
    {
      if id in components then Some(components[id]) else None
    }

    /** `_analyze_file`: store the component of a readable file; a file that cannot be read is skipped. */
    method AnalyzeFile(root: string, relativePath: string, files: map<string, SourceFile>,
                       extractImports: (string, string) -> seq<string>,
                       extractExports: (string, string) -> seq<string>)
      requires Valid()
      modifies this
      ensures Valid()
      ensures relativePath !in files ==> components == old(components) && order == old(order)
      ensures relativePath in files ==>
        components == old(components)[ComponentId(relativePath) :=
          AnalyzedComponent(root, relativePath, files[relativePath], extractImports, extractExports)]
    {
      if relativePath !in files {
        return;
      }
      Put(AnalyzedComponent(root, relativePath, files[relativePath], extractImports, extractExports));
    }

    /** Record the edge `a` depends on `b` in both directions, unless already there. */
    method Link(a: string, b: string)
      requires Valid() && a in components && b in components && a != b
      modifies this
      ensures Valid() && order == old(order)
      ensures components == LinkPair(old(components), a, b)
    {
      var ca := components[a];
      if b !in ca.dependsOn {
        ca := ca.(dependsOn := ca.dependsOn + [b]);
      }
      components := components[a := ca];
      var cb := components[b];
      if a !in cb.usedBy {
        cb := cb.(usedBy := cb.usedBy + [a]);
      }
      components := components[b := cb];
    }

    /** The innermost loop of `_build_relationships`: one import of `a` against every component. */
    method LinkImport(a: string, importPath: string)
      requires Valid() && a in components
      modifies this
      ensures Valid() && order == old(order)
      ensures components == LinkImportAll(old(components), a, importPath, order)
    {
      var k := 0;
      while k < |order|
        invariant 0 <= k <= |order|
        invariant Valid() && order == old(order)
        invariant components == LinkImportAll(old(components), a, importPath, order[..k])
      {
        var other := order[k];
        assert order[..k + 1][..k] == order[..k];
        if other != a && MatchesImport(components[other], importPath) {
          Link(a, other);
        }
        k := k + 1;
      }
      assert order[..k] == order;
    }

    /** The two inner loops of `_build_relationships` for the component `a`. */
    method LinkComponent(a: string)
      requires Valid() && a in components
      modifies this
      ensures Valid() && order == old(order)
      ensures components == LinkComponentAll(old(components), a, old(components)[a].imports, order)
    {
      var imports := components[a].imports;
      var j := 0;
      while j < |imports|
        invariant 0 <= j <= |imports|
        invariant Valid() && order == old(order)
        invariant a in components
        invariant components == LinkComponentAll(old(components), a, imports[..j], order)
      {
        LinkComponentAllSnoc(old(components), a, imports, j, order);
        LinkImport(a, imports[j]);
        j := j + 1;
      }
      assert imports[..j] == imports;
    }

    /**
     * `_build_relationships`: afterwards `a` depends on `b` (and `b` is used by `a`)
     * exactly when that edge was there before or `b` is another component whose name
     * matches one of `a`'s imports. Symmetry, the absence of self-edges and of
     * repeated entries are all kept.
     */
    method BuildRelationships()
      requires Valid()
      modifies this
      ensures Valid() && order == old(order)
      ensures components == BuildAll(old(components), order, order)
      ensures components.Keys == old(components).Keys
      ensures Adds(old(components), components, WantedEdges(old(components)))
      ensures Symmetric(old(components)) ==> Symmetric(components)
      ensures NoSelfEdges(old(components)) ==> NoSelfEdges(components)
      ensures NoDuplicateEdges(old(components)) ==> NoDuplicateEdges(components)
    {
      var i := 0;
      while i < |order|
        invariant 0 <= i <= |order|
        invariant Valid() && order == old(order)
        invariant components == BuildAll(old(components), order[..i], order)
      {
        BuildAllSnoc(old(components), order, i, order);
        LinkComponent(order[i]);
        i := i + 1;
      }
      assert order[..i] == order;
      BuildAllAddsWanted(old(components), order);
      if Symmetric(old(components)) {
        AddsKeepsSymmetric(old(components), components, WantedEdges(old(components)));
      }
      if NoSelfEdges(old(components)) {
        AddsKeepsNoSelfEdges(old(components), components, WantedEdges(old(components)));
      }
      if NoDuplicateEdges(old(components)) {
        AddsKeepsNoDuplicateEdges(old(components), components, WantedEdges(old(components)));
      }
    }

    /** The file loop of `build_from_codebase`: each listed file that exists becomes a component. */
    method AnalyzeFiles(root: string, paths: seq<string>, files: map<string, SourceFile>,
                        extractImports: (string, string) -> seq<string>,
                        extractExports: (string, string) -> seq<string>)
      requires Valid()
      modifies this
      ensures Valid()
      ensures old(components).Keys <= components.Keys
      ensures forall f :: f in paths && f in files ==> ComponentId(f) in components
      ensures forall id :: id in components && id !in old(components) ==>
        exists f :: f in paths && f in files && ComponentId(f) == id
      ensures components == Analyzed(old(components), root, paths, files, extractImports, extractExports)
    {
      var i := 0;
      while i < |paths|
        invariant 0 <= i <= |paths|
        invariant Valid()
        invariant components == Analyzed(old(components), root, paths[..i], files, extractImports, extractExports)
      {
        var p := paths[i];
        assert paths[..i + 1][..i] == paths[..i];
        AnalyzeFile(root, p, files, extractImports, extractExports);
        i := i + 1;
      }
      assert paths[..i] == paths;
      AnalyzedKeys(old(components), root, paths, files, extractImports, extractExports);
    }

    /**
     * `build_from_codebase`: analyse every source file of the tree that the ignore
     * filter keeps (the filter as intended, on project-relative paths), then link:
     * the analysed components gain exactly the wanted edges among themselves.
     */
    method BuildFromCodebase(root: string, tree: seq<string>, files: map<string, SourceFile>,
                             extractImports: (string, string) -> seq<string>,
                             extractExports: (string, string) -> seq<string>) returns (ok: bool)
      requires Valid()
      modifies this
      ensures Valid() && ok
      ensures old(components).Keys <= components.Keys
      ensures forall f :: f in SourceFiles(tree, SourceExtensions) && !HasAny(f, IgnorePatterns) && f in files ==>
        ComponentId(f) in components
      ensures forall id :: id in components && id !in old(components) ==>
        exists f :: f in Filter(SourceFiles(tree, SourceExtensions)) && f in files && ComponentId(f) == id
      ensures var analysed := Analyzed(old(components), root, Filter(SourceFiles(tree, SourceExtensions)), files,
                                       extractImports, extractExports);
              components == BuildAll(analysed, order, order) && Adds(analysed, components, WantedEdges(analysed))
    {
      var filtered := Filter(SourceFiles(tree, SourceExtensions));
      AnalyzeFiles(root, filtered, files, extractImports, extractExports);
      BuildRelationships();
      ok := true;
    }

    /** The non-recursive `collect_deps`: the existing components named in `ids`, each once. */
    method CollectDirect(ids: seq<string>) returns (r: seq<Component>)
      ensures r == Gather(components, [], ids)
    {
      r := [];
      var i := 0;
      while i < |ids|
        invariant 0 <= i <= |ids|
        invariant r == Gather(components, [], ids[..i])
      {
        assert ids[..i + 1][..i] == ids[..i];
        var dep := GetComponent(ids[i]);
        if dep.Some? && dep.value !in r {
          r := r + [dep.value];
        }
        i := i + 1;
      }
      assert ids[..i] == ids;
    }

    /**
     * The recursive `collect_deps` of `get_dependencies` (`forward`) and
     * `get_dependents` (not `forward`): visit `c` once, append each existing neighbour
     * not yet collected and visit it in turn.
     */
    method CollectAll(c: string, forward: bool, visited: set<string>, acc: seq<Component>, ghost start: string)
      returns (visited': set<string>, acc': seq<Component>)
      requires Valid()
      requires c == start || Reachable(components, start, c, forward)
      ensures visited + {c} <= visited'
      ensures FromStart(components, acc, acc', start, forward)
      ensures Collected(components, acc, acc', visited')
      ensures Lists.NoDuplicates(acc) ==> Lists.NoDuplicates(acc')
      ensures Covers(components, visited' - visited, acc', forward)
      decreases |components.Keys - visited|, if c in visited then 0 else 1
    {
      if c in visited {
        return visited, acc;
      }
      visited' := visited + {c};
      acc' := acc;
      if c !in components {
        return;
      }
      var ids := Neighbours(components[c], forward);
      var i := 0;
      while i < |ids|
        invariant 0 <= i <= |ids|
        invariant visited + {c} <= visited'
        invariant Collected(components, acc, acc', visited')
        invariant Lists.NoDuplicates(acc) ==> Lists.NoDuplicates(acc')
        invariant forall d :: d in ids[..i] && d in components ==> components[d] in acc'
        invariant Covers(components, visited' - visited - {c}, acc', forward)
        invariant FromStart(components, acc, acc', start, forward)
      {
        var d := ids[i];
        ReachableNext(components, start, c, d, forward);
        assert forall e :: e in ids[..i + 1] <==> e in ids[..i] || e == d;
        var acc0, visited0 := acc', visited';
        CardinalityShrinks(components.Keys, visited, visited0, c);
        visited', acc' := CollectNeighbour(d, forward, visited0, acc0, start);
        CollectedTrans(components, acc, acc0, acc', visited0, visited');
        FromStartTrans(components, acc, acc0, acc', start, forward);
        PrefixMembers(acc0, acc');
        CoversCombine(components, visited0 - visited - {c}, visited' - visited0, visited' - visited - {c}, acc0, acc', forward);
        i := i + 1;
      }
      assert ids[..i] == ids;
      CoversCombine(components, visited' - visited - {c}, {c}, visited' - visited, acc', acc', forward);
    }

    /** One turn of the loop of the recursive `collect_deps`: the neighbour `d`. */
    method CollectNeighbour(d: string, forward: bool, visited: set<string>, acc: seq<Component>, ghost start: string)
      returns (visited': set<string>, acc': seq<Component>)
      requires Valid()
      requires Reachable(components, start, d, forward)
      ensures visited <= visited'
      ensures FromStart(components, acc, acc', start, forward)
      ensures Collected(components, acc, acc', visited')
      ensures Lists.NoDuplicates(acc) ==> Lists.NoDuplicates(acc')
      ensures d in components ==> components[d] in acc'
      ensures Covers(components, visited' - visited, acc', forward)
      decreases |components.Keys - visited|, 2
    {
      var dep := GetComponent(d);
      if dep.Some? && dep.value !in acc {
        visited', acc' := CollectAll(d, forward, visited, acc + [dep.value], start);
        CollectedChain(components, acc, acc, d, acc', visited, visited');
        FromStartTrans(components, acc, acc + [dep.value], acc', start, forward);
      } else {
        visited', acc' := visited, acc;
      }
    }

    /**
     * `get_dependencies` (`forward`) and `get_dependents`: nothing for an unknown id; no
     * component twice; without `recursive`, exactly the existing direct neighbours in
     * list order; with it, every existing neighbour of the start and of each collected
     * component, and so exactly the components reached from `id` in one or more steps.
     */
    method Related(id: string, forward: bool, recursive: bool) returns (r: seq<Component>)
      requires Valid()
      ensures id !in components ==> r == []
      ensures Lists.NoDuplicates(r)
      ensures forall x :: x in r ==> x in components.Values
      ensures !recursive && id in components ==> r == Gather(components, [], Neighbours(components[id], forward))
      ensures recursive && id in components ==> Closed(components, r, components[id], forward)
      ensures recursive && id in components ==>
        forall x :: x in r <==> x in components.Values && Reachable(components, id, x.componentId, forward)
    {
      if id !in components {
        return [];
      }
      if !recursive {
        r := CollectDirect(Neighbours(components[id], forward));
        return;
      }
      var visited;
      visited, r := CollectAll(id, forward, {}, [], id);
      forall x | x in r ensures x in components.Values && Reachable(components, id, x.componentId, forward) {
        var j :| 0 <= j < |r| && r[j] == x;
        assert components[x.componentId] == x;
      }
      forall x, d | (x in r || x == components[id]) && d in Neighbours(x, forward) && d in components
        ensures components[d] in r
      {
        if x in r {
          var j :| 0 <= j < |r| && r[j] == x;
          assert x.componentId in visited && components[x.componentId] == x;
        }
      }
      forall x | x in components.Values && Reachable(components, id, x.componentId, forward) ensures x in r {
        var p :| Walk(components, p, forward) && p[0] == id && p[|p| - 1] == x.componentId;
        var k :| k in components && components[k] == x;
        ClosedHoldsWalk(components, r, id, p, forward);
      }
    }

    /** `get_dependencies`. */
    method GetDependencies(id: string, recursive: bool) returns (r: seq<Component>)
      requires Valid()
      ensures id !in components ==> r == []
      ensures Lists.NoDuplicates(r)
      ensures forall x :: x in r ==> x in components.Values
      ensures !recursive && id in components ==> r == Gather(components, [], components[id].dependsOn)
      ensures recursive && id in components ==> Closed(components, r, components[id], true)
      ensures recursive && id in components ==>
        forall x :: x in r <==> x in components.Values && Reachable(components, id, x.componentId, true)
    {
      r := Related(id, true, recursive);
    }

    /** `get_dependents`. */
    method GetDependents(id: string, recursive: bool) returns (r: seq<Component>)
      requires Valid()
      ensures id !in components ==> r == []
      ensures Lists.NoDuplicates(r)
      ensures forall x :: x in r ==> x in components.Values
      ensures !recursive && id in components ==> r == Gather(components, [], components[id].usedBy)
      ensures recursive && id in components ==> Closed(components, r, components[id], false)
      ensures recursive && id in components ==>
        forall x :: x in r <==> x in components.Values && Reachable(components, id, x.componentId, false)
    {
      r := Related(id, false, recursive);
    }

    /**
     * `find_affected_components`: the transitive dependents, exactly the components
     * from which `id` is reached along `depends_on` links.
     */
    method FindAffectedComponents(id: string) returns (r: seq<Component>)
      requires Valid()
      ensures id !in components ==> r == []
      ensures Lists.NoDuplicates(r)
      ensures forall x :: x in r ==> x in components.Values
      ensures id in components ==> Closed(components, r, components[id], false)
      ensures id in components ==>
        forall x :: x in r <==> x in components.Values && Reachable(components, id, x.componentId, false)
    {
      r := GetDependents(id, true);
    }

    /** `get_statistics`: totals and the average number of dependencies per component. */
    function GetStatistics(): (s: GraphStatistics)
      reads this
      requires Valid()
      ensures s.totalComponents == |components|
      ensures s.totalComponents == 0 ==> s.averageDependencies == 0.0
      ensures s.totalComponents > 0 ==> s.averageDependencies * s.totalComponents as real == s.totalDependencies as real
    {
      Lists.NoDuplicatesCardinality(order);
      assert components.Keys == set id | id in order;
      var total := |order|;
      var deps := TotalDependencies(components, order);
      GraphStatistics(total, deps, if total > 0 then deps as real / total as real else 0.0)
    }
  }
}
