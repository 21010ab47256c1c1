/**
 * The research engine: it asks a language model for evidence-based guidance on a
 * feature, parses the sectioned reply into recommendations, key findings and best
 * practices, caches the result per feature, and formats it as guidance for a prompt.
 *
 * The model's reply is a parameter: `Some(text)` for a reply, `None` for a failed call.
 */
module ResearchEngine {
  import opened Wrappers
  import opened Strings
  import opened Lists

  datatype Research = Research(recommendations: string, keyFindings: seq<string>, bestPractices: seq<string>)

  /** The section a reply line belongs to. */
  datatype Section = NoSection | Recommendations | KeyFindings | BestPractices

  /** The section a stripped line opens, if it is a header; the recommendations header wins, then key findings. */
  function Header(line: string): Option<Section>
  {
    if Contains(line, "RECOMMENDATIONS:") then Some(Recommendations)
    else if Contains(line, "KEY FINDINGS:") then Some(KeyFindings)
    else if Contains(line, "BEST PRACTICES:") then Some(BestPractices)
    else None
  }

  /** A stripped line that is a list entry: not a header, and starting with "-". */
  predicate IsEntry(line: string)
  {
    Header(line).None? && StartsWith(line, "-")
  }

  /** The entry text: the line without its dash, stripped. */
  function EntryText(line: string): string
    requires |line| > 0
  {
    Strip(line[1..])
  }

  /** The parser's state: the current section and what has been collected. */
  datatype ParseState = ParseState(section: Section, recommendations: string, keyFindings: seq<string>, bestPractices: seq<string>)

  const Start := ParseState(NoSection, "", [], [])

  /** One line of `_parse_research_response`'s loop. */
  function Step(st: ParseState, raw: string): ParseState
  {
    var line := Strip(raw);
    var h := Header(line);
    if h.Some? then st.(section := h.value)
    else if line == [] then st
    else if st.section == Recommendations then st.(recommendations := st.recommendations + line + "\n")
    else if st.section == KeyFindings && StartsWith(line, "-") then st.(keyFindings := st.keyFindings + [EntryText(line)])
    else if st.section == BestPractices && StartsWith(line, "-") then st.(bestPractices := st.bestPractices + [EntryText(line)])
    else st
  }

  function Run(st: ParseState, lines: seq<string>): ParseState
  {
    if lines == [] then st else Step(Run(st, lines[..|lines| - 1]), lines[|lines| - 1])
  }

  /** `_parse_research_response`. */
  function Parsed(content: string): Research
  {
    var st := Run(Start, Split(content, "\n"));
    Research(Strip(st.recommendations), st.keyFindings, st.bestPractices)
  }

  /** The section in effect after some lines: the one the last header opened, or none. */
  function SectionAfter(lines: seq<string>): Section
  {
    if lines == [] then NoSection
    else
      var h := Header(Strip(lines[|lines| - 1]));
      if h.Some? then h.value else SectionAfter(lines[..|lines| - 1])
  }

  /** The entries of the lines that are in section `sec`, in order. */
  function Entries(lines: seq<string>, sec: Section): seq<string>
  {
    if lines == [] then []
    else
      var init, line := lines[..|lines| - 1], Strip(lines[|lines| - 1]);
      Entries(init, sec) + (if SectionAfter(init) == sec && IsEntry(line) then [EntryText(line)] else [])
  }

  /** The non-blank lines in the recommendations section, each stripped and ended with a newline. */
  function RecommendationLines(lines: seq<string>): string
  {
    if lines == [] then ""
    else
      var init, line := lines[..|lines| - 1], Strip(lines[|lines| - 1]);
      RecommendationLines(init) + (if SectionAfter(init) == Recommendations && Header(line).None? && line != [] then line + "\n" else "")
  }

  /**
   * The parser collects, for each section, exactly what the lines in that section give:
   * the section in effect is the one the last header opened, entries come from the dash
   * lines of the key-findings and best-practices sections, and the recommendations are the
   * non-blank lines of their section.
   */
  lemma {:induction false} RunBySection(lines: seq<string>)
    ensures Run(Start, lines) == ParseState(SectionAfter(lines), RecommendationLines(lines),
      Entries(lines, KeyFindings), Entries(lines, BestPractices))
  {
    if lines != [] {
      var init, last := lines[..|lines| - 1], lines[|lines| - 1];
      RunBySection(init);
      BySectionStep(lines, init, last);
    }
  }

  lemma BySectionStep(lines: seq<string>, init: seq<string>, last: string)
    requires lines != [] && init == lines[..|lines| - 1] && last == lines[|lines| - 1]
    ensures Step(ParseState(SectionAfter(init), RecommendationLines(init), Entries(init, KeyFindings), Entries(init, BestPractices)), last)
      == ParseState(SectionAfter(lines), RecommendationLines(lines), Entries(lines, KeyFindings), Entries(lines, BestPractices))
  {
    StepOf(ParseState(SectionAfter(init), RecommendationLines(init), Entries(init, KeyFindings), Entries(init, BestPractices)), last);
    LinesStep(lines, init, last);
  }

  /** What the by-section definitions give for one more line. */
  lemma LinesStep(lines: seq<string>, init: seq<string>, last: string)
    requires lines != [] && init == lines[..|lines| - 1] && last == lines[|lines| - 1]
    ensures var line := Strip(last); var h := Header(line); var sec := SectionAfter(init);
      && SectionAfter(lines) == (if h.Some? then h.value else sec)
      && RecommendationLines(lines) == RecommendationLines(init) + (if sec == Recommendations && h.None? && line != [] then line + "\n" else "")
      && Entries(lines, KeyFindings) == Entries(init, KeyFindings) + (if sec == KeyFindings && IsEntry(line) then [EntryText(line)] else [])
      && Entries(lines, BestPractices) == Entries(init, BestPractices) + (if sec == BestPractices && IsEntry(line) then [EntryText(line)] else [])
  {
  }

  /** One line of the parser, case by case, written as what it adds to each field. */
  lemma StepOf(st: ParseState, raw: string)
    ensures var line := Strip(raw); var h := Header(line);
      Step(st, raw) == ParseState(if h.Some? then h.value else st.section,
        st.recommendations + (if st.section == Recommendations && h.None? && line != [] then line + "\n" else ""),
        st.keyFindings + (if st.section == KeyFindings && IsEntry(line) then [EntryText(line)] else []),
        st.bestPractices + (if st.section == BestPractices && IsEntry(line) then [EntryText(line)] else []))
  {
    var line := Strip(raw);
    var h := Header(line);
    assert st.recommendations + "" == st.recommendations;
    assert st.keyFindings + [] == st.keyFindings && st.bestPractices + [] == st.bestPractices;
    if h.Some? {
      assert Step(st, raw) == st.(section := h.value);
    } else if line == [] {
      assert Step(st, raw) == st;
    } else if st.section == Recommendations {
      assert st.recommendations + line + "\n" == st.recommendations + (line + "\n");
    }
  }

  /** Line `i` is a dash line, not a header, in section `sec`, whose entry is `e`. */
  predicate EntryAt(lines: seq<string>, i: int, sec: Section, e: string)
    requires 0 <= i < |lines|
  {
    SectionAfter(lines[..i]) == sec && IsEntry(Strip(lines[i])) && e == EntryText(Strip(lines[i]))
  }

  lemma EntryAtInit(lines: seq<string>, i: int, sec: Section, e: string)
    requires 0 <= i < |lines| - 1 && EntryAt(lines[..|lines| - 1], i, sec, e)
    ensures EntryAt(lines, i, sec, e)
  {
    var init := lines[..|lines| - 1];
    InitPrefix(lines, init, i);
    assert SectionAfter(init[..i]) == SectionAfter(lines[..i]);
  }

  /** Every entry comes from a dash line, not a header, that lies in the entry's section. */
  lemma {:induction false} EntriesFromLines(lines: seq<string>, sec: Section, e: string)
    requires e in Entries(lines, sec)
    ensures exists i :: 0 <= i < |lines| && EntryAt(lines, i, sec, e)
  {
    var init := lines[..|lines| - 1];
    var line := Strip(lines[|lines| - 1]);
    assert Entries(lines, sec) == Entries(init, sec) + (if SectionAfter(init) == sec && IsEntry(line) then [EntryText(line)] else []);
    if e in Entries(init, sec) {
      EntriesFromLines(init, sec, e);
      var i :| 0 <= i < |init| && EntryAt(init, i, sec, e);
      EntryAtInit(lines, i, sec, e);
    } else {
      assert EntryAt(lines, |lines| - 1, sec, e);
    }
  }

  /** With no header line, nothing is collected: lines before the first header are ignored. */
  lemma {:induction false} HeaderFreeIgnored(lines: seq<string>)
    requires forall i :: 0 <= i < |lines| ==> Header(Strip(lines[i])).None?
    ensures Run(Start, lines) == Start
  {
    if lines != [] {
      HeaderFreeIgnored(lines[..|lines| - 1]);
    }
  }

  lemma {:induction false} RunAppend(st: ParseState, a: seq<string>, b: seq<string>)
    ensures Run(st, a + b) == Run(Run(st, a), b)
  {
    if b != [] {
      assert (a + b)[..|a + b| - 1] == a + b[..|b| - 1];
      RunAppend(st, a, b[..|b| - 1]);
    } else {
      assert a + b == a;
    }
  }

  /** Lines before the first header change nothing: the parse of the rest is the parse of all. */
  lemma HeaderFreePrefix(pre: seq<string>, rest: seq<string>)
    requires forall i :: 0 <= i < |pre| ==> Header(Strip(pre[i])).None?
    ensures Run(Start, pre + rest) == Run(Start, rest)
  {
    RunAppend(Start, pre, rest);
    HeaderFreeIgnored(pre);
  }

  /** `_parse_research_response`, a loop over the lines carrying the current section. */
  method ParseResponse(content: string) returns (r: Research)
    ensures r == Parsed(content)
  {
    var lines := Split(content, "\n");
    var st := Start;
    for i := 0 to |lines|
      invariant st == Run(Start, lines[..i])
    {
      RunSnoc(lines, i);
      st := StepLine(st, lines[i]);
    }
    assert lines[..|lines|] == lines;
    r := Research(Strip(st.recommendations), st.keyFindings, st.bestPractices);
  }

  lemma RunSnoc(lines: seq<string>, i: nat)
    requires i < |lines|
    ensures Run(Start, lines[..i + 1]) == Step(Run(Start, lines[..i]), lines[i])
  {
    var t := lines[..i + 1];
    assert t[..|t| - 1] == lines[..i] && t[|t| - 1] == lines[i];
  }

  /** The body of the parser's loop: a header switches the section, a blank line is skipped, else the line is collected. */
  method StepLine(st: ParseState, raw: string) returns (r: ParseState)
    ensures r == Step(st, raw)
  {
    var line := Strip(raw);
    var header := Header(line);
    if header.Some? {
      return st.(section := header.value);
    }
    if line == [] {
      return st;
    }
    r := st;
    if st.section == Recommendations {
      r := st.(recommendations := st.recommendations + line + "\n");
    } else if st.section == KeyFindings && StartsWith(line, "-") {
      r := st.(keyFindings := st.keyFindings + [Strip(line[1..])]);
    } else if st.section == BestPractices && StartsWith(line, "-") {
      r := st.(bestPractices := st.bestPractices + [Strip(line[1..])]);
    }
  }

  /** What a failed call returns. */
  function Unavailable(featureName: string): (r: Research)
    ensures r.keyFindings == [] && r.bestPractices == []
  {
    Research("Research unavailable. Implement using standard best practices for " + featureName + ".", [], [])
  }

  /** The cache key as written: the name and the description joined by ":". */
  function CacheKey(featureName: string, description: string): string
  {
    featureName + ":" + description
  }

  /** The lookup as written: a feature finds whatever was cached under its joined key. */
  function CachedAsWritten(cache: map<string, Research>, featureName: string, description: string): Option<Research>
  {
    var key := CacheKey(featureName, description);
    if key in cache then Some(cache[key]) else None
  }

  /**
   * Two different features can share a key: research cached for the feature "a:b" described
   * as "c" is handed to the feature "a" described as "b:c" without a call.
   */
  lemma CacheKeyCollision(r: Research)
    ensures ("a:b", "c") != ("a", "b:c")
    ensures CacheKey("a:b", "c") == CacheKey("a", "b:c")
    ensures CachedAsWritten(map[CacheKey("a:b", "c") := r], "a", "b:c") == Some(r)
  {
    assert CacheKey("a:b", "c") == "a:b:c" == CacheKey("a", "b:c");
  }

  /** The feature name guidance uses: the text before the first ":", else the whole text. */
  function FeatureName(task: string): (r: string)
    ensures !Contains(r, ":") && StartsWith(task, r)
    ensures !Contains(task, ":") ==> r == task
  {
    if Contains(task, ":") then
      var k := Find(task, ":");
      assert Split(task, ":")[0] == task[..k];
      Split(task, ":")[0]
    else task
  }

  /**
   * Through guidance the as-written key cannot collide: the name is the text before the
   * first ":", so the key determines the task text.
   */
  lemma GuidanceKeysDistinct(t1: string, t2: string)
    requires CacheKey(FeatureName(t1), t1) == CacheKey(FeatureName(t2), t2)
    ensures t1 == t2
  {
    var n1, n2 := FeatureName(t1), FeatureName(t2);
    var k := CacheKey(n1, t1);
    FindCharAfter(n1, ':', t1);
    FindCharAfter(n2, ':', t2);
    assert k == n1 + [':'] + t1;
    assert k == n2 + [':'] + t2;
    assert |n1| == |n2|;
    assert t1 == k[|n1| + 1..] == t2;
  }

  /** The corrected lookup: research is cached under the (name, description) pair. */
  function Lookup(cache: map<(string, string), Research>, featureName: string, description: string): Option<Research>
  {
    if (featureName, description) in cache then Some(cache[(featureName, description)]) else None
  }

  /** Under the pair key, caching one feature's research never answers a lookup for another feature. */
  lemma StoreIsolated(cache: map<(string, string), Research>, name: string, description: string, r: Research,
                      otherName: string, otherDescription: string)
    requires (name, description) != (otherName, otherDescription)
    ensures Lookup(cache[(name, description) := r], otherName, otherDescription) == Lookup(cache, otherName, otherDescription)
    ensures Lookup(cache[(name, description) := r], name, description) == Some(r)
  {
  }

  /** The engine: research cached per feature, keyed by the (name, description) pair. */
  class Engine {
    var cache: map<(string, string), Research>

    constructor ()
      ensures cache == map[]
    {
      cache := map[];
    }

    /**
     * `research_and_recommend`. A cached feature gets its cached research and no call is
     * made; otherwise the reply is parsed and cached, and a failed call gives the fallback
     * text, uncached.
     */
    method ResearchFeature(featureName: string, description: string, reply: Option<string>) returns (r: Research, called: bool)
      modifies this
      ensures called <==> (featureName, description) !in old(cache)
      ensures !called ==> r == old(cache)[(featureName, description)] && cache == old(cache)
      ensures called && reply.Some? ==> r == Parsed(reply.value) && cache == old(cache)[(featureName, description) := r]
      ensures called && reply.None? ==> r == Unavailable(featureName) && cache == old(cache)
    {
      var key := (featureName, description);
      if key in cache {
        return cache[key], false;
      }
      called := true;
      if reply.None? {
        r := Unavailable(featureName);
        return;
      }
      r := ParseResponse(reply.value);
      cache := cache[key := r];
    }

    /** `get_implementation_guidance`: research on the text's feature name, formatted. */
    method Guidance(task: string, reply: Option<string>) returns (g: string, research: Research)
      modifies this
      ensures (FeatureName(task), task) in old(cache) ==> research == old(cache)[(FeatureName(task), task)]
      ensures ((FeatureName(task), task) in cache && cache[(FeatureName(task), task)] == research)
        || (reply.None? && research == Unavailable(FeatureName(task)))
      ensures g == GuidanceText(research)
    {
      var called;
      research, called := ResearchFeature(FeatureName(task), task, reply);
      g := GuidanceText(research);
    }
  }

  /** A bulleted list, one line per item. */
  function Bullets(items: seq<string>): string
  {
    Join(BulletLines(items), "\n")
  }

  function BulletLines(items: seq<string>): seq<string>
  {
    seq(|items|, i requires 0 <= i < |items| => "  \U{2022} " + items[i])
  }

  lemma BulletListed(items: seq<string>, i: int)
    requires 0 <= i < |items|
    ensures Contains(Bullets(items), "  \U{2022} " + items[i])
  {
    JoinContainsPart(BulletLines(items), "\n", i);
  }

  /** The guidance text: the recommendations, then the findings and the practices as bullets, stripped. */
  function GuidanceText(r: Research): string
  {
    Strip("\n" + GuidanceHead(r) + Bullets(r.keyFindings) + GuidanceTail(r))
  }

  function GuidanceHead(r: Research): string
  {
    "\U{1F52C} EVIDENCE-BASED IMPLEMENTATION GUIDANCE:\n\n" + r.recommendations + "\n\nKEY RESEARCH FINDINGS:\n"
  }

  function GuidanceTail(r: Research): string
  {
    "\n\nBEST PRACTICES TO FOLLOW:\n" + Bullets(r.bestPractices) + "\n"
  }

  lemma HeadOpening(r: Research)
    ensures StartsWith(GuidanceHead(r), "\U{1F52C} EVIDENCE-BASED IMPLEMENTATION GUIDANCE:")
    ensures StartsWith(GuidanceHead(r) + Bullets(r.keyFindings) + "\n\n", "\U{1F52C} EVIDENCE-BASED IMPLEMENTATION GUIDANCE:")
    ensures GuidanceHead(r)[0] == '\U{1F52C}'
  {
    var opening := "\U{1F52C} EVIDENCE-BASED IMPLEMENTATION GUIDANCE:";
    assert "\U{1F52C} EVIDENCE-BASED IMPLEMENTATION GUIDANCE:\n\n" == opening + "\n\n";
    assert GuidanceHead(r)[..|opening|] == opening;
  }

  /** Stripping on the right keeps everything up to a character that is not white space. */
  lemma RStripKeeps(s: string, n: int)
    requires 0 <= n < |s| && !IsSpace(s[n])
    ensures n < |RStrip(s)| && RStrip(s)[..n] == s[..n]
  {
  }

  /** Stripping keeps whatever precedes a non-blank text behind a single leading newline. */
  lemma StripAfterNewline(t: string, n: int)
    requires 0 <= n < |t| && !IsSpace(t[0]) && !IsSpace(t[n])
    ensures Strip("\n" + t)[..n] == t[..n]
  {
    assert ("\n" + t)[1..] == t;
    assert LStrip(t) == t;
    assert LStrip("\n" + t) == t;
    RStripKeeps(t, n);
  }

  /** Stripping leaves the heading, the recommendations and the findings list in place at the front. */
  lemma GuidancePrefix(r: Research)
    ensures |GuidanceHead(r)| + |Bullets(r.keyFindings)| + 2 <= |GuidanceText(r)|
    ensures GuidanceText(r)[..|GuidanceHead(r)| + |Bullets(r.keyFindings)| + 2] ==
      GuidanceHead(r) + Bullets(r.keyFindings) + "\n\n"
  {
    HeadOpening(r);
    TailOpening(r);
    StripKeepsFront(GuidanceHead(r), Bullets(r.keyFindings), GuidanceTail(r), GuidanceText(r));
  }

  lemma Regroup(a: string, b: string, c: string, d: string)
    ensures a + b + c + d == a + (b + c + d)
  {
  }

  lemma TailOpening(r: Research)
    ensures |GuidanceTail(r)| > 2 && GuidanceTail(r)[..2] == "\n\n" && GuidanceTail(r)[2] == 'B'
  {
    var tail := GuidanceTail(r);
    var opening := "\n\nBEST PRACTICES TO FOLLOW:\n";
    assert tail == opening + (Bullets(r.bestPractices) + "\n");
    assert tail[..3] == opening[..3];
  }

  /** Stripping a text behind a newline keeps its front up to the first non-blank character of its last part. */
  lemma StripKeepsFront(head: string, list: string, tail: string, g: string)
    requires head != [] && !IsSpace(head[0]) && |tail| > 2 && tail[..2] == "\n\n" && tail[2] == 'B'
    requires g == Strip("\n" + head + list + tail)
    ensures |head| + |list| + 2 <= |g| && g[..|head| + |list| + 2] == head + list + "\n\n"
  {
    var t := head + list + tail;
    Regroup("\n", head, list, tail);
    var n := |head| + |list| + 2;
    assert t[n] == tail[2] && t[0] == head[0];
    StripAfterNewline(t, n);
    PrefixThrough(head, list, tail, 2);
  }

  lemma PrefixThrough(a: string, b: string, c: string, k: int)
    requires 0 <= k <= |c|
    ensures (a + b + c)[..|a| + |b| + k] == a + b + c[..k]
  {
  }

  /** The guidance opens with its heading. */
  lemma GuidanceOpening(r: Research)
    ensures StartsWith(GuidanceText(r), "\U{1F52C} EVIDENCE-BASED IMPLEMENTATION GUIDANCE:")
  {
    GuidancePrefix(r);
    HeadOpening(r);
    PrefixChain("\U{1F52C} EVIDENCE-BASED IMPLEMENTATION GUIDANCE:", GuidanceHead(r) + Bullets(r.keyFindings) + "\n\n", GuidanceText(r));
  }

  lemma PrefixChain(p: string, q: string, g: string)
    requires p <= q && |q| <= |g| && g[..|q|] == q
    ensures p <= g
  {
    assert g[..|p|] == q[..|p|];
  }

  lemma ContainsInPrefix(g: string, p: string, x: string)
    requires |p| <= |g| && g[..|p|] == p && Contains(p, x)
    ensures Contains(g, x)
  {
    assert g[0..|p|] == p;
    ContainsInSlice(g, 0, |p|, x);
  }

  /** The guidance lists every key finding as a bullet. */
  lemma GuidanceListsFindings(r: Research, i: int)
    requires 0 <= i < |r.keyFindings|
    ensures Contains(GuidanceText(r), "  \U{2022} " + r.keyFindings[i])
  {
    GuidancePrefix(r);
    var head, list := GuidanceHead(r), Bullets(r.keyFindings);
    var x := "  \U{2022} " + r.keyFindings[i];
    BulletListed(r.keyFindings, i);
    ContainsInMiddle(head, list, "\n\n", x);
    ContainsInPrefix(GuidanceText(r), head + list + "\n\n", x);
  }
}
