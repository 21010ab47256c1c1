/**
 * The coaching-website standards: the table of pages a professional coaching site
 * should have, the gaps between that table and an analysed site, and the prioritised
 * recommendations that close them.
 */
module CoachingStandards {
  import opened Strings
  import Sorting

  /** One row of the required-pages table. */
  datatype Page = Page(name: string, priority: string, elements: seq<string>, guidelines: string)

  /** `get_required_pages`, in the table's order. */
  const RequiredPages: seq<Page> := [
    Page("homepage", "critical", [
      "Hero section with clear value proposition",
      "Coach photo and brief intro",
      "Services overview",
      "Client testimonials",
      "Clear call-to-action (Book Now/Contact)",
      "Trust indicators (certifications, experience)",
      "Social proof (client count, success stories)"], "Focus on transformation and results"),
    Page("about", "critical", [
      "Professional coach bio",
      "Credentials and certifications",
      "Coaching philosophy",
      "Personal story/journey",
      "Professional photo",
      "Why you became a coach"], "Build trust and connection"),
    Page("services", "critical", [
      "Detailed service descriptions",
      "Coaching packages/programs",
      "What's included in each package",
      "Duration and format",
      "Pricing (or 'Contact for pricing')",
      "Who it's for",
      "Expected outcomes"], "Be specific about deliverables"),
    Page("contact", "critical", [
      "Contact form (name, email, message)",
      "Email address",
      "Phone number (optional)",
      "Booking calendar integration",
      "Response time expectation",
      "Privacy policy link"], "Make it easy to reach you"),
    Page("testimonials", "high", [
      "Client testimonials with names",
      "Before/after stories",
      "Specific results achieved",
      "Client photos (if available)",
      "Video testimonials (bonus)",
      "Case studies"], "Show real transformation"),
    Page("blog", "medium", [
      "Coaching tips and insights",
      "Client success stories",
      "Industry trends",
      "Personal development content",
      "SEO-optimized articles"], "Demonstrate expertise"),
    Page("faq", "medium", [
      "Common questions answered",
      "Coaching process explained",
      "Payment and cancellation policies",
      "What to expect",
      "How coaching works"], "Address objections"),
    Page("pricing", "medium", [
      "Clear pricing structure",
      "Package comparisons",
      "Payment options",
      "Money-back guarantee (if offered)",
      "Value justification"], "Be transparent")
  ]

  /**
   * The part of the website analysis report that the standards and the task generator
   * read: the structure flags, the contact-form and SSL features (absent is false), the
   * load time (absent is 0) and the URLs of the broken links.
   */
  datatype Analysis = Analysis(structure: map<string, bool>, contactForm: bool, ssl: bool, loadTime: real, brokenLinks: seq<string>)

  datatype Gap = Gap(page: string, priority: string, elements: seq<string>, guidelines: string)

  /** `not website_structure.get(page, False)`. */
  predicate Missing(structure: map<string, bool>, page: string)
  {
    !(page in structure && structure[page])
  }

  function GapOf(p: Page): Gap
  {
    Gap(p.name, p.priority, p.elements, p.guidelines)
  }

  /** The gaps of `pages` against the structure: one per missing page, in table order. */
  function Gaps(pages: seq<Page>, structure: map<string, bool>): (r: seq<Gap>)
    ensures |r| <= |pages|
  {
    if pages == [] then []
    else
      var last := pages[|pages| - 1];
      Gaps(pages[..|pages| - 1], structure) + (if Missing(structure, last.name) then [GapOf(last)] else [])
  }

  /** Gaps keep the table's order: the gaps of two tables one after the other are the gaps of each, one after the other. */
  lemma {:induction false} GapsAppend(a: seq<Page>, b: seq<Page>, structure: map<string, bool>)
    ensures Gaps(a + b, structure) == Gaps(a, structure) + Gaps(b, structure)
    decreases |b|
  {
    if b == [] {
      assert a + b == a;
    } else {
      var init := b[..|b| - 1];
      assert (a + b)[..|a + b| - 1] == a + init;
      GapsAppend(a, init, structure);
    }
  }

  /** A page of the table has a gap exactly when it is missing from the site, and every gap comes from a missing page. */
  lemma {:induction false} GapsMembers(pages: seq<Page>, structure: map<string, bool>, p: Page)
    ensures p in pages ==> (GapOf(p) in Gaps(pages, structure) <==> Missing(structure, p.name))
    ensures forall g :: g in Gaps(pages, structure) ==> exists q :: q in pages && Missing(structure, q.name) && g == GapOf(q)
  {
    if pages != [] {
      var init, last := pages[..|pages| - 1], pages[|pages| - 1];
      GapsMembers(init, structure, p);
      assert pages == init + [last];
      forall g | g in Gaps(pages, structure)
        ensures exists q :: q in pages && Missing(structure, q.name) && g == GapOf(q)
      {
        if g in Gaps(init, structure) {
          var q :| q in init && Missing(structure, q.name) && g == GapOf(q);
          assert q in pages;
        } else {
          assert g == GapOf(last) && last in pages;
        }
      }
    }
  }

  /** `analyze_gaps`. */
  method AnalyzeGaps(structure: map<string, bool>) returns (gaps: seq<Gap>)
    ensures gaps == Gaps(RequiredPages, structure)
  {
    gaps := [];
    for i := 0 to |RequiredPages|
      invariant gaps == Gaps(RequiredPages[..i], structure)
    {
      assert RequiredPages[..i + 1][..i] == RequiredPages[..i];
      var page := RequiredPages[i];
      if Missing(structure, page.name) {
        gaps := gaps + [GapOf(page)];
      }
    }
    assert RequiredPages[..|RequiredPages|] == RequiredPages;
  }

  /** A recommendation; `guidelines` is "" where the source's dictionary has no such key. */
  datatype Recommendation = Recommendation(priority: string, category: string, title: string, description: string, elements: seq<string>, guidelines: string)

  function StructureRecommendation(g: Gap): Recommendation
  {
    Recommendation(g.priority, "structure", "Add " + Title(g.page) + " Page",
      "Create a professional " + g.page + " page with required elements", g.elements, g.guidelines)
  }

  const ContactFormRecommendation := Recommendation("critical", "feature", "Add Contact Form",
    "Implement working contact form with validation",
    ["Name field", "Email field", "Message field", "Submit button", "Validation", "Email notification"], "")

  const SslRecommendation := Recommendation("critical", "security", "Enable SSL/HTTPS",
    "Secure the website with SSL certificate", ["SSL certificate", "HTTPS redirect", "Security headers"], "")

  const SpeedRecommendation := Recommendation("high", "performance", "Optimize Page Speed",
    "Improve loading time to under 3 seconds", ["Optimize images", "Minify CSS/JS", "Enable caching", "Use CDN"], "")

  /** `priority_order.get(priority, 4)`. */
  function Rank(priority: string): real
  {
    if priority == "critical" then 0.0
    else if priority == "high" then 1.0
    else if priority == "medium" then 2.0
    else if priority == "low" then 3.0
    else 4.0
  }

  function RecommendationRank(r: Recommendation): real
  {
    Rank(r.priority)
  }

  /** Different gaps give different recommendations: the description names the page. */
  lemma StructureRecommendationInjective(g: Gap, h: Gap)
    requires StructureRecommendation(g) == StructureRecommendation(h)
    ensures g == h
  {
    var pre, suf := "Create a professional ", " page with required elements";
    var d, e := pre + g.page + suf, pre + h.page + suf;
    assert d == e;
    assert g.page == d[|pre|..|pre| + |g.page|];
    assert h.page == e[|pre|..|pre| + |h.page|];
  }

  function StructureRecommendations(gaps: seq<Gap>): (r: seq<Recommendation>)
    ensures |r| == |gaps| && forall i :: 0 <= i < |r| ==> r[i] == StructureRecommendation(gaps[i])
  {
    seq(|gaps|, i requires 0 <= i < |gaps| => StructureRecommendation(gaps[i]))
  }

  /** The recommendations before sorting: the structure gaps of the table, then the feature, security and speed checks. */
  function Unsorted(pages: seq<Page>, a: Analysis): seq<Recommendation>
  {
    StructureRecommendations(Gaps(pages, a.structure))
      + (if !a.contactForm then [ContactFormRecommendation] else [])
      + (if !a.ssl then [SslRecommendation] else [])
      + (if a.loadTime > 3.0 then [SpeedRecommendation] else [])
  }

  /** The recommendations for a table of pages, stably sorted by priority rank. */
  function RecommendationsFor(pages: seq<Page>, a: Analysis): seq<Recommendation>
  {
    Sorting.SortBy(Unsorted(pages, a), RecommendationRank)
  }

  /** `generate_recommendations`. */
  function Recommendations(a: Analysis): seq<Recommendation>
  {
    RecommendationsFor(RequiredPages, a)
  }

  /** `generate_recommendations`, appending in a loop and sorting at the end. */
  method GenerateRecommendations(a: Analysis) returns (recs: seq<Recommendation>)
    ensures recs == Recommendations(a)
  {
    var gaps := AnalyzeGaps(a.structure);
    var found := [];
    for i := 0 to |gaps|
      invariant found == StructureRecommendations(gaps[..i])
    {
      found := found + [StructureRecommendation(gaps[i])];
    }
    assert gaps[..|gaps|] == gaps;
    found := found + (if !a.contactForm then [ContactFormRecommendation] else []);
    found := found + (if !a.ssl then [SslRecommendation] else []);
    found := found + (if a.loadTime > 3.0 then [SpeedRecommendation] else []);
    recs := Sorting.SortBy(found, RecommendationRank);
  }

  /**
   * The recommendations are ordered by rank; within one rank they keep the order in which
   * they were produced (table order for pages, then contact form, SSL, speed); and there is
   * one per gap plus one per failed check. This holds for any table of pages.
   */
  lemma RecommendationsOrdered(pages: seq<Page>, a: Analysis)
    ensures var r := RecommendationsFor(pages, a);
      Sorting.SortedBy(r, RecommendationRank) &&
      (forall k :: Sorting.Filter(r, RecommendationRank, k) == Sorting.Filter(Unsorted(pages, a), RecommendationRank, k)) &&
      |r| == |Gaps(pages, a.structure)| + (if !a.contactForm then 1 else 0) + (if !a.ssl then 1 else 0) + (if a.loadTime > 3.0 then 1 else 0)
  {
  }

  /** A recommendation other than a structure one is among the unsorted ones exactly when its check failed. */
  lemma InUnsorted(pages: seq<Page>, a: Analysis, r: Recommendation)
    requires r.category != "structure"
    ensures r in Unsorted(pages, a) <==>
      (r == ContactFormRecommendation && !a.contactForm) || (r == SslRecommendation && !a.ssl) ||
      (r == SpeedRecommendation && a.loadTime > 3.0)
  {
    var s := StructureRecommendations(Gaps(pages, a.structure));
    assert r !in s;
  }

  /** Each check adds its recommendation exactly when it fails. */
  lemma ConditionalRecommendations(pages: seq<Page>, a: Analysis)
    ensures ContactFormRecommendation in RecommendationsFor(pages, a) <==> !a.contactForm
    ensures SslRecommendation in RecommendationsFor(pages, a) <==> !a.ssl
    ensures SpeedRecommendation in RecommendationsFor(pages, a) <==> a.loadTime > 3.0
  {
    assert ContactFormRecommendation.category == "feature";
    assert SslRecommendation.category == "security";
    assert SpeedRecommendation.category == "performance";
    InUnsorted(pages, a, ContactFormRecommendation);
    InUnsorted(pages, a, SslRecommendation);
    InUnsorted(pages, a, SpeedRecommendation);
    Sorting.SortByMembers(Unsorted(pages, a), RecommendationRank, ContactFormRecommendation);
    Sorting.SortByMembers(Unsorted(pages, a), RecommendationRank, SslRecommendation);
    Sorting.SortByMembers(Unsorted(pages, a), RecommendationRank, SpeedRecommendation);
  }

  /** A page of the table gets its "Add <Page> Page" structure recommendation exactly when it is missing. */
  lemma PageRecommendation(pages: seq<Page>, a: Analysis, p: Page)
    requires p in pages
    ensures StructureRecommendation(GapOf(p)) in RecommendationsFor(pages, a) <==> Missing(a.structure, p.name)
    ensures StructureRecommendation(GapOf(p)).title == "Add " + Title(p.name) + " Page"
    ensures StructureRecommendation(GapOf(p)).category == "structure"
  {
    var gaps := Gaps(pages, a.structure);
    var rec := StructureRecommendation(GapOf(p));
    Sorting.SortByMembers(Unsorted(pages, a), RecommendationRank, rec);
    GapsMembers(pages, a.structure, p);
    var s := StructureRecommendations(gaps);
    assert rec in Unsorted(pages, a) <==> rec in s;
    if rec in s {
      var i :| 0 <= i < |s| && s[i] == rec;
      StructureRecommendationInjective(gaps[i], GapOf(p));
    }
    if GapOf(p) in gaps {
      var i :| 0 <= i < |gaps| && gaps[i] == GapOf(p);
      assert s[i] == rec;
    }
  }

  /** A site without SSL always gets a critical recommendation first. */
  lemma CriticalFirst(pages: seq<Page>, a: Analysis)
    requires !a.ssl
    ensures |RecommendationsFor(pages, a)| > 0 && RecommendationsFor(pages, a)[0].priority == "critical"
  {
    assert SslRecommendation.category == "security";
    InUnsorted(pages, a, SslRecommendation);
    var r := RecommendationsFor(pages, a);
    Sorting.SortByHead(Unsorted(pages, a), RecommendationRank);
    Sorting.SortByMembers(Unsorted(pages, a), RecommendationRank, SslRecommendation);
    assert RecommendationRank(r[0]) <= RecommendationRank(SslRecommendation);
    RankZero(r[0].priority);
  }

  /** Only "critical" has the lowest rank. */
  lemma RankZero(priority: string)
    requires Rank(priority) <= 0.0
    ensures priority == "critical"
  {
  }
}
