/**
 * The website analyzer: it crawls a site from its base URL, following internal links to
 * a bounded depth and page count, then classifies the pages it found into the site
 * structure the coaching standards expect and counts the site's features.
 *
 * The network is a parameter: `site` gives the response each URL would get. The links of
 * a page are given already resolved against the page's URL, as `urljoin` leaves them.
 */
module WebsiteAnalyzer {
  import opened Wrappers
  import opened Strings
  import opened Lists

  /** What a page's HTML offers the analyzer. */
  datatype Html = Html(title: Option<string>, forms: nat, images: nat, words: nat,
                       metaDescription: Option<string>, links: seq<string>)

  /** What fetching a URL gives: a status and a body, or a failure. */
  datatype Response = Fetched(status: int, html: Html) | Failed(error: string)

  datatype PageInfo = PageInfo(url: string, title: string, hasForms: bool, hasImages: bool,
                               wordCount: nat, metaDescription: string)

  datatype BrokenLink = BadStatus(url: string, status: int) | Unreachable(url: string, error: string)

  /** The page record for a fetched URL, with the source's placeholders for a missing title or description. */
  function PageFrom(url: string, html: Html): (r: PageInfo)
    ensures r.url == url
    ensures html.title.None? ==> r.title == "No title"
    ensures html.metaDescription.None? || html.metaDescription.value == "" ==> r.metaDescription == "No description"
    ensures r.hasForms <==> html.forms > 0
  {
    PageInfo(url,
      if html.title.Some? then html.title.value else "No title",
      html.forms > 0, html.images > 0, html.words,
      if html.metaDescription.Some? && html.metaDescription.value != "" then html.metaDescription.value else "No description")
  }

  /** `rstrip('/')`. */
  function TrimSlashes(s: string): (r: string)
    ensures |r| <= |s| && r == s[..|r|]
    ensures r == [] || r[|r| - 1] != '/'
    ensures forall i :: |r| <= i < |s| ==> s[i] == '/'
  {
    if s != [] && s[|s| - 1] == '/' then TrimSlashes(s[..|s| - 1]) else s
  }

  predicate IsSchemeChar(c: char)
  {
    IsLetter(c) || '0' <= c <= '9' || c == '+' || c == '-' || c == '.'
  }

  /** The URL after its scheme and colon, when it has a scheme; else the whole URL. */
  function AfterScheme(url: string): string
  {
    var i := Find(url, ":");
    if i > 0 && IsLetter(url[0]) && (forall j :: 0 <= j < i ==> IsSchemeChar(url[j])) then url[i + 1..] else url
  }

  /** The index of the first '/', '?' or '#', or the length when there is none. */
  function FirstDelimiter(t: string): (r: nat)
    ensures r <= |t|
    ensures r < |t| ==> t[r] in "/?#"
    ensures forall j :: 0 <= j < r ==> t[j] !in "/?#"
  {
    if t == [] then 0 else if t[0] in "/?#" then 0 else 1 + FirstDelimiter(t[1..])
  }

  /** `urlparse(url).netloc`: what follows "//" up to the first '/', '?' or '#'. */
  function Netloc(url: string): string
  {
    NetlocOf(AfterScheme(url))
  }

  function NetlocOf(rest: string): (r: string)
    ensures !Contains(r, "/")
  {
    if StartsWith(rest, "//") then
      var t := rest[2..];
      var n := FirstDelimiter(t);
      assert !Contains(t[..n], "/") by {
        forall j | 0 <= j < n
          ensures t[..n][j] != '/'
        {
          assert t[..n][j] == t[j];
        }
        NotContainsChar(t[..n], '/');
      }
      t[..n]
    else []
  }

  /** `_is_internal_link`: the link's host is the base's host. */
  predicate IsInternal(base: string, url: string)
  {
    Netloc(base) == Netloc(url)
  }

  /** Appending a character keeps every prefix and extends every suffix. */
  lemma SnocSlices(s: string, t: string, c: char, i: nat)
    requires t == s + [c] && i <= |s|
    ensures t[..i] == s[..i] && t[i..] == s[i..] + [c]
    ensures forall j :: 0 <= j < i ==> t[j] == s[j]
  {
  }

  lemma {:induction false} FirstDelimiterAppend(t: string)
    ensures FirstDelimiter(t + "/") == FirstDelimiter(t)
    decreases |t|
  {
    if t != [] {
      SnocSlices(t, t + "/", '/', 1);
      FirstDelimiterAppend(t[1..]);
    }
  }

  lemma {:induction false} NetlocOfAppend(rest: string)
    ensures NetlocOf(rest + "/") == NetlocOf(rest)
  {
    var t := rest + "/";
    if StartsWith(rest, "//") {
      SnocSlices(rest, t, '/', 2);
      var a, b := t[2..], rest[2..];
      FirstDelimiterAppend(b);
      var n := FirstDelimiter(b);
      SnocSlices(b, a, '/', n);
    } else if StartsWith(t, "//") {
      assert t[..|rest|] == rest;
      assert t[0] == '/' && t[1] == '/';
      assert |rest| == 1 && rest[0] == t[0];
      assert rest == "/";
      assert FirstDelimiter(t[2..]) == 0;
    }
  }

  lemma AfterSchemeAppend(url: string)
    ensures AfterScheme(url + "/") == AfterScheme(url) + "/"
  {
    var u := url + "/";
    var i := Find(url, ":");
    FindAppendSlash(url);
    if i > 0 {
      SnocSlices(url, u, '/', i + 1);
    }
  }

  lemma FindAppendSlash(url: string)
    ensures Find(url + "/", ":") == Find(url, ":")
  {
    var u := url + "/";
    var i := Find(url, ":");
    if i >= 0 {
      assert u[i..i + 1] == url[i..i + 1];
      assert OccursAt(u, ":", i);
      forall j | 0 <= j < i
        ensures !OccursAt(u, ":", j)
      {
        assert !OccursAt(url, ":", j);
        assert u[j..j + 1] == url[j..j + 1];
      }
    } else {
      forall j | 0 <= j
        ensures !OccursAt(u, ":", j)
      {
        if j < |url| {
          assert !OccursAt(url, ":", j);
          assert u[j..j + 1] == url[j..j + 1];
        } else if j == |url| {
          assert u[j..j + 1] == "/";
        }
      }
      ContainsIff(u, ":");
    }
  }

  lemma NetlocAppendSlash(url: string)
    ensures Netloc(url + "/") == Netloc(url)
  {
    AfterSchemeAppend(url);
    NetlocOfAppend(AfterScheme(url));
  }

  /** A value that ignores one trailing slash ignores them all. */
  lemma {:induction false} TrimSlashesKeeps(f: string -> string, url: string)
    requires forall s :: f(s + "/") == f(s)
    ensures f(TrimSlashes(url)) == f(url)
    decreases |url|
  {
    if url != [] && url[|url| - 1] == '/' {
      var init := url[..|url| - 1];
      TrimSlashesKeeps(f, init);
      assert url == init + "/";
    }
  }

  /** Trailing slashes never change the host, so stripping them from the base keeps every link's verdict. */
  lemma NetlocTrimSlashes(url: string)
    ensures Netloc(TrimSlashes(url)) == Netloc(url)
  {
    forall s
      ensures Netloc(s + "/") == Netloc(s)
    {
      NetlocAppendSlash(s);
    }
    TrimSlashesKeeps(Netloc, url);
  }

  lemma InternalIgnoresTrailingSlashes(base: string, url: string)
    ensures IsInternal(TrimSlashes(base), url) <==> IsInternal(base, url)
  {
    NetlocTrimSlashes(base);
  }

  /** The structure entries, in the source's order. */
  const PageTypes: seq<string> := ["homepage", "about", "services", "contact", "blog", "testimonials", "pricing"]

  /** The page's URL is the base URL, with or without one trailing slash, in any case. */
  predicate IsHome(base: string, page: PageInfo)
  {
    Lower(page.url) == Lower(base) || Lower(page.url) == Lower(base) + "/"
  }

  /**
   * The one structure entry a page sets, if any: the homepage test first, then the
   * keyword tests on the lower-cased URL and title in the source's order.
   */
  function PageKind(base: string, page: PageInfo): (r: Option<string>)
    ensures r.Some? ==> r.value in PageTypes
    ensures IsHome(base, page) ==> r == Some("homepage")
  {
    var url, title := Lower(page.url), Lower(page.title);
    if IsHome(base, page) then Some("homepage")
    else KeywordKind(url, title)
  }

  function KeywordKind(url: string, title: string): (r: Option<string>)
    ensures r.Some? ==> r.value in PageTypes[1..]
  {
    if Contains(url, "about") || Contains(title, "about") then Some("about")
    else if Contains(url, "service") || Contains(title, "service") then Some("services")
    else if Contains(url, "contact") || Contains(title, "contact") then Some("contact")
    else if Contains(url, "blog") || Contains(title, "blog") then Some("blog")
    else if Contains(url, "testimonial") || Contains(title, "testimonial") || Contains(url, "review") then Some("testimonials")
    else if Contains(url, "pricing") || Contains(url, "price") then Some("pricing")
    else None
  }

  /** The homepage test as written: the lower-cased URL against the base as given. */
  function PageKindAsWritten(base: string, page: PageInfo): (r: Option<string>)
    ensures r.Some? ==> r.value in PageTypes
    ensures Lower(page.url) == base || Lower(page.url) == base + "/" ==> r == Some("homepage")
  {
    var url, title := Lower(page.url), Lower(page.title);
    if url == base || url == base + "/" then Some("homepage")
    else KeywordKind(url, title)
  }

  /**
   * With a capital letter in the base URL, the base URL's own page is never recognised as
   * the homepage as written, while the case-insensitive test recognises it.
   */
  lemma HomepageMissedAsWritten()
    ensures PageKindAsWritten("http://A", PageInfo("http://A", "", false, false, 0, "No description")).None?
    ensures PageKind("http://A", PageInfo("http://A", "", false, false, 0, "No description")) == Some("homepage")
  {
    SampleMissedAsWritten(PageInfo("http://A", "", false, false, 0, "No description"));
  }

  lemma SampleMissedAsWritten(page: PageInfo)
    requires page.url == "http://A" && page.title == ""
    ensures PageKindAsWritten("http://A", page).None?
  {
    LowerSample();
    assert Lower(page.title) == "";
    assert "http://a"[7] != "http://A"[7];
    AsWrittenKeyword("http://A", page);
    NoKeywordSample();
  }

  lemma AsWrittenKeyword(base: string, page: PageInfo)
    requires Lower(page.url) != base && Lower(page.url) != base + "/"
    ensures PageKindAsWritten(base, page) == KeywordKind(Lower(page.url), Lower(page.title))
  {
  }

  lemma NoKeywordSample()
    ensures KeywordKind("http://a", "").None?
  {
    var s := "http://a";
    assert forall i :: 0 <= i < |s| ==> s[i] != 'b' && s[i] != 'c' && s[i] != 'e' && s[i] != 'r';
    NoKeyword(s);
  }

  lemma LowerSample()
    ensures Lower("http://A") == "http://a"
  {
    var s := "http://A";
    assert forall i :: 0 <= i < 7 ==> LowerChar(s[i]) == s[i];
  }

  /** A string with no 'b', 'c', 'e' or 'r' holds none of the structure keywords. */
  lemma NoKeyword(s: string)
    requires forall i :: 0 <= i < |s| ==> s[i] != 'b' && s[i] != 'c' && s[i] != 'e' && s[i] != 'r'
    ensures KeywordKind(s, s).None? && KeywordKind(s, "").None?
  {
    MissingChar(s, "about", 1);
    MissingChar(s, "service", 1);
    MissingChar(s, "contact", 0);
    MissingChar(s, "blog", 0);
    MissingChar(s, "testimonial", 1);
    MissingChar(s, "review", 0);
    MissingChar(s, "pricing", 1);
    MissingChar(s, "price", 1);
    MissingChar("", "about", 1);
    MissingChar("", "service", 1);
    MissingChar("", "contact", 0);
    MissingChar("", "blog", 0);
    MissingChar("", "testimonial", 1);
  }

  const InitialStructure: map<string, bool> := map k | k in PageTypes :: false

  /** The structure after the elif chain has run over the pages, one entry set per page at most. */
  function StructureOf(base: string, pages: seq<PageInfo>): (r: map<string, bool>)
    ensures r.Keys == InitialStructure.Keys
  {
    if pages == [] then InitialStructure
    else
      var m := StructureOf(base, pages[..|pages| - 1]);
      var kind := PageKind(base, pages[|pages| - 1]);
      if kind.Some? then m[kind.value := true] else m
  }

  /** Some page is of kind `k`. */
  predicate HasKind(base: string, pages: seq<PageInfo>, k: string)
  {
    exists i :: 0 <= i < |pages| && PageKind(base, pages[i]) == Some(k)
  }

  lemma HasKindSnoc(base: string, pages: seq<PageInfo>, k: string)
    requires pages != []
    ensures HasKind(base, pages, k) <==>
      HasKind(base, pages[..|pages| - 1], k) || PageKind(base, pages[|pages| - 1]) == Some(k)
  {
    var init, last := pages[..|pages| - 1], pages[|pages| - 1];
    assert pages == init + [last];
    ExistsSnoc(pages, init, last, page => PageKind(base, page) == Some(k));
  }

  /** The structure after one more page: its kind, if any, is set. */
  function Marked(base: string, m: map<string, bool>, page: PageInfo): map<string, bool>
  {
    var kind := PageKind(base, page);
    if kind.Some? then m[kind.value := true] else m
  }

  lemma StructureSnoc(base: string, pages: seq<PageInfo>, i: nat)
    requires i < |pages|
    ensures StructureOf(base, pages[..i + 1]) == Marked(base, StructureOf(base, pages[..i]), pages[i])
  {
    var p := pages[..i + 1];
    assert p[..|p| - 1] == pages[..i] && p[|p| - 1] == pages[i];
  }

  /** One turn of the elif chain of `_analyze_structure`. */
  method MarkPage(base: string, m: map<string, bool>, page: PageInfo) returns (r: map<string, bool>)
    ensures r == Marked(base, m, page)
  {
    var urlLower, titleLower := Lower(page.url), Lower(page.title);
    if urlLower == Lower(base) || urlLower == Lower(base) + "/" {
      r := m["homepage" := true];
    } else {
      var kind := KeywordKind(urlLower, titleLower);
      r := if kind.Some? then m[kind.value := true] else m;
    }
  }

  /** An entry is set exactly when some page is of that kind. */
  lemma {:induction false} StructureFlags(base: string, pages: seq<PageInfo>, k: string)
    requires k in PageTypes
    ensures k in StructureOf(base, pages)
    ensures StructureOf(base, pages)[k] <==> HasKind(base, pages, k)
  {
    if pages != [] {
      var init := pages[..|pages| - 1];
      StructureFlags(base, init, k);
      HasKindSnoc(base, pages, k);
      var kind := PageKind(base, pages[|pages| - 1]);
      var m := StructureOf(base, init);
      assert StructureOf(base, pages) == if kind.Some? then m[kind.value := true] else m;
    }
  }

  /** A set entry stays set however many pages follow. */
  lemma StructureMonotone(base: string, pages: seq<PageInfo>, more: seq<PageInfo>, k: string)
    requires k in PageTypes && StructureOf(base, pages)[k]
    ensures StructureOf(base, pages + more)[k]
  {
    StructureFlags(base, pages, k);
    StructureFlags(base, pages + more, k);
    var i :| 0 <= i < |pages| && PageKind(base, pages[i]) == Some(k);
    assert (pages + more)[i] == pages[i];
    assert HasKind(base, pages + more, k);
  }

  /** Each page sets at most one entry: the structure grows by at most one set entry per page. */
  lemma OnePerPage(base: string, pages: seq<PageInfo>, page: PageInfo)
    ensures forall k :: (k in PageTypes && StructureOf(base, pages + [page])[k] && !StructureOf(base, pages)[k]
      ==> PageKind(base, page) == Some(k))
  {
    assert (pages + [page])[..|pages|] == pages;
  }

  datatype Features = Features(contactForm: bool, images: bool, ssl: bool, metaDescriptions: nat, totalPages: nat)

  predicate HasDescription(page: PageInfo)
  {
    page.metaDescription != "No description"
  }

  /** `_check_features`, as a value. */
  function FeaturesOf(base: string, pages: seq<PageInfo>): (r: Features)
    ensures r.metaDescriptions <= r.totalPages == |pages|
  {
    Features(exists i :: 0 <= i < |pages| && pages[i].hasForms,
             exists i :: 0 <= i < |pages| && pages[i].hasImages,
             StartsWith(base, "https"),
             Count(pages, HasDescription),
             |pages|)
  }

  datatype Report = Report(url: string, pagesFound: nat, pages: seq<PageInfo>, structure: map<string, bool>,
                           features: Features, brokenLinks: seq<BrokenLink>)

  function PageInfoUrls(pages: seq<PageInfo>): (r: seq<string>)
    ensures |r| == |pages| && forall i :: 0 <= i < |pages| ==> r[i] == pages[i].url
  {
    seq(|pages|, i requires 0 <= i < |pages| => pages[i].url)
  }

  function BrokenLinkUrls(links: seq<BrokenLink>): (r: seq<string>)
    ensures |r| == |links| && forall i :: 0 <= i < |links| ==> r[i] == links[i].url
  {
    seq(|links|, i requires 0 <= i < |links| => links[i].url)
  }

  /** The page a response makes: one for status 200, none otherwise. */
  function PageOf(url: string, response: Response): seq<PageInfo>
  {
    if response.Fetched? && response.status == 200 then [PageFrom(url, response.html)] else []
  }

  /** The broken link a response makes: the error of a failed request, or a status other than 200. */
  function BrokenOf(url: string, response: Response): seq<BrokenLink>
  {
    match response
    case Failed(error) => [Unreachable(url, error)]
    case Fetched(status, _) => if status != 200 then [BadStatus(url, status)] else []
  }

  /**
   * What fetching a URL not visited before records: the page for status 200, else a
   * broken link with the status or the error, appended to what was there.
   */
  predicate Fresh(url: string, response: Response, pages0: seq<PageInfo>, broken0: seq<BrokenLink>,
                  pages1: seq<PageInfo>, broken1: seq<BrokenLink>)
  {
    pages0 + PageOf(url, response) <= pages1 && broken0 + BrokenOf(url, response) <= broken1
  }

  /**
   * From `(v0, p0, b0)` to `(v1, p1, b1)`: the visited set has only grown, and not past
   * `maxPages` unless it was already there; pages and broken links have only been
   * appended, each for a URL not visited before; and every URL visited since is
   * recorded.
   */
  ghost predicate Grew(v0: set<string>, p0: seq<PageInfo>, b0: seq<BrokenLink>,
                       v1: set<string>, p1: seq<PageInfo>, b1: seq<BrokenLink>, maxPages: int)
  {
    v0 <= v1 &&
    |v1| <= (if |v0| < maxPages then maxPages else |v0|) &&
    p0 <= p1 && b0 <= b1 &&
    (forall i :: |p0| <= i < |p1| ==> p1[i].url !in v0) &&
    (forall i :: |b0| <= i < |b1| ==> b1[i].url !in v0) &&
    (forall u :: u in v1 && u !in v0 ==> u in PageInfoUrls(p1) || u in BrokenLinkUrls(b1))
  }

  lemma GrewTrans(v0: set<string>, p0: seq<PageInfo>, b0: seq<BrokenLink>,
                  v1: set<string>, p1: seq<PageInfo>, b1: seq<BrokenLink>,
                  v2: set<string>, p2: seq<PageInfo>, b2: seq<BrokenLink>, maxPages: int)
    requires Grew(v0, p0, b0, v1, p1, b1, maxPages) && Grew(v1, p1, b1, v2, p2, b2, maxPages)
    ensures Grew(v0, p0, b0, v2, p2, b2, maxPages)
  {
    forall i | |p0| <= i < |p1| ensures p2[i] == p1[i] { }
    forall i | |b0| <= i < |b1| ensures b2[i] == b1[i] { }
    forall u | u in v1 && u !in v0 ensures u in PageInfoUrls(p2) || u in BrokenLinkUrls(b2) {
      if u in PageInfoUrls(p1) {
        var i :| 0 <= i < |p1| && PageInfoUrls(p1)[i] == u;
        assert PageInfoUrls(p2)[i] == u;
      } else {
        var i :| 0 <= i < |b1| && BrokenLinkUrls(b1)[i] == u;
        assert BrokenLinkUrls(b2)[i] == u;
      }
    }
  }

  class Analyzer {
    var baseUrl: string
    var visited: set<string>
    var pages: seq<PageInfo>
    var brokenLinks: seq<BrokenLink>

    function PageUrls(): seq<string>
      reads this`pages
    {
      PageInfoUrls(pages)
    }

    function BrokenUrls(): seq<string>
      reads this`brokenLinks
    {
      BrokenLinkUrls(brokenLinks)
    }

    /** Every fetched URL was visited, and none was fetched twice: not as two pages, two broken links or one of each. */
    predicate Valid()
      reads this
    {
      (forall u :: u in PageUrls() ==> u in visited) && (forall u :: u in BrokenUrls() ==> u in visited)
      && NoDuplicates(PageUrls()) && NoDuplicates(BrokenUrls())
      && (forall u :: u in PageUrls() ==> u !in BrokenUrls())
    }

    constructor (url: string)
      ensures baseUrl == TrimSlashes(url)
      ensures visited == {} && pages == [] && brokenLinks == []
      ensures Valid()
    {
      baseUrl := TrimSlashes(url);
      visited := {};
      pages := [];
      brokenLinks := [];
    }

    /** No URL is recorded twice: neither two pages nor a page and a broken link share one. */
    lemma FetchedOnce()
      requires Valid()
      ensures forall i, j :: 0 <= i < j < |pages| ==> pages[i].url != pages[j].url
      ensures forall i, j :: 0 <= i < |pages| && 0 <= j < |brokenLinks| ==> pages[i].url != brokenLinks[j].url
    {
      forall i, j | 0 <= i < |pages| && 0 <= j < |brokenLinks|
        ensures pages[i].url != brokenLinks[j].url
      {
        assert PageUrls()[i] in PageUrls() && BrokenUrls()[j] in BrokenUrls();
      }
    }

    /** Records the outcome of fetching a URL not fetched before. */
    method Record(url: string, b: Option<BrokenLink>, page: Option<PageInfo>)
      requires Valid() && url in visited && url !in PageUrls() && url !in BrokenUrls()
      requires b.Some? ==> b.value.url == url
      requires page.Some? ==> page.value.url == url
      requires b.None? || page.None?
      modifies this
      ensures Valid()
      ensures baseUrl == old(baseUrl) && visited == old(visited)
      ensures pages == old(pages) + (if page.Some? then [page.value] else [])
      ensures brokenLinks == old(brokenLinks) + (if b.Some? then [b.value] else [])
    {
      pages := pages + (if page.Some? then [page.value] else []);
      brokenLinks := brokenLinks + (if b.Some? then [b.value] else []);
      assert PageUrls() == old(PageUrls()) + (if page.Some? then [url] else []);
      assert BrokenUrls() == old(BrokenUrls()) + (if b.Some? then [url] else []);
    }

    /** Records a fresh URL's response: the page for status 200, else a broken link with the status or the error. */
    method Visit(url: string, response: Response)
      requires Valid() && url in visited && url !in PageUrls() && url !in BrokenUrls()
      modifies this
      ensures Valid()
      ensures baseUrl == old(baseUrl) && visited == old(visited)
      ensures pages == old(pages) + PageOf(url, response)
      ensures brokenLinks == old(brokenLinks) + BrokenOf(url, response)
      ensures url in PageUrls() || url in BrokenUrls()
    {
      match response
      case Failed(error) =>
        Record(url, Some(Unreachable(url, error)), None);
        assert BrokenUrls()[|brokenLinks| - 1] == url;
      case Fetched(status, html) =>
        if status != 200 {
          Record(url, Some(BadStatus(url, status)), None);
          assert BrokenUrls()[|brokenLinks| - 1] == url;
        } else {
          Record(url, None, Some(PageFrom(url, html)));
          assert PageUrls()[|pages| - 1] == url;
        }
    }

    /**
     * `_crawl_site`. Nothing happens past depth 3, once `maxPages` URLs have been visited,
     * or for a URL already visited. Otherwise the URL is visited once and recorded as a
     * page (status 200), a broken link with its status (any other status) or an
     * unreachable link (a failed request), and the page's internal links are crawled one
     * level deeper. Only the URL itself and internal links are ever visited, and every
     * URL visited is recorded.
     */
    method Crawl(url: string, maxPages: int, depth: nat, site: string -> Response)
      requires Valid()
      modifies this
      ensures Valid()
      ensures baseUrl == old(baseUrl)
      ensures Grew(old(visited), old(pages), old(brokenLinks), visited, pages, brokenLinks, maxPages)
      ensures depth > 3 || |old(visited)| >= maxPages || url in old(visited) ==>
        visited == old(visited) && pages == old(pages) && brokenLinks == old(brokenLinks)
      ensures forall u :: u in visited && u !in old(visited) ==> u == url || IsInternal(baseUrl, u)
      ensures depth <= 3 && |old(visited)| < maxPages && url !in old(visited) ==>
        url in visited && Fresh(url, site(url), old(pages), old(brokenLinks), pages, brokenLinks)
      decreases 4 - depth, 1
    {
      if depth > 3 || |visited| >= maxPages {
        return;
      }
      if url in visited {
        return;
      }
      visited := visited + {url};
      var response := site(url);
      Visit(url, response);
      if response.Fetched? && response.status == 200 {
        CrawlLinks(response.html.links, maxPages, depth, site);
      }
    }

    /** The loop of `_crawl_site` over a page's links: each internal one is crawled one level deeper. */
    method CrawlLinks(links: seq<string>, maxPages: int, depth: nat, site: string -> Response)
      requires Valid() && depth <= 3
      modifies this
      ensures Valid()
      ensures baseUrl == old(baseUrl)
      ensures Grew(old(visited), old(pages), old(brokenLinks), visited, pages, brokenLinks, maxPages)
      ensures forall u :: u in visited && u !in old(visited) ==> IsInternal(baseUrl, u)
      decreases 4 - depth, 0
    {
      for i := 0 to |links|
        invariant Valid()
        invariant baseUrl == old(baseUrl)
        invariant Grew(old(visited), old(pages), old(brokenLinks), visited, pages, brokenLinks, maxPages)
        invariant forall u :: u in visited && u !in old(visited) ==> IsInternal(baseUrl, u)
      {
        if IsInternal(baseUrl, links[i]) {
          ghost var visited0, pages0, broken0 := visited, pages, brokenLinks;
          Crawl(links[i], maxPages, depth + 1, site);
          GrewTrans(old(visited), old(pages), old(brokenLinks), visited0, pages0, broken0,
                    visited, pages, brokenLinks, maxPages);
        }
      }
    }

    /** `_analyze_structure`: the elif chain over the pages found. */
    method AnalyzeStructure() returns (structure: map<string, bool>)
      ensures structure == StructureOf(baseUrl, pages)
    {
      structure := InitialStructure;
      for i := 0 to |pages|
        invariant structure == StructureOf(baseUrl, pages[..i])
      {
        StructureSnoc(baseUrl, pages, i);
        structure := MarkPage(baseUrl, structure, pages[i]);
      }
      assert pages[..|pages|] == pages;
    }

    /** `_check_features`: flags and a counter over the pages found. */
    method CheckFeatures() returns (features: Features)
      ensures features == FeaturesOf(baseUrl, pages)
    {
      var contactForm, images, metaDescriptions := false, false, 0;
      for i := 0 to |pages|
        invariant contactForm <==> exists j :: 0 <= j < i && pages[j].hasForms
        invariant images <==> exists j :: 0 <= j < i && pages[j].hasImages
        invariant metaDescriptions == Count(pages[..i], HasDescription)
      {
        assert pages[..i + 1][..i] == pages[..i];
        if pages[i].hasForms {
          contactForm := true;
        }
        if pages[i].hasImages {
          images := true;
        }
        if pages[i].metaDescription != "No description" {
          metaDescriptions := metaDescriptions + 1;
        }
      }
      assert pages[..|pages|] == pages;
      features := Features(contactForm, images, StartsWith(baseUrl, "https"), metaDescriptions, |pages|);
    }

    /** `analyze`: crawl from the base URL, then report structure and features of what was found. */
    method Analyze(maxPages: int, site: string -> Response) returns (report: Report)
      requires Valid()
      modifies this
      ensures Valid() && baseUrl == old(baseUrl)
      ensures report.url == baseUrl && report.pagesFound == |pages| && report.pages == pages
      ensures report.structure == StructureOf(baseUrl, pages)
      ensures report.features == FeaturesOf(baseUrl, pages)
      ensures report.brokenLinks == brokenLinks
    {
      Crawl(baseUrl, maxPages, 0, site);
      var structure := AnalyzeStructure();
      var features := CheckFeatures();
      report := Report(baseUrl, |pages|, pages, structure, features, brokenLinks);
    }
  }
}
