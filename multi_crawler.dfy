/**
 * multi_url_crawler.py: the one-shot crawler of several department listings.
 * Its `all_data` list only ever grows: every call of `crawl_all_urls` extends
 * it with that crawl and returns the whole accumulated list.
 */
module MultiCrawler {
  import opened Wrappers
  import opened Records
  import opened Fetch
  import opened Listing
  import opened Paging
  import opened Detail
  import opened Crawl
  import Summary

  /** A post with a URL gets the text of its detail page, `""` when that fails. */
  function Fill(web: Web): Post -> Post {
    (p: Post) => p.(content := Some(TextDetail(web.detail(p.url))))
  }

  /** Page `n`: any failure of the request, its status or the parse skips the page. */
  function Outcome(t: Target, n: nat, web: Web, baseUrl: string): PageOutcome {
    var resp := web.listing(ParamPageRequest(t.url, n));
    if !Usable(resp) then Skip
    else
      match TableParse(resp.body.table, Categorized, Context(t.category, web, baseUrl))
      case Raised => Skip
      case Ok(ps) => Posts(Enriched(ps, Fill(web)))
  }

  function Outcomes(t: Target, web: Web, baseUrl: string): nat -> PageOutcome {
    (n: nat) => Outcome(t, n, web, baseUrl)
  }

  /** `min(get_total_pages(soup), max_pages)`: the unclamped count, clamped at the call site. */
  function PageCount(t: Target, web: Web, maxPages: int): Option<int> {
    var first := web.listing(PageRequest(t.url, None));
    if !Usable(first) then None
    else
      match TotalPagesUnclamped(first.body.totPage)
      case Raised => None
      case Ok(n) => Some(Min(n, maxPages))
  }

  /** `crawl_single_url`: nothing when the first page or its count fails, otherwise the posts of pages 1..N. */
  function CrawlSource(t: Target, web: Web, baseUrl: string, maxPages: int): seq<Post> {
    match PageCount(t, web, maxPages)
    case None => []
    case Some(total) => Gather(Outcomes(t, web, baseUrl), 1, total)
  }

  /** The sequential branch of `crawl_all_urls`: the listings one after the other. */
  function CrawlAll(targets: seq<Target>, web: Web, baseUrl: string, maxPages: int): seq<Post> {
    CrawlEach(targets, Sources(web, baseUrl, maxPages))
  }

  /** `crawl_single_url` as the per-listing crawl of `CrawlEach`. */
  function Sources(web: Web, baseUrl: string, maxPages: int): Target -> seq<Post> {
    t => CrawlSource(t, web, baseUrl, maxPages)
  }

  /** The clamp at the call site bounds the count by `max_pages` even without a marker. */
  lemma PageCountBound(t: Target, web: Web, maxPages: int)
    requires PageCount(t, web, maxPages).Some?
    ensures PageCount(t, web, maxPages).value <= maxPages
    ensures PageCount(t, web, maxPages).value <= 1 || web.listing(PageRequest(t.url, None)).body.totPage.Some?
  {
  }

  /**
   * The two clamps differ without a marker: with `max_pages` 0 this crawler
   * visits no page where the scheduled crawlers visit page 1.
   */
  lemma ClampWithoutMarker(t: Target, web: Web)
    requires Usable(web.listing(PageRequest(t.url, None)))
    requires web.listing(PageRequest(t.url, None)).body.totPage.None?
    ensures PageCount(t, web, 0) == Some(0)
    ensures TotalPagesClamped(web.listing(PageRequest(t.url, None)).body.totPage, 0) == Ok(1)
  {
  }

  /** A failing page is skipped and the pages after it are still crawled. */
  lemma FailingPageSkipped(t: Target, web: Web, baseUrl: string, total: int, k: nat)
    requires 1 <= k <= total
    requires !Usable(web.listing(ParamPageRequest(t.url, k)))
    ensures var f := Outcomes(t, web, baseUrl);
      Gather(f, 1, total) == Gather(f, 1, k - 1) + Gather(f, k + 1, total)
  {
    var f := Outcomes(t, web, baseUrl);
    assert forall n: nat :: !f(n).Stop?;
    GatherSkip(f, 1, k, total);
  }

  /** The per-listing sizes, in order. */
  function SourceSizes(targets: seq<Target>, web: Web, baseUrl: string, maxPages: int): nat {
    if targets == [] then 0 else |CrawlSource(targets[0], web, baseUrl, maxPages)| + SourceSizes(targets[1..], web, baseUrl, maxPages)
  }

  /** A crawl holds as many posts as its listings returned together. */
  lemma {:induction false} CrawlAllSize(targets: seq<Target>, web: Web, baseUrl: string, maxPages: int)
    ensures |CrawlAll(targets, web, baseUrl, maxPages)| == SourceSizes(targets, web, baseUrl, maxPages)
  {
    if targets != [] {
      CrawlAllSize(targets[1..], web, baseUrl, maxPages);
    }
  }

  class MultiUrlCrawler {
    const baseUrl: string
    const targets: seq<Target>
    var allData: seq<Post>

    /** A crawler over the configured listings with nothing collected yet. */
    constructor(baseUrl: string, targets: seq<Target>)
      ensures this.baseUrl == baseUrl && this.targets == targets && allData == []
    {
      this.baseUrl := baseUrl;
      this.targets := targets;
      allData := [];
    }

    /** `crawl_single_url`: pages 1..N in order, a failing page skipped, posts with a URL filled with their detail text. */
    method CrawlSingleUrl(t: Target, web: Web, maxPages: int) returns (data: seq<Post>)
      ensures data == CrawlSource(t, web, baseUrl, maxPages)
    {
      data := [];
      var count := PageCount(t, web, maxPages);
      if count.None? {
        return;
      }
      var total := count.value;
      var f := Outcomes(t, web, baseUrl);
      var page := 1;
      while page <= total
        invariant 1 <= page
        invariant data + Gather(f, page, total) == Gather(f, 1, total)
        decreases total - page
      {
        var o := CrawlPage(t, page, web);
        assert f(page) == o;
        if o.Posts? {
          data := data + o.posts;
        }
        page := page + 1;
      }
    }

    /** One pass of the page loop. */
    method CrawlPage(t: Target, n: nat, web: Web) returns (o: PageOutcome)
      ensures o == Outcome(t, n, web, baseUrl)
    {
      var resp := web.listing(ParamPageRequest(t.url, n));
      if !Usable(resp) {
        return Skip;
      }
      var parsed := ParseTable(resp.body.table, Categorized, Context(t.category, web, baseUrl));
      if parsed.Raised? {
        return Skip;
      }
      var filled := EnrichPosts(parsed.value, Fill(web));
      return Posts(filled);
    }

    /**
     * `crawl_all_urls`: `all_data` is extended listing after listing, never
     * reset, and the accumulated list is returned.
     */
    method CrawlAllUrls(web: Web, maxPages: int) returns (r: seq<Post>)
      modifies this
      ensures allData == old(allData) + CrawlAll(targets, web, baseUrl, maxPages)
      ensures r == allData
    {
      ghost var start := allData;
      for i := 0 to |targets|
        invariant allData == start + CrawlAll(targets[..i], web, baseUrl, maxPages)
      {
        var data := CrawlSingleUrl(targets[i], web, maxPages);
        CrawlEachStep(targets, i, Sources(web, baseUrl, maxPages));
        AppendAssoc(start, CrawlAll(targets[..i], web, baseUrl, maxPages), data);
        allData := allData + data;
      }
      assert targets[..|targets|] == targets;
      r := allData;
    }

    /** `get_summary_by_category`: the counting loop over `all_data`. */
    method SummaryByCategory() returns (counts: seq<(string, nat)>)
      ensures counts == Summary.CategoryCounts(allData)
    {
      var buckets := Summary.TallyByCategory(allData);
      counts := seq(|buckets|, k requires 0 <= k < |buckets| => (buckets[k].category, buckets[k].count));
    }
  }
}
