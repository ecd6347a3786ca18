/**
 * The notice service of new/crawler_service.py: it crawls the configured
 * listings, keeps the snapshot `existing_data`, merges new posts into it,
 * reports its run status and answers the snapshot queries.
 */
module CrawlerService {
  import opened Wrappers
  import opened Text
  import opened Records
  import opened Fetch
  import opened Listing
  import opened Paging
  import opened Detail
  import opened Crawl
  import opened Delta
  import Summary

  /** A category naming the program-application site is parsed as a link list. */
  const ProgramSite := "SW중심대학사업단"

  /** Categories naming one of these are parsed as a department table. */
  const CsaiLabels: seq<string> := ["csai.jbnu.ac.kr", "학과소식", "일반공지", "학사공지", "사업단공지", "취업정보"]

  predicate IsCsaiCategory(category: string) {
    exists i :: 0 <= i < |CsaiLabels| && Contains(category, CsaiLabels[i])
  }

  /** `parse_page`: the parser is chosen by the category label; an unknown one yields no posts. */
  function ParsePage(doc: ListingDoc, ctx: RowContext, today: string): Result<seq<Post>> {
    if Contains(ctx.category, ProgramSite) then Ok(ProgramRecords(ProgramLinks(doc.links), 1, ctx, today))
    else if IsCsaiCategory(ctx.category) then TableParse(doc.table, Identified, ctx)
    else Ok([])
  }

  /** The detail of a post with a URL fills its three content fields. */
  function Fill(web: Web, baseUrl: string): Post -> Post {
    (p: Post) => Records.WithContent(p, ServiceDetail(p.url, web.detail(p.url), baseUrl, web.join))
  }

  /**
   * Page `n` of a listing: a request that raises ends the crawl of this
   * listing; an error status or a parse failure skips the page.
   */
  function Outcome(t: Target, n: nat, web: Web, baseUrl: string): PageOutcome {
    var resp := web.listing(ServicePageRequest(t.url, n));
    if resp.RequestFailed? then Stop
    else if RaisesForStatus(resp.status) then Skip
    else
      match ParsePage(resp.body, Context(t.category, web, baseUrl), web.today)
      case Raised => Skip
      case Ok(ps) => Posts(Enriched(ps, Fill(web, baseUrl)))
  }

  function Outcomes(t: Target, web: Web, baseUrl: string): nat -> PageOutcome {
    (n: nat) => Outcome(t, n, web, baseUrl)
  }

  /** The page count read from the first page; `None` when that request, its status or the count fails. */
  function PageCount(t: Target, web: Web, maxPages: int): Option<int> {
    var first := web.listing(PageRequest(t.url, None));
    if !Usable(first) then None
    else
      match ServiceTotalPages(first.body, t.url, maxPages)
      case Raised => None
      case Ok(total) => Some(total)
  }

  /**
   * `crawl_single_url`: nothing when the first page fails or its page count
   * cannot be read, otherwise the posts of pages 1..N.
   */
  function CrawlSource(t: Target, web: Web, baseUrl: string, maxPages: int): seq<Post> {
    match PageCount(t, web, maxPages)
    case None => []
    case Some(total) => Gather(Outcomes(t, web, baseUrl), 1, total)
  }

  /** `crawl_all_urls` in its sequential order: the listings one after the other. */
  function CrawlAll(targets: seq<Target>, web: Web, baseUrl: string, maxPages: int): seq<Post> {
    CrawlEach(targets, Sources(web, baseUrl, maxPages))
  }

  /** `crawl_single_url` as the per-listing crawl of `CrawlEach`. */
  function Sources(web: Web, baseUrl: string, maxPages: int): Target -> seq<Post> {
    t => CrawlSource(t, web, baseUrl, maxPages)
  }

  /** The dispatch of `parse_page` to the row loop or the link loop. */
  method ParsePageWith(doc: ListingDoc, ctx: RowContext, today: string) returns (r: Result<seq<Post>>)
    ensures r == ParsePage(doc, ctx, today)
  {
    if Contains(ctx.category, ProgramSite) {
      var data := ParseProgramPage(doc.links, ctx, today);
      r := Ok(data);
    } else if IsCsaiCategory(ctx.category) {
      r := ParseTable(doc.table, Identified, ctx);
    } else {
      r := Ok([]);
    }
  }

  /** A crawl's run status and what the snapshot holds. */
  class NoticeService {
    const baseUrl: string
    const maxPages: int
    const targets: seq<Target>
    /** `ENABLE_FIREBASE_SYNC` read as `'true'`. */
    const firebaseEnabled: bool

    var existingData: seq<Post>
    var crawlStatus: Status
    var lastCrawlTime: Option<string>
    /** The statuses the service has gone through. */
    ghost var statusLog: seq<Status>
    /** What `save_data` last wrote. */
    ghost var persisted: seq<Post>
    /** The batches handed to the sink's `save_notices_batch`, in order. */
    ghost var synced: seq<seq<Post>>

    /** A service over the stored snapshot, idle and never run. */
    constructor(baseUrl: string, maxPages: int, targets: seq<Target>, firebaseEnabled: bool, stored: seq<Post>)
      ensures this.baseUrl == baseUrl && this.maxPages == maxPages && this.targets == targets
      ensures this.firebaseEnabled == firebaseEnabled
      ensures existingData == stored && persisted == stored
      ensures crawlStatus == Idle && lastCrawlTime == None && statusLog == [Idle] && synced == []
    {
      this.baseUrl := baseUrl;
      this.maxPages := maxPages;
      this.targets := targets;
      this.firebaseEnabled := firebaseEnabled;
      existingData := stored;
      persisted := stored;
      crawlStatus := Idle;
      lastCrawlTime := None;
      statusLog := [Idle];
      synced := [];
    }

    /**
     * `crawl_single_url`: pages 1..N in order; a request that raises ends the
     * loop but keeps what was collected, a failing status or parse skips the
     * page, and the posts of a page are filled from their detail pages.
     */
    method CrawlSingleUrl(t: Target, web: Web) returns (data: seq<Post>)
      ensures data == CrawlSource(t, web, baseUrl, maxPages)
    {
      data := [];
      var count := PageCount(t, web, maxPages);
      if count.None? {
        return;
      }
      var total := count.value;
      var f := Outcomes(t, web, baseUrl);
      var page := 1;
      while page <= total
        invariant 1 <= page
        invariant data + Gather(f, page, total) == Gather(f, 1, total)
        decreases total - page
      {
        var o := CrawlPage(t, page, web);
        assert f(page) == o;
        if o.Stop? {
          return;
        }
        if o.Posts? {
          data := data + o.posts;
        }
        page := page + 1;
      }
    }

    /** One pass of the page loop: fetch page `n`, parse it and fill its posts. */
    method CrawlPage(t: Target, n: nat, web: Web) returns (o: PageOutcome)
      ensures o == Outcome(t, n, web, baseUrl)
    {
      var resp := web.listing(ServicePageRequest(t.url, n));
      if resp.RequestFailed? {
        return Stop;
      }
      if RaisesForStatus(resp.status) {
        return Skip;
      }
      var parsed := ParsePageWith(resp.body, Context(t.category, web, baseUrl), web.today);
      if parsed.Raised? {
        return Skip;
      }
      var filled := EnrichPosts(parsed.value, Fill(web, baseUrl));
      return Posts(filled);
    }

    /** `crawl_all_urls`, sequential branch: the listings' posts, listing after listing. */
    method CrawlAllUrls(web: Web) returns (all: seq<Post>)
      ensures all == CrawlAll(targets, web, baseUrl, maxPages)
    {
      all := [];
      for i := 0 to |targets|
        invariant all == CrawlAll(targets[..i], web, baseUrl, maxPages)
      {
        var data := CrawlSingleUrl(targets[i], web);
        CrawlEachStep(targets, i, Sources(web, baseUrl, maxPages));
        all := all + data;
      }
      assert targets[..|targets|] == targets;
    }

    /**
     * `crawl_new_posts`: the status goes to running, the new posts are put in
     * front of the snapshot (which is saved and handed to the sink only when
     * there are some, the sink only when it is enabled and ready), then the
     * status is completed with the time of the run. Every failure inside the
     * crawl is handled where it happens, so the error status is never reached.
     */
    method CrawlNewPosts(web: Web, sinkReady: bool, stamp: string)
      modifies this
      ensures var delta := NewPosts(old(existingData), CrawlAll(targets, web, baseUrl, maxPages));
        && existingData == Merge(delta, old(existingData))
        && persisted == (if delta != [] then existingData else old(persisted))
        && synced == old(synced) + (if delta != [] && firebaseEnabled && sinkReady then [delta] else [])
      ensures crawlStatus == Completed && lastCrawlTime == Some(stamp)
      ensures statusLog == old(statusLog) + [Running, Completed]
    {
      crawlStatus := Running;
      statusLog := statusLog + [Running];
      var current := CrawlAllUrls(web);
      var delta := FindNewPosts(existingData, current);
      Absorb(delta, sinkReady);
      crawlStatus := Completed;
      AppendAssoc(old(statusLog), [Running], [Completed]);
      assert [Running] + [Completed] == [Running, Completed];
      statusLog := statusLog + [Completed];
      lastCrawlTime := Some(stamp);
    }

    /** The tail of `crawl_new_posts`: a non-empty delta is merged in front, saved and handed to the sink. */
    method Absorb(delta: seq<Post>, sinkReady: bool)
      modifies this
      ensures existingData == Merge(delta, old(existingData))
      ensures persisted == (if delta != [] then existingData else old(persisted))
      ensures synced == old(synced) + (if delta != [] && firebaseEnabled && sinkReady then [delta] else [])
      ensures crawlStatus == old(crawlStatus) && statusLog == old(statusLog) && lastCrawlTime == old(lastCrawlTime)
    {
      if delta != [] {
        existingData := Merge(delta, existingData);
        persisted := existingData;
        if firebaseEnabled && sinkReady {
          synced := synced + [delta];
        }
      }
    }

    /** `crawl_all_posts`: the snapshot becomes exactly the fresh crawl, which is saved and handed to the sink. */
    method CrawlAllPosts(web: Web, sinkReady: bool, stamp: string)
      modifies this
      ensures existingData == CrawlAll(targets, web, baseUrl, maxPages) && persisted == existingData
      ensures synced == old(synced) + (if firebaseEnabled && sinkReady then [existingData] else [])
      ensures crawlStatus == Completed && lastCrawlTime == Some(stamp)
      ensures statusLog == old(statusLog) + [Running, Completed]
    {
      crawlStatus := Running;
      statusLog := statusLog + [Running];
      var all := CrawlAllUrls(web);
      existingData := all;
      persisted := all;
      if firebaseEnabled && sinkReady {
        synced := synced + [all];
      }
      crawlStatus := Completed;
      AppendAssoc(old(statusLog), [Running], [Completed]);
      assert [Running] + [Completed] == [Running, Completed];
      statusLog := statusLog + [Completed];
      lastCrawlTime := Some(stamp);
    }

    /** `get_summary`: the tally loop, one entry per category, sorted by count. */
    method GetSummary() returns (r: seq<Summary.CategorySummary>)
      ensures r == Summary.GetSummary(existingData)
    {
      var buckets := Summary.TallyByCategory(existingData);
      r := Summary.SortByCount(Summary.Summaries(buckets));
    }
  }

  /** With distinct URLs in the snapshot and in the crawl, the merged snapshot keeps them distinct. */
  lemma MergeKeepsDistinct(existing: seq<Post>, current: seq<Post>)
    requires DistinctUrls(existing) && DistinctUrls(current)
    ensures DistinctUrls(Merge(NewPosts(existing, current), existing))
  {
    MergeDistinct(existing, current);
  }

  /** A listing whose request raises on page `k` keeps exactly the posts of the pages before `k`. */
  lemma AbortKeepsEarlierPages(t: Target, web: Web, baseUrl: string, total: int, k: nat)
    requires 1 <= k <= total
    requires web.listing(ServicePageRequest(t.url, k)).RequestFailed?
    ensures Gather(Outcomes(t, web, baseUrl), 1, total) == Gather(Outcomes(t, web, baseUrl), 1, k - 1)
  {
    GatherStop(Outcomes(t, web, baseUrl), 1, k, total);
  }

  /** Posts without a URL are kept as parsed; the others get the content their detail page yields. */
  lemma FilledPosts(ps: seq<Post>, web: Web, baseUrl: string)
    ensures var r := Enriched(ps, Fill(web, baseUrl));
      forall k :: 0 <= k < |ps| ==>
        && r[k].url == ps[k].url
        && (ps[k].url == "" ==> r[k] == ps[k])
        && (ps[k].url != "" ==> r[k].content == Some(ServiceDetail(ps[k].url, web.detail(ps[k].url), baseUrl, web.join).text))
  {
    EnrichedSpec(ps, Fill(web, baseUrl));
    var r := Enriched(ps, Fill(web, baseUrl));
    forall k | 0 <= k < |ps| && ps[k].url != ""
      ensures r[k].content == Some(ServiceDetail(ps[k].url, web.detail(ps[k].url), baseUrl, web.join).text)
    {
      var c := ServiceDetail(ps[k].url, web.detail(ps[k].url), baseUrl, web.join);
      assert r[k] == Records.WithContent(ps[k], c);
    }
  }
}
