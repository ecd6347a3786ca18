/**
 * multi_url_scheduled_crawler.py: the scheduled crawler over several
 * department listings. Every listing is crawled page by page, a failing page
 * is skipped, the new posts go in front of the snapshot and are announced
 * through a message template.
 */
module MultiScheduled {
  import opened Wrappers
  import opened Records
  import opened Fetch
  import opened Listing
  import opened Paging
  import opened Detail
  import opened Crawl
  import opened Delta
  import opened Notify
  import Summary

  // ---------------------------------------------------------------------
  // Notification messages

  /** "새로운 공지사항이 등록되었습니다: [{category}] {title}" */
  const DefaultTemplate: seq<Piece> := [Lit("새로운 공지사항이 등록되었습니다: ["), CategoryField, Lit("] "), TitleField]

  /**
   * The messages `send_notifications` logs: none unless enabled with a
   * webhook, else one per post with the configured or default template; a
   * field other than `{category}` and `{title}` raises on the first post.
   */
  function Notifications(cfg: NotificationConfig, posts: seq<Post>): Result<seq<string>> {
    if !Announces(cfg) then Ok([])
    else
      var template := cfg.template.GetOr(DefaultTemplate);
      if posts != [] && Unformattable(template, true) then Raised else Ok(Messages(template, posts))
  }

  /** With the default template a message names the category (or "Unknown") and the title. */
  lemma DefaultMessage(p: Post)
    ensures Format(DefaultTemplate, p)
      == "새로운 공지사항이 등록되었습니다: [" + CategoryOr(p, "Unknown") + "] " + p.title
  {
    var t := DefaultTemplate;
    var c := CategoryOr(p, "Unknown");
    assert Format(t[3..], p) == p.title by {
      assert t[3..][1..] == [];
    }
    assert Format(t[2..], p) == "] " + p.title by {
      assert t[2..][1..] == t[3..];
    }
    assert Format(t[1..], p) == c + "] " + p.title by {
      assert t[1..][1..] == t[2..];
    }
    assert t[0..][1..] == t[1..];
  }

  /**
   * Without an enabled sink with a webhook nothing is announced; otherwise
   * every post is, in order, unless the template has a field other than
   * `{category}` and `{title}`, which raises exactly when there is a post.
   */
  lemma NotificationsSpec(cfg: NotificationConfig, posts: seq<Post>)
    ensures !Announces(cfg) ==> Notifications(cfg, posts) == Ok([])
    ensures Announces(cfg) && OtherField !in cfg.template.GetOr(DefaultTemplate) ==>
      var r := Notifications(cfg, posts);
      r.Ok? && |r.value| == |posts| && forall k :: 0 <= k < |posts| ==> r.value[k] == Format(cfg.template.GetOr(DefaultTemplate), posts[k])
    ensures Announces(cfg) && OtherField in cfg.template.GetOr(DefaultTemplate) ==>
      (Notifications(cfg, posts).Raised? <==> posts != [])
  {
    MessagesSpec(cfg.template.GetOr(DefaultTemplate), posts);
  }

  // ---------------------------------------------------------------------
  // The crawl of one listing

  /** The detail of a post with a URL fills its three content fields; a failing detail page gives empty ones. */
  function Fill(web: Web, baseUrl: string): Post -> Post {
    (p: Post) => Records.WithContent(p, ScheduledDetail(web.detail(p.url), baseUrl, web.join))
  }

  /** Page `n`: the request, its status and the parse are all inside the per-page `try`, so any failure skips the page. */
  function Outcome(t: Target, n: nat, web: Web, baseUrl: string): PageOutcome {
    var resp := web.listing(ParamPageRequest(t.url, n));
    if !Usable(resp) then Skip
    else
      match TableParse(resp.body.table, Listing.WithContent, Context(t.category, web, baseUrl))
      case Raised => Skip
      case Ok(ps) => Posts(Enriched(ps, Fill(web, baseUrl)))
  }

  function Outcomes(t: Target, web: Web, baseUrl: string): nat -> PageOutcome {
    (n: nat) => Outcome(t, n, web, baseUrl)
  }

  /** The clamped page count of the first page; `None` when that request, its status or the count fails. */
  function PageCount(t: Target, web: Web, maxPages: int): Option<int> {
    var first := web.listing(PageRequest(t.url, None));
    if !Usable(first) then None
    else
      match TotalPagesClamped(first.body.totPage, maxPages)
      case Raised => None
      case Ok(total) => Some(total)
  }

  /** `crawl_single_url`: nothing when the first page or its count fails, otherwise the posts of pages 1..N. */
  function CrawlSource(t: Target, web: Web, baseUrl: string, maxPages: int): seq<Post> {
    match PageCount(t, web, maxPages)
    case None => []
    case Some(total) => Gather(Outcomes(t, web, baseUrl), 1, total)
  }

  /** `crawl_all_urls` with the listings taken one after the other. */
  function CrawlAll(targets: seq<Target>, web: Web, baseUrl: string, maxPages: int): seq<Post> {
    CrawlEach(targets, Sources(web, baseUrl, maxPages))
  }

  /** `crawl_single_url` as the per-listing crawl of `CrawlEach`. */
  function Sources(web: Web, baseUrl: string, maxPages: int): Target -> seq<Post> {
    t => CrawlSource(t, web, baseUrl, maxPages)
  }

  /** No page ends the crawl of a listing. */
  lemma NoPageStops(t: Target, web: Web, baseUrl: string)
    ensures forall n: nat :: !Outcomes(t, web, baseUrl)(n).Stop?
  {
  }

  /** A page whose request fails is skipped and the pages after it are still crawled. */
  lemma FailingPageSkipped(t: Target, web: Web, baseUrl: string, total: int, k: nat)
    requires 1 <= k <= total
    requires !Usable(web.listing(ParamPageRequest(t.url, k)))
    ensures var f := Outcomes(t, web, baseUrl);
      Gather(f, 1, total) == Gather(f, 1, k - 1) + Gather(f, k + 1, total)
  {
    NoPageStops(t, web, baseUrl);
    GatherSkip(Outcomes(t, web, baseUrl), 1, k, total);
  }

  /** The count never exceeds `max_pages` when the marker is there, and is 1 without it. */
  lemma PageCountBound(t: Target, web: Web, maxPages: int)
    requires PageCount(t, web, maxPages).Some?
    ensures var first := web.listing(PageRequest(t.url, None));
      && (first.body.totPage.Some? ==> PageCount(t, web, maxPages).value <= maxPages)
      && (first.body.totPage.None? ==> PageCount(t, web, maxPages).value == 1)
  {
    TotalPagesClampedSpec(web.listing(PageRequest(t.url, None)).body.totPage, maxPages);
  }

  // ---------------------------------------------------------------------
  // The crawler

  class MultiScheduledCrawler {
    const baseUrl: string
    const maxPages: int
    const targets: seq<Target>
    const notification: NotificationConfig

    var existingData: seq<Post>
    /** What `save_data` last wrote. */
    ghost var persisted: seq<Post>
    /** The messages `send_notifications` has logged, in order. */
    ghost var notified: seq<string>

    constructor(baseUrl: string, maxPages: int, targets: seq<Target>, notification: NotificationConfig, stored: seq<Post>)
      ensures this.baseUrl == baseUrl && this.maxPages == maxPages && this.targets == targets
      ensures this.notification == notification
      ensures existingData == stored && persisted == stored && notified == []
    {
      this.baseUrl := baseUrl;
      this.maxPages := maxPages;
      this.targets := targets;
      this.notification := notification;
      existingData := stored;
      persisted := stored;
      notified := [];
    }

    /** `crawl_single_url`: pages 1..N in order, a failing page skipped, the posts of a page filled from their detail pages. */
    method CrawlSingleUrl(t: Target, web: Web) returns (data: seq<Post>)
      ensures data == CrawlSource(t, web, baseUrl, maxPages)
    {
      data := [];
      var count := PageCount(t, web, maxPages);
      if count.None? {
        return;
      }
      var total := count.value;
      var f := Outcomes(t, web, baseUrl);
      var page := 1;
      while page <= total
        invariant 1 <= page
        invariant data + Gather(f, page, total) == Gather(f, 1, total)
        decreases total - page
      {
        var o := CrawlPage(t, page, web);
        assert f(page) == o;
        if o.Posts? {
          data := data + o.posts;
        }
        page := page + 1;
      }
    }

    /** One pass of the page loop. */
    method CrawlPage(t: Target, n: nat, web: Web) returns (o: PageOutcome)
      ensures o == Outcome(t, n, web, baseUrl)
    {
      var resp := web.listing(ParamPageRequest(t.url, n));
      if !Usable(resp) {
        return Skip;
      }
      var parsed := ParseTable(resp.body.table, Listing.WithContent, Context(t.category, web, baseUrl));
      if parsed.Raised? {
        return Skip;
      }
      var filled := EnrichPosts(parsed.value, Fill(web, baseUrl));
      return Posts(filled);
    }

    /** `crawl_all_urls`: the listings' posts, listing after listing. */
    method CrawlAllUrls(web: Web) returns (all: seq<Post>)
      ensures all == CrawlAll(targets, web, baseUrl, maxPages)
    {
      all := [];
      for i := 0 to |targets|
        invariant all == CrawlAll(targets[..i], web, baseUrl, maxPages)
      {
        var data := CrawlSingleUrl(targets[i], web);
        CrawlEachStep(targets, i, Sources(web, baseUrl, maxPages));
        all := all + data;
      }
      assert targets[..|targets|] == targets;
    }

    /**
     * `crawl_new_posts`: the new posts go in front of the snapshot, which is
     * saved, and are announced when notifications are enabled, then returned.
     * A template the announcement cannot format raises inside the `try`, so
     * the run returns nothing after the snapshot was already replaced.
     */
    method CrawlNewPosts(web: Web) returns (newPosts: seq<Post>)
      modifies this
      ensures var found := NewPosts(old(existingData), CrawlAll(targets, web, baseUrl, maxPages));
        var sent := if found != [] && notification.enabled then Notifications(notification, found) else Ok([]);
        && existingData == Merge(found, old(existingData))
        && persisted == (if found != [] then existingData else old(persisted))
        && newPosts == (if sent.Raised? then [] else found)
        && notified == old(notified) + (if sent.Ok? then sent.value else [])
    {
      var current := CrawlAllUrls(web);
      var found := FindNewPosts(existingData, current);
      newPosts := [];
      if found != [] {
        existingData := found + existingData;
        persisted := existingData;
        if notification.enabled {
          var sent := SendNotifications(found);
          if sent.Raised? {
            return;
          }
          notified := notified + sent.value;
        }
        newPosts := found;
      }
    }

    /** `run_full_crawl`: the snapshot becomes exactly the fresh crawl, which is saved and returned. */
    method RunFullCrawl(web: Web) returns (all: seq<Post>)
      modifies this
      ensures all == CrawlAll(targets, web, baseUrl, maxPages)
      ensures existingData == all && persisted == all && notified == old(notified)
    {
      all := CrawlAllUrls(web);
      existingData := all;
      persisted := all;
    }

    /** `send_notifications`: the messages it logs, or the exception `format` raises. */
    method SendNotifications(newPosts: seq<Post>) returns (sent: Result<seq<string>>)
      ensures sent == Notifications(notification, newPosts)
    {
      if !notification.enabled {
        return Ok([]);
      }
      var webhookUrl := notification.webhookUrl.GetOr("");
      var template := notification.template.GetOr(DefaultTemplate);
      if webhookUrl == "" {
        return Ok([]);
      }
      if newPosts != [] && Unformattable(template, true) {
        return Raised;
      }
      var messages := FormatAll(template, newPosts);
      return Ok(messages);
    }

    /** `get_summary_by_category`: the counting loop over the snapshot. */
    method SummaryByCategory() returns (counts: seq<(string, nat)>)
      ensures counts == Summary.CategoryCounts(existingData)
    {
      var buckets := Summary.TallyByCategory(existingData);
      counts := seq(|buckets|, k requires 0 <= k < |buckets| => (buckets[k].category, buckets[k].count));
    }
  }

  /** An immediate second run finds nothing new: every URL it crawls again is now in the snapshot. */
  lemma SecondRunFindsNothing(existing: seq<Post>, current: seq<Post>)
    ensures NewPosts(Merge(NewPosts(existing, current), existing), current) == []
  {
    Delta.SecondRunFindsNothing(existing, current);
  }
}
