/**
 * scheduled_crawler.py: the periodic crawler of one department listing. A run
 * reads the page count from the first page, walks pages 1..N and accepts a
 * post when its URL is set and not seen yet, the seen set growing as posts are
 * accepted; only accepted posts have their detail text fetched.
 */
module Scheduled {
  import opened Wrappers
  import opened Records
  import opened Fetch
  import opened Listing
  import opened Paging
  import opened Detail
  import opened Crawl
  import opened Delta
  import opened Notify

  /** "새로운 공지사항이 등록되었습니다: {title}" */
  const DefaultTemplate: seq<Piece> := [Lit("새로운 공지사항이 등록되었습니다: "), TitleField]

  /**
   * `send_notifications`: `format(title=...)` raises on a template with a
   * `{category}` field as soon as there is a post to announce.
   */
  function Announcements(cfg: NotificationConfig, posts: seq<Post>): Result<seq<string>> {
    if !Announces(cfg) then Ok([])
    else
      var template := cfg.template.GetOr(DefaultTemplate);
      if posts != [] && Unformattable(template, false) then Raised else Ok(Messages(template, posts))
  }

  /** Every post is announced, in order, when the template only uses the title; any other field raises on the first post. */
  lemma AnnouncementsSpec(cfg: NotificationConfig, posts: seq<Post>)
    ensures !Announces(cfg) ==> Announcements(cfg, posts) == Ok([])
    ensures Announces(cfg) && !Unformattable(cfg.template.GetOr(DefaultTemplate), false) ==>
      var r := Announcements(cfg, posts);
      r.Ok? && |r.value| == |posts| && forall k :: 0 <= k < |posts| ==> r.value[k] == Format(cfg.template.GetOr(DefaultTemplate), posts[k])
    ensures Announces(cfg) && (CategoryField in cfg.template.GetOr(DefaultTemplate) || OtherField in cfg.template.GetOr(DefaultTemplate)) ==>
      (Announcements(cfg, posts).Raised? <==> posts != [])
  {
    MessagesSpec(cfg.template.GetOr(DefaultTemplate), posts);
  }

  /** A page's records with the parser's context: links resolved against the configured base URL. */
  function Outcome(targetUrl: string, n: nat, web: Web, baseUrl: string): PageOutcome {
    var resp := web.listing(ParamPageRequest(targetUrl, n));
    if !Usable(resp) then Skip
    else
      match TableParse(resp.body.table, Stamped, Context("", web, baseUrl))
      case Raised => Skip
      case Ok(ps) => Posts(ps)
  }

  function Outcomes(targetUrl: string, web: Web, baseUrl: string): nat -> PageOutcome {
    (n: nat) => Outcome(targetUrl, n, web, baseUrl)
  }

  /** The clamped page count of the first page; `None` when that request, its status or the count fails. */
  function PageCount(targetUrl: string, web: Web, maxPages: int): Option<int> {
    var first := web.listing(PageRequest(targetUrl, None));
    if !Usable(first) then None
    else
      match TotalPagesClamped(first.body.totPage, maxPages)
      case Raised => None
      case Ok(total) => Some(total)
  }

  /** An accepted post gets the text of its detail page, `""` when that fails. */
  function Fill(web: Web): Post -> Post {
    (p: Post) => p.(content := Some(TextDetail(web.detail(p.url))))
  }

  /** `existing_urls`: every stored record's URL, the empty one included. */
  function AllUrls(existing: seq<Post>): set<string> {
    set p | p in existing :: p.url
  }

  /**
   * The posts a run accepts, filled with their detail text; `None` when the
   * first page or its count fails, which ends the run before the page loop.
   */
  function Accepted(existing: seq<Post>, targetUrl: string, web: Web, baseUrl: string, maxPages: int): Option<seq<Post>> {
    match PageCount(targetUrl, web, maxPages)
    case None => None
    case Some(total) => Some(Enriched(Accept(AllUrls(existing), Gather(Outcomes(targetUrl, web, baseUrl), 1, total)), Fill(web)))
  }

  /**
   * The accepted posts were crawled, have a URL that no stored record has,
   * have pairwise-distinct URLs, and carry the text of their detail page.
   */
  lemma AcceptedSpec(existing: seq<Post>, targetUrl: string, web: Web, baseUrl: string, maxPages: int)
    requires Accepted(existing, targetUrl, web, baseUrl, maxPages).Some?
    ensures var acc := Accepted(existing, targetUrl, web, baseUrl, maxPages).value;
      var crawled := Gather(Outcomes(targetUrl, web, baseUrl), 1, PageCount(targetUrl, web, maxPages).value);
      && DistinctUrls(acc)
      && forall k :: 0 <= k < |acc| ==>
        && acc[k].url != ""
        && (forall q | q in existing :: q.url != acc[k].url)
        && acc[k].content == Some(TextDetail(web.detail(acc[k].url)))
        && acc[k].(content := None) in (set p | p in crawled :: p.(content := None))
  {
    var crawled := Gather(Outcomes(targetUrl, web, baseUrl), 1, PageCount(targetUrl, web, maxPages).value);
    var seen := AllUrls(existing);
    var raw := Accept(seen, crawled);
    var acc := Enriched(raw, Fill(web));
    AcceptMembers(seen, crawled);
    AcceptDistinct(seen, crawled);
    EnrichedSpec(raw, Fill(web));
    forall k | 0 <= k < |acc|
      ensures acc[k].url == raw[k].url && acc[k] == raw[k].(content := Some(TextDetail(web.detail(raw[k].url))))
    {
      assert raw[k] in raw;
    }
    forall k | 0 <= k < |acc|
      ensures acc[k].url != ""
      ensures forall q | q in existing :: q.url != acc[k].url
      ensures acc[k].(content := None) in (set p | p in crawled :: p.(content := None))
    {
      assert raw[k] in raw;
      assert raw[k].(content := None) == acc[k].(content := None);
    }
    assert DistinctUrls(acc) by {
      forall i, j | 0 <= i < j < |acc| && acc[i].url != ""
        ensures acc[i].url != acc[j].url
      {
      }
    }
  }

  /** With distinct stored URLs, the snapshot after a run keeps its URLs distinct. */
  lemma MergeKeepsDistinct(existing: seq<Post>, targetUrl: string, web: Web, baseUrl: string, maxPages: int)
    requires DistinctUrls(existing)
    requires Accepted(existing, targetUrl, web, baseUrl, maxPages).Some?
    ensures DistinctUrls(Merge(Accepted(existing, targetUrl, web, baseUrl, maxPages).value, existing))
  {
    var acc := Accepted(existing, targetUrl, web, baseUrl, maxPages).value;
    AcceptedSpec(existing, targetUrl, web, baseUrl, maxPages);
    forall p | p in acc
      ensures p.url !in UrlSet(existing)
    {
      var k :| 0 <= k < |acc| && acc[k] == p;
    }
    DistinctConcat(acc, existing);
  }

  /** A failing page is skipped and the pages after it are still crawled. */
  lemma FailingPageSkipped(targetUrl: string, web: Web, baseUrl: string, total: int, k: nat)
    requires 1 <= k <= total
    requires !Usable(web.listing(ParamPageRequest(targetUrl, k)))
    ensures var f := Outcomes(targetUrl, web, baseUrl);
      Gather(f, 1, total) == Gather(f, 1, k - 1) + Gather(f, k + 1, total)
  {
    var f := Outcomes(targetUrl, web, baseUrl);
    assert forall n: nat :: !f(n).Stop?;
    GatherSkip(f, 1, k, total);
  }

  class ScheduledCrawler {
    const baseUrl: string
    const targetUrl: string
    const maxPages: int
    const notification: NotificationConfig

    var existingData: seq<Post>
    /** What `save_data` last wrote. */
    ghost var persisted: seq<Post>
    /** The messages `send_notifications` has logged, in order. */
    ghost var notified: seq<string>

    constructor(baseUrl: string, targetUrl: string, maxPages: int, notification: NotificationConfig, stored: seq<Post>)
      ensures this.baseUrl == baseUrl && this.targetUrl == targetUrl && this.maxPages == maxPages
      ensures this.notification == notification
      ensures existingData == stored && persisted == stored && notified == []
    {
      this.baseUrl := baseUrl;
      this.targetUrl := targetUrl;
      this.maxPages := maxPages;
      this.notification := notification;
      existingData := stored;
      persisted := stored;
      notified := [];
    }

    /**
     * `crawl_new_posts`: the accepted posts go in front of the snapshot, which
     * is saved, and are announced and returned; a run that accepts nothing or
     * fails before the page loop returns nothing and leaves the snapshot as it
     * was. A template the announcement cannot format makes the run return
     * nothing, after the snapshot was already replaced.
     */
    method CrawlNewPosts(web: Web) returns (newPosts: seq<Post>)
      modifies this
      ensures var found := Accepted(old(existingData), targetUrl, web, baseUrl, maxPages);
        var acc := if found.Some? then found.value else [];
        var sent := if acc != [] && notification.enabled then Announcements(notification, acc) else Ok([]);
        && existingData == Merge(acc, old(existingData))
        && persisted == (if acc != [] then existingData else old(persisted))
        && newPosts == (if sent.Raised? then [] else acc)
        && notified == old(notified) + (if sent.Ok? then sent.value else [])
    {
      newPosts := [];
      var found := CollectNewPosts(web);
      if found.None? {
        return;
      }
      var acc := found.value;
      if acc != [] {
        existingData := acc + existingData;
        persisted := existingData;
        if notification.enabled {
          var sent := SendNotifications(acc);
          if sent.Raised? {
            return;
          }
          notified := notified + sent.value;
        }
        newPosts := acc;
      }
    }

    /** The page loop of `crawl_new_posts`, with the seen set growing as posts are accepted. */
    method CollectNewPosts(web: Web) returns (found: Option<seq<Post>>)
      ensures found == Accepted(existingData, targetUrl, web, baseUrl, maxPages)
    {
      var count := PageCount(targetUrl, web, maxPages);
      if count.None? {
        return None;
      }
      var total := count.value;
      var f := Outcomes(targetUrl, web, baseUrl);
      ghost var seen0 := AllUrls(existingData);
      var existingUrls := AllUrls(existingData);
      var allNew := [];
      ghost var raw: seq<Post> := [];
      var page := 1;
      while page <= total
        invariant 1 <= page
        invariant Accept(seen0, Gather(f, 1, total)) == raw + Accept(existingUrls, Gather(f, page, total))
        invariant allNew == Enriched(raw, Fill(web))
        decreases total - page
      {
        var o := FetchPage(page, web);
        assert f(page) == o;
        var rest := Gather(f, page + 1, total);
        GatherStep(f, page, total);
        if o.Posts? {
          AcceptAppend(existingUrls, o.posts, rest);
          var accepted := Accept(existingUrls, o.posts);
          AppendAssoc(raw, accepted, Accept(SeenAfter(existingUrls, o.posts), rest));
          var acc, seen := AcceptPage(existingUrls, o.posts, web);
          EnrichedAppend(raw, accepted, Fill(web));
          raw := raw + accepted;
          allNew := allNew + acc;
          existingUrls := seen;
        } else {
          assert Gather(f, page, total) == [] + rest == rest;
        }
        page := page + 1;
      }
      assert Gather(f, page, total) == [];
      assert raw + [] == raw;
      return Some(allNew);
    }

    /** One page's request and parse. */
    method FetchPage(n: nat, web: Web) returns (o: PageOutcome)
      ensures o == Outcome(targetUrl, n, web, baseUrl)
    {
      var resp := web.listing(ParamPageRequest(targetUrl, n));
      if !Usable(resp) {
        return Skip;
      }
      var parsed := ParseTable(resp.body.table, Stamped, Context("", web, baseUrl));
      if parsed.Raised? {
        return Skip;
      }
      return Posts(parsed.value);
    }

    /** The row loop of one page: accept, fetch the detail text, add the URL to the seen set. */
    method AcceptPage(seen: set<string>, posts: seq<Post>, web: Web) returns (acc: seq<Post>, seen': set<string>)
      ensures acc == Enriched(Accept(seen, posts), Fill(web))
      ensures seen' == SeenAfter(seen, posts)
    {
      acc := [];
      seen' := seen;
      ghost var raw: seq<Post> := [];
      for i := 0 to |posts|
        invariant Accept(seen, posts) == raw + Accept(seen', posts[i..])
        invariant seen' == seen + UrlSet(raw)
        invariant acc == Enriched(raw, Fill(web))
      {
        var p := posts[i];
        var rest := posts[i + 1..];
        assert posts[i..] == [p] + rest;
        AcceptCons(seen', p, rest);
        if p.url != "" && p.url !in seen' {
          var tail := Accept(seen' + {p.url}, rest);
          AppendAssoc(raw, [p], tail);
          UrlSetAppend(raw, [p]);
          assert UrlSet([p]) == {p.url};
          EnrichedAppend(raw, [p], Fill(web));
          EnrichedSingle(p, Fill(web));
          var content := TextDetail(web.detail(p.url));
          assert Fill(web)(p) == p.(content := Some(content));
          acc := acc + [p.(content := Some(content))];
          raw := raw + [p];
          seen' := seen' + {p.url};
        }
      }
      assert Accept(seen', posts[|posts|..]) == [];
      assert raw + [] == raw;
    }

    /** `send_notifications` as called by `crawl_new_posts`. */
    method SendNotifications(newPosts: seq<Post>) returns (sent: Result<seq<string>>)
      ensures sent == Announcements(notification, newPosts)
    {
      if !notification.enabled {
        return Ok([]);
      }
      var webhookUrl := notification.webhookUrl.GetOr("");
      var template := notification.template.GetOr(DefaultTemplate);
      if webhookUrl == "" {
        return Ok([]);
      }
      if newPosts != [] && Unformattable(template, false) {
        return Raised;
      }
      var messages := FormatAll(template, newPosts);
      return Ok(messages);
    }
  }
}
