/**
 * What every copy of the crawling loop shares: the outside world it talks to,
 * the walk over listing pages 1..N and the filling of posts that have a URL.
 */
module Crawl {
  import opened Wrappers
  import opened Records
  import opened Fetch
  import opened Listing
  import opened Paging
  import opened Detail

  /** A configured listing: its URL and the category label its posts get. */
  datatype Target = Target(url: string, category: string)

  /**
   * The outside world of one crawl: `requests.get` for listing and detail
   * pages (answered as parsed documents), `urljoin`, Python's `hash`, and the
   * clock as the two strings the parsers format from `datetime.now()`.
   */
  datatype Web = Web(
    listing: PageRequest -> Response<ListingDoc>,
    detail: string -> Response<DetailDoc>,
    join: (string, string) -> string,
    hash: string -> int,
    now: string,
    today: string)

  /** The parser's context: links are resolved against the configured base URL. */
  function Context(category: string, web: Web, baseUrl: string): RowContext {
    RowContext(category, web.now, JoinWith(web.join, baseUrl), web.hash)
  }

  /** What one listing page contributes: its posts, nothing (the page is skipped), or the end of the crawl. */
  datatype PageOutcome = Posts(posts: seq<Post>) | Skip | Stop

  /**
   * The posts of pages `n`, `n + 1`, ..., `total`, page by page and in page
   * order, up to the first page whose outcome ends the crawl.
   */
  function Gather(f: nat -> PageOutcome, n: nat, total: int): seq<Post>
    decreases total - n
  {
    if n > total then []
    else
      match f(n)
      case Stop => []
      case Skip => Gather(f, n + 1, total)
      case Posts(ps) => ps + Gather(f, n + 1, total)
  }

  /** A page that ends the crawl drops every later page and keeps every earlier one. */
  lemma {:induction false} GatherStop(f: nat -> PageOutcome, n: nat, k: nat, total: int)
    requires n <= k <= total && f(k).Stop?
    ensures Gather(f, n, total) == Gather(f, n, k - 1)
    decreases k - n
  {
    if n < k {
      GatherStop(f, n + 1, k, total);
    }
  }

  /** Without a page that ends the crawl before `m`, the pages before `m` and from `m` on contribute in sequence. */
  lemma {:induction false} GatherSplit(f: nat -> PageOutcome, n: nat, m: nat, total: int)
    requires n <= m <= total + 1
    requires forall i :: n <= i < m ==> !f(i).Stop?
    ensures Gather(f, n, total) == Gather(f, n, m - 1) + Gather(f, m, total)
    decreases m - n
  {
    if n < m {
      GatherSplit(f, n + 1, m, total);
      GatherStep(f, n, m - 1);
      GatherStep(f, n, total);
      var h := PagePosts(f(n));
      var a := Gather(f, n + 1, m - 1);
      var b := Gather(f, m, total);
      AppendAssoc(h, a, b);
    }
  }

  /** The posts a page outcome contributes. */
  function PagePosts(o: PageOutcome): seq<Post> {
    if o.Posts? then o.posts else []
  }

  lemma GatherStep(f: nat -> PageOutcome, n: nat, total: int)
    requires n <= total && !f(n).Stop?
    ensures Gather(f, n, total) == PagePosts(f(n)) + Gather(f, n + 1, total)
  {
  }

  /** A skipped page contributes nothing and the pages after it are still gathered. */
  lemma GatherSkip(f: nat -> PageOutcome, n: nat, k: nat, total: int)
    requires n <= k <= total && f(k).Skip?
    requires forall i :: n <= i < k ==> !f(i).Stop?
    ensures Gather(f, n, total) == Gather(f, n, k - 1) + Gather(f, k + 1, total)
  {
    GatherSplit(f, n, k, total);
  }

  /** Every gathered post comes from a page between `n` and `total` that produced it. */
  lemma {:induction false} GatherFrom(f: nat -> PageOutcome, n: nat, total: int)
    ensures forall p | p in Gather(f, n, total) :: exists i :: n <= i <= total && f(i).Posts? && p in f(i).posts
    decreases total - n
  {
    if n <= total {
      GatherFrom(f, n + 1, total);
    }
  }

  /** The pages gathered by a crawl that never ends early: every page's posts, in page order. */
  lemma {:induction false} GatherAll(f: nat -> PageOutcome, n: nat, total: int)
    requires forall i :: n <= i <= total ==> f(i).Posts?
    ensures |Gather(f, n, total)| == SumLengths(f, n, total)
    decreases total - n
  {
    if n <= total {
      GatherAll(f, n + 1, total);
    }
  }

  function SumLengths(f: nat -> PageOutcome, n: nat, total: int): nat
    requires forall i :: n <= i <= total ==> f(i).Posts?
    decreases total - n
  {
    if n > total then 0 else |f(n).posts| + SumLengths(f, n + 1, total)
  }

  // ---------------------------------------------------------------------
  // Filling posts with their detail page

  /** Posts with a URL are passed through `fill`; the others are kept as they are. */
  function Enriched(posts: seq<Post>, fill: Post -> Post): (r: seq<Post>)
    ensures |r| == |posts|
  {
    if posts == [] then []
    else [if posts[0].url != "" then fill(posts[0]) else posts[0]] + Enriched(posts[1..], fill)
  }

  /** Only posts with a URL are filled, each in place. */
  lemma {:induction false} EnrichedSpec(posts: seq<Post>, fill: Post -> Post)
    ensures forall k :: 0 <= k < |posts| ==>
      Enriched(posts, fill)[k] == if posts[k].url != "" then fill(posts[k]) else posts[k]
  {
    if posts != [] {
      EnrichedSpec(posts[1..], fill);
      forall k | 1 <= k < |posts|
        ensures Enriched(posts, fill)[k] == Enriched(posts[1..], fill)[k - 1]
      {
      }
    }
  }

  lemma EnrichedSingle(p: Post, fill: Post -> Post)
    ensures Enriched([p], fill) == [if p.url != "" then fill(p) else p]
  {
    assert [p][1..] == [];
  }

  /** Filling a concatenation fills each part. */
  lemma {:induction false} EnrichedAppend(a: seq<Post>, b: seq<Post>, fill: Post -> Post)
    ensures Enriched(a + b, fill) == Enriched(a, fill) + Enriched(b, fill)
  {
    if a != [] {
      assert (a + b)[0] == a[0] && (a + b)[1..] == a[1..] + b;
      EnrichedAppend(a[1..], b, fill);
      AppendAssoc([if a[0].url != "" then fill(a[0]) else a[0]], Enriched(a[1..], fill), Enriched(b, fill));
    } else {
      assert a + b == b;
    }
  }

  /** The `for post in page_data: if post['url']: ...` loop, which updates the page's posts in place. */
  method EnrichPosts(posts: seq<Post>, fill: Post -> Post) returns (r: seq<Post>)
    ensures r == Enriched(posts, fill)
  {
    r := [];
    for i := 0 to |posts|
      invariant r + Enriched(posts[i..], fill) == Enriched(posts, fill)
    {
      assert posts[i..][1..] == posts[i + 1..];
      var p := posts[i];
      if p.url != "" {
        p := fill(p);
      }
      r := r + [p];
    }
    assert posts[|posts|..] == [];
  }

  // ---------------------------------------------------------------------
  // Several listings

  /** `crawl_all_urls` in its sequential order: each listing's posts, `crawl(t)`, one listing after the other. */
  function CrawlEach(targets: seq<Target>, crawl: Target -> seq<Post>): seq<Post> {
    if targets == [] then []
    else crawl(targets[0]) + CrawlEach(targets[1..], crawl)
  }

  /** Crawling a concatenation of listings crawls each part, in order. */
  lemma {:induction false} CrawlEachAppend(a: seq<Target>, b: seq<Target>, crawl: Target -> seq<Post>)
    ensures CrawlEach(a + b, crawl) == CrawlEach(a, crawl) + CrawlEach(b, crawl)
  {
    if a != [] {
      assert (a + b)[0] == a[0] && (a + b)[1..] == a[1..] + b;
      CrawlEachAppend(a[1..], b, crawl);
      AppendAssoc(crawl(a[0]), CrawlEach(a[1..], crawl), CrawlEach(b, crawl));
    } else {
      assert a + b == b;
    }
  }

  /** One more listing: the crawl of the first `i + 1` listings extends that of the first `i` by that listing's posts. */
  lemma CrawlEachStep(targets: seq<Target>, i: nat, crawl: Target -> seq<Post>)
    requires i < |targets|
    ensures CrawlEach(targets[..i + 1], crawl) == CrawlEach(targets[..i], crawl) + crawl(targets[i])
  {
    assert targets[..i + 1] == targets[..i] + [targets[i]];
    CrawlEachAppend(targets[..i], [targets[i]], crawl);
    assert [targets[i]][1..] == [];
  }
}
