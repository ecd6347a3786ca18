/**
 * crawler.py: the first, script-style crawler of the department's academic
 * notice board. `main` checks the board's first page, then crawls pages 1
 * and 2 whatever the page count says, stops at the first page whose request
 * or status fails, and saves what it collected when that is not empty.
 */
module BasicCrawler {
  import opened Wrappers
  import opened Records
  import opened Fetch
  import opened Listing
  import opened Paging
  import opened Detail
  import opened Crawl

  const BaseUrl := "https://csai.jbnu.ac.kr"
  const BoardUrl := "https://csai.jbnu.ac.kr/csai/29107/subview.do"
  /** `total_pages = 2` overrides the count read from the first page. */
  const PagesCrawled := 2

  /** What one page of the loop does: contribute its posts, `break`, or raise out of `main`. */
  datatype PageStep = Page(posts: seq<Post>) | Break | Crash

  /** How `main` ends: an exception escapes it, it returns on a status other than 200, or it finishes with the data collected. */
  datatype RunResult = Crashed | Refused(status: int) | Finished(data: seq<Post>)

  /** `post['content']` is set only when `get_post_content` returned a result. */
  function Fill(web: Web): Post -> Post {
    (p: Post) =>
      match BasicDetail(web.detail(p.url))
      case None => p
      case Some(text) => p.(content := Some(text))
  }

  /**
   * Page `n`: a request or status failure is a `RequestException` and breaks
   * the loop; a table without a body raises an `AttributeError`, which the
   * loop does not catch.
   */
  function Step(n: nat, web: Web): PageStep {
    var resp := web.listing(ParamPageRequest(BoardUrl, n));
    if !Usable(resp) then Break
    else
      match TableParse(resp.body.table, Bare, Context("", web, BaseUrl))
      case Raised => Crash
      case Ok(ps) => Page(Enriched(ps, Fill(web)))
  }

  function Steps(web: Web): nat -> PageStep {
    (n: nat) => Step(n, web)
  }

  /** `d + r` when `r` is a list, a failure otherwise. */
  function Prefixed(d: seq<Post>, r: Result<seq<Post>>): Result<seq<Post>> {
    match r
    case Raised => Raised
    case Ok(rest) => Ok(d + rest)
  }

  /** Pages `n`..`total` in order, up to the first `break`; a crash anywhere fails the whole walk. */
  function Walk(f: nat -> PageStep, n: nat, total: int): Result<seq<Post>>
    decreases total - n
  {
    if n > total then Ok([])
    else
      match f(n)
      case Break => Ok([])
      case Crash => Raised
      case Page(ps) => Prefixed(ps, Walk(f, n + 1, total))
  }

  /** The whole of `main`. */
  function Run(web: Web): RunResult {
    var first := web.listing(PageRequest(BoardUrl, None));
    if first.RequestFailed? then Crashed
    else if first.status != 200 then Refused(first.status)
    else if TotalPagesUnclamped(first.body.totPage).Raised? then Crashed
    else
      match Walk(Steps(web), 1, PagesCrawled)
      case Raised => Crashed
      case Ok(data) => Finished(data)
  }

  /** `save_to_json` is called exactly when the run finishes with some data. */
  predicate Saves(r: RunResult) {
    r.Finished? && r.data != []
  }

  lemma PrefixedAssoc(a: seq<Post>, b: seq<Post>, r: Result<seq<Post>>)
    ensures Prefixed(a, Prefixed(b, r)) == Prefixed(a + b, r)
  {
    if r.Ok? {
      AppendAssoc(a, b, r.value);
    }
  }

  lemma PrefixedNothing(r: Result<seq<Post>>)
    ensures Prefixed([], r) == r
  {
    if r.Ok? {
      assert [] + r.value == r.value;
    }
  }

  /** A `break` at page `k` keeps exactly what the pages before it collected. */
  lemma {:induction false} WalkBreak(f: nat -> PageStep, n: nat, k: nat, total: int)
    requires n <= k <= total && f(k).Break?
    ensures Walk(f, n, total) == Walk(f, n, k - 1)
    decreases k - n
  {
    if n < k {
      WalkBreak(f, n + 1, k, total);
    }
  }

  /** A crash at page `k` after pages that neither break nor crash fails the whole walk: earlier pages are lost. */
  lemma {:induction false} WalkCrash(f: nat -> PageStep, n: nat, k: nat, total: int)
    requires n <= k <= total && f(k).Crash?
    requires forall i :: n <= i < k ==> f(i).Page?
    ensures Walk(f, n, total).Raised?
    decreases k - n
  {
    if n < k {
      WalkCrash(f, n + 1, k, total);
    }
  }

  /** The data of a walk without `break` or crash is every page's posts, in page order. */
  lemma {:induction false} WalkAll(f: nat -> PageStep, n: nat, total: int)
    requires forall i :: n <= i <= total ==> f(i).Page?
    ensures Walk(f, n, total).Ok?
    ensures |Walk(f, n, total).value| == PageSizes(f, n, total)
    decreases total - n
  {
    if n <= total {
      WalkAll(f, n + 1, total);
    }
  }

  function PageSizes(f: nat -> PageStep, n: nat, total: int): nat
    requires forall i :: n <= i <= total ==> f(i).Page?
    decreases total - n
  {
    if n > total then 0 else |f(n).posts| + PageSizes(f, n + 1, total)
  }

  /**
   * The page count is read only for its failure: a first page answering 200
   * with a readable count always leads to the walk over pages 1 and 2.
   */
  lemma RunIgnoresCount(web: Web)
    requires web.listing(PageRequest(BoardUrl, None)).Response?
    requires web.listing(PageRequest(BoardUrl, None)).status == 200
    requires TotalPagesUnclamped(web.listing(PageRequest(BoardUrl, None)).body.totPage).Ok?
    ensures Run(web) == match Walk(Steps(web), 1, 2) { case Raised => Crashed case Ok(d) => Finished(d) }
  {
  }

  /** A failing request for page 1 ends the run with nothing to save. */
  lemma FirstPageBreak(web: Web)
    requires Run(web).Finished?
    requires !Usable(web.listing(ParamPageRequest(BoardUrl, 1)))
    ensures Run(web) == Finished([]) && !Saves(Run(web))
  {
  }

  /**
   * Posts without a URL keep no content key; a post with a URL gets the
   * detail text only when its detail page could be read.
   */
  lemma FillSpec(ps: seq<Post>, web: Web)
    ensures var r := Enriched(ps, Fill(web));
      forall k :: 0 <= k < |ps| ==>
        && r[k].url == ps[k].url
        && (ps[k].url == "" || !Usable(web.detail(ps[k].url)) ==> r[k] == ps[k])
        && (ps[k].url != "" && Usable(web.detail(ps[k].url)) ==> r[k] == ps[k].(content := Some(BasicText(web.detail(ps[k].url).body))))
  {
    EnrichedSpec(ps, Fill(web));
  }

  /** `main`, with the page loop and its `break`. */
  method CrawlBoard(web: Web) returns (r: RunResult)
    ensures r == Run(web)
  {
    var first := web.listing(PageRequest(BoardUrl, None));
    if first.RequestFailed? {
      return Crashed;
    }
    if first.status != 200 {
      return Refused(first.status);
    }
    if TotalPagesUnclamped(first.body.totPage).Raised? {
      return Crashed;
    }
    var total := PagesCrawled;
    var f := Steps(web);
    var allData := [];
    var page := 1;
    PrefixedNothing(Walk(f, 1, total));
    while page <= total
      invariant 1 <= page <= total + 1
      invariant Walk(f, 1, total) == Prefixed(allData, Walk(f, page, total))
      decreases total - page
    {
      var o := CrawlPage(page, web);
      assert f(page) == o;
      if o.Break? {
        assert Walk(f, page, total) == Ok([]);
        break;
      }
      if o.Crash? {
        return Crashed;
      }
      PrefixedAssoc(allData, o.posts, Walk(f, page + 1, total));
      allData := allData + o.posts;
      page := page + 1;
    }
    assert allData + [] == allData;
    return Finished(allData);
  }

  /** One pass of the page loop. */
  method CrawlPage(n: nat, web: Web) returns (o: PageStep)
    ensures o == Step(n, web)
  {
    var resp := web.listing(ParamPageRequest(BoardUrl, n));
    if !Usable(resp) {
      return Break;
    }
    var parsed := ParseTable(resp.body.table, Bare, Context("", web, BaseUrl));
    if parsed.Raised? {
      return Crash;
    }
    var filled := EnrichPosts(parsed.value, Fill(web));
    return Page(filled);
  }
}
