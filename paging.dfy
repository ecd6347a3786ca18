/**
 * How many listing pages a crawler visits, and which request fetches page n.
 *
 * Every crawler reads the `_totPage` marker of the first listing page; the
 * service of new/crawler_service.py also knows the program-application site,
 * whose pager is a row of numbered links or a "3 / 12" text.
 */
module Paging {
  import opened Wrappers
  import opened Text
  import opened Listing

  const CsaiHostName := "csai.jbnu.ac.kr"
  const SwunivHostName := "swuniv.jbnu.ac.kr"

  function Min(a: int, b: int): int { if a <= b then a else b }

  /**
   * `int(re.search(r'\d+', span.text).group())` when the marker exists, else 1;
   * a marker without any digit makes `.group()` fail on `None`.
   */
  function MarkerPages(totPage: Option<string>): Result<nat> {
    match totPage
    case None => Ok(1)
    case Some(t) =>
      match FirstDigitRun(t)
      case None => Raised
      case Some(d) => Ok(ParseNat(d))
  }

  /**
   * The count fails exactly when the marker exists and holds no digit; a
   * marker whose first number is written `str(n)` gives `n`.
   */
  lemma MarkerPagesSpec(totPage: Option<string>, pre: string, n: nat, post: string)
    ensures MarkerPages(totPage).Raised? <==> totPage.Some? && forall i :: 0 <= i < |totPage.value| ==> !IsDigit(totPage.value[i])
    ensures (forall i :: 0 <= i < |pre| ==> !IsDigit(pre[i])) && (post == [] || !IsDigit(post[0])) ==>
      MarkerPages(Some(pre + NatToString(n) + post)) == Ok(n)
  {
    if (forall i :: 0 <= i < |pre| ==> !IsDigit(pre[i])) && (post == [] || !IsDigit(post[0])) {
      FirstDigitRunAfter(pre, NatToString(n), post);
      ParseNatToString(n);
    }
  }

  /** The first digit run of `pre + d + post` is `d` when `pre` has no digit and `post` does not continue `d`. */
  lemma {:induction false} FirstDigitRunAfter(pre: string, d: string, post: string)
    requires forall i :: 0 <= i < |pre| ==> !IsDigit(pre[i])
    requires IsDigits(d) && (post == [] || !IsDigit(post[0]))
    ensures FirstDigitRun(pre + d + post) == Some(d)
    decreases |pre|
  {
    var s := pre + d + post;
    if pre == [] {
      assert s == d + post;
      DigitRunLenOf(d, post);
      assert s[..|d|] == d;
    } else {
      assert s[1..] == pre[1..] + d + post;
      FirstDigitRunAfter(pre[1..], d, post);
    }
  }

  lemma {:induction false} DigitRunLenOf(d: string, post: string)
    requires forall i :: 0 <= i < |d| ==> IsDigit(d[i])
    requires post == [] || !IsDigit(post[0])
    ensures DigitRunLen(d + post) == |d|
    decreases |d|
  {
    if d == [] {
      assert d + post == post;
    } else {
      assert (d + post)[1..] == d[1..] + post;
      DigitRunLenOf(d[1..], post);
    }
  }

  /** `get_total_pages` of crawler.py and multi_url_crawler.py: the marker's number, not clamped. */
  function TotalPagesUnclamped(totPage: Option<string>): Result<nat> {
    MarkerPages(totPage)
  }

  /** `get_total_pages` of scheduled_crawler.py and multi_url_scheduled_crawler.py: the marker's number clamped by `max_pages`. */
  function TotalPagesClamped(totPage: Option<string>, maxPages: int): Result<int> {
    match MarkerPages(totPage)
    case Raised => Raised
    case Ok(n) => if totPage.Some? then Ok(Min(n, maxPages)) else Ok(1)
  }

  /** The clamped count is the marker's number capped by `max_pages`, 1 without a marker, and fails exactly when the unclamped one does. */
  lemma TotalPagesClampedSpec(totPage: Option<string>, maxPages: int)
    ensures TotalPagesClamped(totPage, maxPages).Raised? <==> TotalPagesUnclamped(totPage).Raised?
    ensures totPage.None? ==> TotalPagesClamped(totPage, maxPages) == Ok(1)
    ensures totPage.Some? && TotalPagesUnclamped(totPage).Ok? ==>
      var n := TotalPagesUnclamped(totPage).value;
      var r := TotalPagesClamped(totPage, maxPages).value;
      r <= n && r <= maxPages && (r == n || r == maxPages)
  {
  }

  /** The stripped texts of the page's links that are all digits, as page numbers, in document order. */
  function DigitLinkPages(links: seq<Link>): (r: seq<nat>)
    ensures |r| <= |links|
  {
    if links == [] then []
    else
      var t := Strip(links[0].text);
      (if IsDigits(t) then [ParseNat(t)] else []) + DigitLinkPages(links[1..])
  }

  /** `max(page_numbers)`. */
  function MaxOf(s: seq<nat>): (m: nat)
    requires s != []
    ensures m in s && forall x | x in s :: x <= m
  {
    if |s| == 1 then s[0]
    else
      var m := MaxOf(s[1..]);
      assert forall x | x in s :: x == s[0] || x in s[1..];
      if s[0] >= m then s[0] else m
  }

  // `re.search(r'(\d+)\s*/\s*(\d+)', text).group(2)`: the second number of the
  // leftmost "a / b" in the text.
  function SlashTotal(s: string): (r: Option<string>)
    ensures r.Some? ==> IsDigits(r.value)
    decreases |s|
  {
    if s == [] then None
    else
      match SlashAt(s)
      case Some(d) => Some(d)
      case None => SlashTotal(s[1..])
  }

  // The match of `(\d+)\s*/\s*(\d+)` starting at the first character of `s`, as its second group.
  function SlashAt(s: string): (r: Option<string>)
    ensures r.Some? ==> IsDigits(r.value)
  {
    var n := DigitRunLen(s);
    if n == 0 then None
    else
      var t := StripLeft(s[n..]);
      if t == [] || t[0] != '/' then None
      else
        var u := StripLeft(t[1..]);
        var m := DigitRunLen(u);
        if m == 0 then None else Some(u[..m])
  }

  /** Leading white space before a non-space character is what `lstrip` removes. */
  lemma {:induction false} StripLeftBlanks(w: string, t: string)
    requires forall i :: 0 <= i < |w| ==> IsSpace(w[i])
    requires t == [] || !IsSpace(t[0])
    ensures StripLeft(w + t) == t
    decreases |w|
  {
    if w == [] {
      assert w + t == t;
    } else {
      assert (w + t)[1..] == w[1..] + t;
      StripLeftBlanks(w[1..], t);
    }
  }

  /** A text that starts with "a / b" (any blanks around the slash) matches there, with total `b`. */
  lemma SlashAtOf(a: string, w1: string, w2: string, b: string, rest: string)
    requires IsDigits(a) && IsDigits(b)
    requires forall i :: 0 <= i < |w1| ==> IsSpace(w1[i])
    requires forall i :: 0 <= i < |w2| ==> IsSpace(w2[i])
    requires rest == [] || !IsDigit(rest[0])
    ensures SlashAt(a + (w1 + ("/" + (w2 + (b + rest))))) == Some(b)
  {
    var t := "/" + (w2 + (b + rest));
    var afterA := w1 + t;
    DigitRunLenOf(a, afterA);
    assert (a + afterA)[|a|..] == afterA;
    StripLeftBlanks(w1, t);
    assert t[1..] == w2 + (b + rest);
    StripLeftBlanks(w2, b + rest);
    DigitRunLenOf(b, rest);
    assert (b + rest)[..|b|] == b;
  }

  /** No match starts inside a lead without digits, so the search reaches the text after it. */
  lemma {:induction false} SlashTotalLead(lead: string, t: string, b: string)
    requires forall i :: 0 <= i < |lead| ==> !IsDigit(lead[i])
    requires t != [] && SlashAt(t) == Some(b)
    ensures SlashTotal(lead + t) == Some(b)
    decreases |lead|
  {
    if lead == [] {
      assert lead + t == t;
    } else {
      assert DigitRunLen(lead + t) == 0;
      assert (lead + t)[1..] == lead[1..] + t;
      SlashTotalLead(lead[1..], t, b);
    }
  }

  /**
   * In a text that reads "a / b" (any blanks around the slash) after a lead
   * without digits, the total found is `b`: the leftmost match starts at `a`.
   */
  lemma SlashTotalAfter(lead: string, a: string, w1: string, w2: string, b: string, rest: string)
    requires forall i :: 0 <= i < |lead| ==> !IsDigit(lead[i])
    requires IsDigits(a) && IsDigits(b)
    requires forall i :: 0 <= i < |w1| ==> IsSpace(w1[i])
    requires forall i :: 0 <= i < |w2| ==> IsSpace(w2[i])
    requires rest == [] || !IsDigit(rest[0])
    ensures SlashTotal(lead + (a + (w1 + ("/" + (w2 + (b + rest)))))) == Some(b)
  {
    SlashAtOf(a, w1, w2, b, rest);
    SlashTotalLead(lead, a + (w1 + ("/" + (w2 + (b + rest)))), b);
  }

  /** `get_total_pages` of new/crawler_service.py, dispatched on the listing URL. */
  function ServiceTotalPages(doc: ListingDoc, url: string, maxPages: int): Result<int> {
    if Contains(url, CsaiHostName) || url == "" then
      TotalPagesClamped(doc.totPage, maxPages)
    else if Contains(url, SwunivHostName) then
      var nums := DigitLinkPages(doc.links);
      if nums != [] then Ok(Min(MaxOf(nums), maxPages))
      else
        match SlashTotal(doc.text)
        case Some(d) => Ok(Min(ParseNat(d), maxPages))
        case None => Ok(1)
    else Ok(1)
  }

  /**
   * The count is never above `max_pages` unless it is the default 1, it is
   * reached only through the marker on the department site, and a failure
   * happens only there, on a marker without digits.
   */
  lemma ServiceTotalPagesSpec(doc: ListingDoc, url: string, maxPages: int)
    ensures var r := ServiceTotalPages(doc, url, maxPages);
      && (r.Ok? ==> r.value <= maxPages || r.value == 1)
      && (r.Raised? <==> (Contains(url, CsaiHostName) || url == "") && TotalPagesUnclamped(doc.totPage).Raised?)
      && (maxPages >= 1 && r.Ok? ==> r.value <= maxPages)
      && (!Contains(url, CsaiHostName) && url != "" && !Contains(url, SwunivHostName) ==> r == Ok(1))
  {
  }

  /** When some link is a page number, the count is the largest one capped by `max_pages`. */
  lemma ServiceTotalPagesDigitLinks(doc: ListingDoc, url: string, maxPages: int)
    requires !Contains(url, CsaiHostName) && url != "" && Contains(url, SwunivHostName)
    requires DigitLinkPages(doc.links) != []
    ensures var r := ServiceTotalPages(doc, url, maxPages);
      r.Ok? && (forall n | n in DigitLinkPages(doc.links) :: r.value >= Min(n, maxPages)) &&
      (r.value == maxPages || r.value in DigitLinkPages(doc.links))
  {
  }

  // ---------------------------------------------------------------------
  // Page requests

  /**
   * A request for a listing page: `url` with the query parameter `page`
   * (`requests.get(url, params={'page': n})`), or a URL already carrying it.
   */
  datatype PageRequest = PageRequest(url: string, page: Option<nat>)

  /** The URL of page `n` of the program-application site: `&page=n` when the URL already has a query, else `?page=n`. */
  function PageUrl(url: string, n: nat): string {
    url + (if '?' in url then "&" else "?") + "page=" + NatToString(n)
  }

  /** The request `crawl_single_url` of new/crawler_service.py sends for page `n`. */
  function ServicePageRequest(url: string, n: nat): PageRequest {
    if Contains(url, SwunivHostName) then PageRequest(PageUrl(url, n), None)
    else PageRequest(url, Some(n))
  }

  /** The request the other crawlers send for page `n`. */
  function ParamPageRequest(url: string, n: nat): PageRequest {
    PageRequest(url, Some(n))
  }

  /**
   * The page URL extends the listing URL with one separator that opens the
   * query only when there is none yet, and the page number can be read back
   * from its end, so distinct pages give distinct URLs.
   */
  lemma PageUrlSpec(url: string, n: nat)
    ensures var u := PageUrl(url, n);
      && url <= u
      && u[|url|] == (if '?' in url then '&' else '?')
      && u[|url| + 1..|url| + 6] == "page="
      && ParseNat(u[|url| + 6..]) == n
  {
    var u := PageUrl(url, n);
    var sep := if '?' in url then "&" else "?";
    assert u == url + sep + "page=" + NatToString(n);
    assert u[|url| + 6..] == NatToString(n);
    ParseNatToString(n);
  }

  lemma PageUrlInjective(url: string, m: nat, n: nat)
    requires PageUrl(url, m) == PageUrl(url, n)
    ensures m == n
  {
    PageUrlSpec(url, m);
    PageUrlSpec(url, n);
  }
}
