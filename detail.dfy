/**
 * Detail pages and the chains of fallbacks that extract a post's text, markup
 * and image URLs from them.
 *
 * A detail page is reduced to the containers the crawlers look for: for each
 * selector, the first element that matches it. A found element is present
 * whatever its contents (a BeautifulSoup tag is always true, even when empty),
 * so `a or b` picks an empty `a` over `b`.
 */
module Detail {
  import opened Wrappers
  import opened Text
  import opened Records
  import opened Fetch
  import opened Listing
  import opened Paging

  /** An element: its text, its markup, the `src` of each `<img>` inside it (`""` when missing) and the texts of its `<td>` cells. */
  datatype Element = Element(text: string, html: string, imgSrcs: seq<string>, cellTexts: seq<string>)

  /** A detail page: the first element matching each selector that matches one. */
  type DetailDoc = map<string, Element>

  const ArticleSel := "div.artclView"
  const HwpSel := "div.hwp_editor_board_content"
  const BoardViewSel := "div.board_view div.view_content"
  const ViewContentSel := "div.view_content"
  const TableSel := "table.artclTable"

  /**
   * The containers `_get_swuniv_content` tries, in order. Each CSS string is
   * passed as `class_`, so the lookup is for a `div` whose class is that
   * literal string (`div.content` and so on): in selector form `div.div\.content`.
   * These are not the keys of the generic containers of `DefaultSelectors`.
   */
  const SwunivSelectors: seq<string> := [
    "div.div\\.content", "div.div\\.article-content", "div.div\\.board-content", "div.div\\.view-content",
    "div.div\\.post-content", "div.div\\.main-content", "div.div\\.text-content", "div.div\\.body-content",
    "div.div\\.entry-content", "div.div\\.article-body", "div.div\\.board-view", "div.div\\.view"]

  /** `soup.find('main') or soup.find('article') or soup.find('div', id='content')`. */
  const SwunivFallbacks: seq<string> := ["main", "article", "div#content"]

  /** `soup.find('div', class_='content') or ... 'article' or ... 'post'`. */
  const DefaultSelectors: seq<string> := ["div.content", "div.article", "div.post"]

  const CsaiHost := "https://csai.jbnu.ac.kr"

  /** Words kept only after this many, when an article is long. */
  const LeadWords := 5
  /** An article with more words than this loses its leading words. */
  const LongArticle := 10
  /** A table cell with a longer collapsed text is taken as the content. */
  const LongCell := 100

  /** The first of `sels` that matches an element of the page (`a or b or c`). */
  function FirstOf(doc: DetailDoc, sels: seq<string>): (r: Option<Element>)
    ensures r.None? <==> forall k :: 0 <= k < |sels| ==> sels[k] !in doc
  {
    if sels == [] then None
    else if sels[0] in doc then Some(doc[sels[0]])
    else
      var r := FirstOf(doc, sels[1..]);
      assert forall k :: 1 <= k < |sels| ==> sels[k] == sels[1..][k - 1];
      r
  }

  /** `a or b or c` yields the first selector present, however empty its element. */
  lemma {:induction false} FirstOfFirst(doc: DetailDoc, sels: seq<string>, k: nat)
    requires k < |sels| && sels[k] in doc
    requires forall j :: 0 <= j < k ==> sels[j] !in doc
    ensures FirstOf(doc, sels) == Some(doc[sels[k]])
  {
    if k > 0 {
      assert forall j :: 0 <= j < k - 1 ==> sels[1..][j] == sels[j + 1];
      FirstOfFirst(doc, sels[1..], k - 1);
    }
  }

  // ---------------------------------------------------------------------
  // Text and images

  /**
   * The text of an article body: white space collapsed and, when it has more
   * than ten words, the first five dropped (they repeat the title).
   */
  function ArticleText(raw: string): string {
    var c := Collapse(raw);
    var ws := Words(c);
    if |ws| > LongArticle then Join(ws[LeadWords..], " ") else c
  }

  /** The words of an article's text are its raw words, minus the first five when there are more than ten. */
  lemma ArticleTextWords(raw: string)
    ensures Words(ArticleText(raw)) == if |Words(raw)| > LongArticle then Words(raw)[LeadWords..] else Words(raw)
  {
    CollapseKeepsWords(raw);
    var ws := Words(Collapse(raw));
    if |ws| > LongArticle {
      WordsOfJoin(ws[LeadWords..]);
    }
  }

  /** The absolute URLs of an element's images: sources that are missing or empty are skipped, the rest normalised by `norm`. */
  function ImageUrls(srcs: seq<string>, norm: string -> string): seq<string> {
    if srcs == [] then []
    else (if srcs[0] != "" then [norm(srcs[0])] else []) + ImageUrls(srcs[1..], norm)
  }

  /** The number of non-empty sources. */
  function CountSrcs(srcs: seq<string>): nat {
    if srcs == [] then 0 else (if srcs[0] != "" then 1 else 0) + CountSrcs(srcs[1..])
  }

  /** One URL per non-empty source, each the normalisation of such a source. */
  lemma {:induction false} ImageUrlsSpec(srcs: seq<string>, norm: string -> string)
    ensures |ImageUrls(srcs, norm)| == CountSrcs(srcs) <= |srcs|
    ensures forall u | u in ImageUrls(srcs, norm) :: exists s | s in srcs :: s != "" && u == norm(s)
  {
    if srcs != [] {
      ImageUrlsSpec(srcs[1..], norm);
      forall u | u in ImageUrls(srcs, norm)
        ensures exists s | s in srcs :: s != "" && u == norm(s)
      {
        if srcs[0] != "" && u == norm(srcs[0]) {
        } else {
          assert u in ImageUrls(srcs[1..], norm);
          var s :| s in srcs[1..] && s != "" && u == norm(s);
          assert s in srcs;
        }
      }
    }
  }

  /** Image sources of the program-application site: host-relative, absolute, or relative to the site root. */
  function SwunivImage(src: string): string {
    if StartsWith(src, "/") then SwunivHost + src
    else if StartsWith(src, "http") then src
    else SwunivHost + "/" + src
  }

  /** A normalised image URL is absolute: it starts with `http`, and keeps the source as its suffix. */
  lemma SwunivImageSpec(src: string)
    ensures StartsWith(SwunivImage(src), "http")
    ensures var u := SwunivImage(src); |src| <= |u| && u[|u| - |src|..] == src
  {
    var u := SwunivImage(src);
    if StartsWith(src, "/") {
      assert u == SwunivHost + src;
    } else if StartsWith(src, "http") {
    } else {
      assert u == (SwunivHost + "/") + src;
    }
  }

  /** `get_base_url`: the host of the site the URL belongs to, else the configured base. */
  function BaseUrlFor(url: string, configured: string): (b: string)
    ensures b in {SwunivHost, CsaiHost, configured}
    // the configured base is used only for a URL of neither known site
    ensures Contains(url, SwunivHostName) || Contains(url, CsaiHostName) ==> b in {SwunivHost, CsaiHost}
  {
    if Contains(url, SwunivHostName) then SwunivHost
    else if Contains(url, CsaiHostName) then CsaiHost
    else configured
  }

  // ---------------------------------------------------------------------
  // The department site: article body, then the word-processor body

  /**
   * `_get_csai_content` (and `get_post_content` of multi_url_scheduled_crawler.py):
   * the article body; only when its text is empty, the word-processor body, whose
   * markup then replaces the article's and whose images follow the article's.
   */
  function CsaiContent(doc: DetailDoc, resolve: string -> string): Content {
    var first :=
      if ArticleSel in doc then
        var a := doc[ArticleSel];
        Content(ArticleText(a.text), a.html, ImageUrls(a.imgSrcs, resolve))
      else EmptyContent;
    if first.text != "" || HwpSel !in doc then first
    else
      var h := doc[HwpSel];
      Content(Collapse(h.text), h.html, first.images + ImageUrls(h.imgSrcs, resolve))
  }

  /** The text-only chain of scheduled_crawler.py and multi_url_crawler.py. */
  function CsaiText(doc: DetailDoc): string {
    var t := if ArticleSel in doc then ArticleText(doc[ArticleSel].text) else "";
    if t != "" || HwpSel !in doc then t else Collapse(doc[HwpSel].text)
  }

  /**
   * The text of the full chain is the text-only chain's, the article wins
   * whenever its text is non-empty, and the word-processor body is used only
   * when the article gives no text.
   */
  lemma CsaiContentSpec(doc: DetailDoc, resolve: string -> string)
    ensures CsaiContent(doc, resolve).text == CsaiText(doc)
    ensures ArticleSel in doc && ArticleText(doc[ArticleSel].text) != "" ==>
      CsaiContent(doc, resolve) == Content(ArticleText(doc[ArticleSel].text), doc[ArticleSel].html, ImageUrls(doc[ArticleSel].imgSrcs, resolve))
    ensures CsaiText(doc) != "" ==> ArticleSel in doc || HwpSel in doc
  {
  }

  // ---------------------------------------------------------------------
  // The program-application site

  /**
   * The selector loop of `_get_swuniv_content` from `sels` on, with what the
   * earlier selectors left in `acc`: each matching container replaces text and
   * markup and adds its images; a text longer than ten characters ends the loop.
   */
  function SwunivScan(doc: DetailDoc, sels: seq<string>, acc: Content): Content
    decreases |sels|
  {
    if sels == [] then acc
    else if sels[0] !in doc then SwunivScan(doc, sels[1..], acc)
    else
      var e := doc[sels[0]];
      var c := Content(Collapse(e.text), e.html, acc.images + ImageUrls(e.imgSrcs, SwunivImage));
      if c.text != "" && |Strip(c.text)| > 10 then c else SwunivScan(doc, sels[1..], c)
  }

  /** One selector of the scan: a missing one is passed over, a present one either ends the scan or carries its images on. */
  lemma SwunivScanStep(doc: DetailDoc, sels: seq<string>, i: nat, acc: Content)
    requires i < |sels|
    ensures sels[i] !in doc ==> SwunivScan(doc, sels[i..], acc) == SwunivScan(doc, sels[i + 1..], acc)
    ensures sels[i] in doc ==>
      var e := doc[sels[i]];
      var c := Content(Collapse(e.text), e.html, acc.images + ImageUrls(e.imgSrcs, SwunivImage));
      SwunivScan(doc, sels[i..], acc) == if c.text != "" && |Strip(c.text)| > 10 then c else SwunivScan(doc, sels[i + 1..], c)
  {
    assert sels[i..][0] == sels[i] && sels[i..][1..] == sels[i + 1..];
  }

  /**
   * The loop only adds images, and its text is the one it started with or the
   * collapsed text of a container it visited.
   */
  lemma {:induction false} SwunivScanSpec(doc: DetailDoc, sels: seq<string>, acc: Content)
    ensures acc.images <= SwunivScan(doc, sels, acc).images
    ensures var r := SwunivScan(doc, sels, acc);
      r == acc || exists k :: 0 <= k < |sels| && sels[k] in doc && r.text == Collapse(doc[sels[k]].text) && r.html == doc[sels[k]].html
    decreases |sels|
  {
    if sels != [] {
      var r := SwunivScan(doc, sels, acc);
      if sels[0] !in doc {
        SwunivScanSpec(doc, sels[1..], acc);
        if r != acc {
          var k :| 0 <= k < |sels[1..]| && sels[1..][k] in doc && r.text == Collapse(doc[sels[1..][k]].text) && r.html == doc[sels[1..][k]].html;
          assert sels[k + 1] == sels[1..][k];
        }
      } else {
        var e := doc[sels[0]];
        var c := Content(Collapse(e.text), e.html, acc.images + ImageUrls(e.imgSrcs, SwunivImage));
        if !(c.text != "" && |Strip(c.text)| > 10) {
          SwunivScanSpec(doc, sels[1..], c);
          if r != c {
            var k :| 0 <= k < |sels[1..]| && sels[1..][k] in doc && r.text == Collapse(doc[sels[1..][k]].text) && r.html == doc[sels[1..][k]].html;
            assert sels[k + 1] == sels[1..][k];
          }
        }
      }
    }
  }

  /** The selector loop of `_get_swuniv_content`. */
  method ScanSwunivSelectors(doc: DetailDoc) returns (c: Content)
    ensures c == SwunivScan(doc, SwunivSelectors, EmptyContent)
  {
    c := ScanSelectors(doc, SwunivSelectors);
  }

  /** The selector loop over a given selector list, stopping at the first body of more than ten characters. */
  method ScanSelectors(doc: DetailDoc, sels: seq<string>) returns (c: Content)
    ensures c == SwunivScan(doc, sels, EmptyContent)
  {
    c := EmptyContent;
    var i := 0;
    while i < |sels|
      invariant 0 <= i <= |sels|
      invariant SwunivScan(doc, sels[i..], c) == SwunivScan(doc, sels, EmptyContent)
    {
      var sel := sels[i];
      SwunivScanStep(doc, sels, i, c);
      if sel in doc {
        var e := doc[sel];
        c := Content(Collapse(e.text), e.html, c.images + ImageUrls(e.imgSrcs, SwunivImage));
        if c.text != "" && |Strip(c.text)| > 10 {
          return;
        }
      }
      i := i + 1;
    }
  }

  /**
   * `_get_swuniv_content`: the selector loop, then, only when it found no text,
   * the page's main area, whose images follow those already collected.
   */
  function SwunivContent(doc: DetailDoc): Content {
    var c := SwunivScan(doc, SwunivSelectors, EmptyContent);
    if c.text != "" then c
    else
      match FirstOf(doc, SwunivFallbacks)
      case None => c
      case Some(m) => Content(Collapse(m.text), m.html, c.images + ImageUrls(m.imgSrcs, SwunivImage))
  }

  /** `_get_default_content`: the first generic container, images resolved against the post's URL. */
  function DefaultContent(doc: DetailDoc, resolve: string -> string): Content {
    match FirstOf(doc, DefaultSelectors)
    case None => EmptyContent
    case Some(e) => Content(Collapse(e.text), e.html, ImageUrls(e.imgSrcs, resolve))
  }

  /** A page without any of the scanned containers leaves the scan where it started. */
  lemma {:induction false} ScanMissing(doc: DetailDoc, sels: seq<string>, acc: Content)
    requires forall k :: 0 <= k < |sels| ==> sels[k] !in doc
    ensures SwunivScan(doc, sels, acc) == acc
    decreases |sels|
  {
    if sels != [] {
      assert forall k :: 0 <= k < |sels[1..]| ==> sels[1..][k] == sels[k + 1];
      ScanMissing(doc, sels[1..], acc);
    }
  }

  /**
   * On a page without the literal-class containers, the program site's content
   * comes from the first of `main`, `article` and `div#content` the page has,
   * even an empty one: its collapsed text, its markup and its normalised images.
   */
  lemma SwunivFallbackSpec(doc: DetailDoc, k: nat)
    requires forall i :: 0 <= i < |SwunivSelectors| ==> SwunivSelectors[i] !in doc
    requires k < |SwunivFallbacks| && SwunivFallbacks[k] in doc
    requires forall j :: 0 <= j < k ==> SwunivFallbacks[j] !in doc
    ensures var m := doc[SwunivFallbacks[k]];
      SwunivContent(doc) == Content(Collapse(m.text), m.html, ImageUrls(m.imgSrcs, SwunivImage))
  {
    ScanMissing(doc, SwunivSelectors, EmptyContent);
    FirstOfFirst(doc, SwunivFallbacks, k);
    var m := doc[SwunivFallbacks[k]];
    assert EmptyContent.images + ImageUrls(m.imgSrcs, SwunivImage) == ImageUrls(m.imgSrcs, SwunivImage);
  }

  /** A program-site page with none of the containers gives empty fields. */
  lemma SwunivNothingFound(doc: DetailDoc)
    requires forall i :: 0 <= i < |SwunivSelectors| ==> SwunivSelectors[i] !in doc
    requires forall j :: 0 <= j < |SwunivFallbacks| ==> SwunivFallbacks[j] !in doc
    ensures SwunivContent(doc) == EmptyContent
  {
    ScanMissing(doc, SwunivSelectors, EmptyContent);
  }

  /**
   * The generic chain takes its three fields from the first of `div.content`,
   * `div.article` and `div.post` the page has, and gives empty fields without one.
   */
  lemma DefaultContentSpec(doc: DetailDoc, resolve: string -> string, k: nat)
    ensures (forall j :: 0 <= j < |DefaultSelectors| ==> DefaultSelectors[j] !in doc) ==> DefaultContent(doc, resolve) == EmptyContent
    ensures k < |DefaultSelectors| && DefaultSelectors[k] in doc && (forall j :: 0 <= j < k ==> DefaultSelectors[j] !in doc) ==>
      var e := doc[DefaultSelectors[k]];
      DefaultContent(doc, resolve) == Content(Collapse(e.text), e.html, ImageUrls(e.imgSrcs, resolve))
  {
    if k < |DefaultSelectors| && DefaultSelectors[k] in doc && (forall j :: 0 <= j < k ==> DefaultSelectors[j] !in doc) {
      FirstOfFirst(doc, DefaultSelectors, k);
    }
  }

  /** `urljoin(base, ·)` given as a two-argument oracle. */
  function JoinWith(join: (string, string) -> string, base: string): string -> string {
    s => join(base, s)
  }

  /**
   * `get_post_content` of new/crawler_service.py: any failure of the request
   * gives empty fields; otherwise the chain of the site the URL belongs to.
   */
  function ServiceDetail(url: string, resp: Response<DetailDoc>, configured: string, join: (string, string) -> string): (c: Content)
    ensures !Usable(resp) ==> c == EmptyContent
  {
    if !Usable(resp) then EmptyContent
    else if Contains(url, CsaiHostName) then CsaiContent(resp.body, JoinWith(join, BaseUrlFor(url, configured)))
    else if Contains(url, SwunivHostName) then SwunivContent(resp.body)
    else DefaultContent(resp.body, JoinWith(join, url))
  }

  /**
   * A department page resolves its images against the host `get_base_url`
   * picks, which is the program site's when the URL also names that site, and
   * the configured base URL never affects a detail page.
   */
  lemma ServiceDetailBase(url: string, resp: Response<DetailDoc>, configured: string, other: string, join: (string, string) -> string)
    ensures Usable(resp) && Contains(url, CsaiHostName) ==>
      ServiceDetail(url, resp, configured, join) ==
        CsaiContent(resp.body, JoinWith(join, if Contains(url, SwunivHostName) then SwunivHost else CsaiHost))
    ensures ServiceDetail(url, resp, configured, join) == ServiceDetail(url, resp, other, join)
  {
  }

  // ---------------------------------------------------------------------
  // crawler.py: five steps

  /** Step 5: the first table cell whose collapsed text is longer than 100 characters, else `""`. */
  function FirstLongCell(cells: seq<string>): string {
    if cells == [] then ""
    else
      var c := Collapse(cells[0]);
      if |c| > LongCell then c else FirstLongCell(cells[1..])
  }

  /** The chosen cell is the first long one, and there is none exactly when the result is empty. */
  lemma {:induction false} FirstLongCellSpec(cells: seq<string>)
    ensures var r := FirstLongCell(cells);
      && (r == "" <==> forall i :: 0 <= i < |cells| ==> |Collapse(cells[i])| <= LongCell)
      && (r != "" ==> exists i :: 0 <= i < |cells| && r == Collapse(cells[i]) && |r| > LongCell &&
                        forall j :: 0 <= j < i ==> |Collapse(cells[j])| <= LongCell)
  {
    if cells != [] {
      FirstLongCellSpec(cells[1..]);
      var r := FirstLongCell(cells);
      if |Collapse(cells[0])| <= LongCell {
        assert forall i :: 1 <= i < |cells| ==> cells[i] == cells[1..][i - 1];
        if r != "" {
          var i :| 0 <= i < |cells[1..]| && r == Collapse(cells[1..][i]) && |r| > LongCell &&
                   forall j :: 0 <= j < i ==> |Collapse(cells[1..][j])| <= LongCell;
          assert forall j :: 1 <= j < i + 1 ==> cells[j] == cells[1..][j - 1];
        }
      }
    }
  }

  /**
   * `get_post_content` of crawler.py: the article body, the word-processor
   * body, the view area of the board, any view area, then a long table cell,
   * each tried only while the text is still empty.
   */
  function BasicText(doc: DetailDoc): string {
    var t2 := CsaiText(doc);
    var t3 := if t2 == "" then StepText(doc, BoardViewSel) else t2;
    var t4 := if t3 == "" then StepText(doc, ViewContentSel) else t3;
    if t4 == "" && TableSel in doc then FirstLongCell(doc[TableSel].cellTexts) else t4
  }

  /** One container step: the collapsed text of the container when the page has it, else `""`. */
  function StepText(doc: DetailDoc, sel: string): string {
    if sel in doc then Collapse(doc[sel].text) else ""
  }

  /**
   * The five-step chain agrees with the two-step one whenever that finds text,
   * and each later step is reached only when all earlier ones gave nothing.
   */
  lemma BasicTextSpec(doc: DetailDoc)
    ensures CsaiText(doc) != "" ==> BasicText(doc) == CsaiText(doc)
    ensures CsaiText(doc) == "" && StepText(doc, BoardViewSel) != "" ==>
      BasicText(doc) == StepText(doc, BoardViewSel)
    ensures CsaiText(doc) == "" && StepText(doc, BoardViewSel) == "" && StepText(doc, ViewContentSel) != "" ==>
      BasicText(doc) == StepText(doc, ViewContentSel)
    ensures CsaiText(doc) == "" && StepText(doc, BoardViewSel) == "" && StepText(doc, ViewContentSel) == "" ==>
      BasicText(doc) == if TableSel in doc then FirstLongCell(doc[TableSel].cellTexts) else ""
    ensures BasicText(doc) != "" && BasicText(doc) != CsaiText(doc) ==> CsaiText(doc) == ""
  {
  }

  /** crawler.py returns no detail (`None`) when the request or its status fails. */
  function BasicDetail(resp: Response<DetailDoc>): (r: Option<string>)
    ensures r.None? <==> !Usable(resp)
  {
    if Usable(resp) then Some(BasicText(resp.body)) else None
  }

  /** The text-only `get_post_content` of scheduled_crawler.py and multi_url_crawler.py: `""` on any failure. */
  function TextDetail(resp: Response<DetailDoc>): (t: string)
    ensures !Usable(resp) ==> t == ""
  {
    if Usable(resp) then CsaiText(resp.body) else ""
  }

  /** `get_post_content` of multi_url_scheduled_crawler.py: the department chain with images resolved against the configured base. */
  function ScheduledDetail(resp: Response<DetailDoc>, base: string, join: (string, string) -> string): (c: Content)
    ensures !Usable(resp) ==> c == EmptyContent
  {
    if Usable(resp) then CsaiContent(resp.body, JoinWith(join, base)) else EmptyContent
  }
}
