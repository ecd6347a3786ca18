/**
 * Listing pages as plain data and the parsers that turn them into records:
 * the table-row parser shared (with different key sets) by all five crawlers,
 * and the link-list parsers of the program-application site.
 */
module Listing {
  import opened Wrappers
  import opened Text
  import opened Records

  /** An `<a>` element: its text and its `href` (`""` when the attribute is missing). */
  datatype Anchor = Anchor(text: string, href: string)

  /** A `<td>` cell: its full text and its first `<a>` child, if any. */
  datatype Cell = Cell(text: string, link: Option<Anchor>)

  /** `soup.find('table', class_='artclTable')` and its `<tbody>`. */
  datatype Table = NoTable | NoBody | Rows(rows: seq<seq<Cell>>)

  /** An `<a href=...>` of the page, in document order (`soup.find_all('a', href=True)`). */
  datatype Link = Link(href: string, text: string)

  /**
   * A listing page: its notice table, the text of `span._totPage` inside
   * `div._paging` when both exist, its links and its whole text.
   */
  datatype ListingDoc = ListingDoc(table: Table, totPage: Option<string>, links: seq<Link>, text: string)

  /** Which keys a file's `parse_page` puts in a record. */
  datatype Shape =
    | Bare          // crawler.py: the seven listing columns
    | Stamped       // scheduled_crawler.py: plus crawled_at
    | Categorized   // multi_url_crawler.py: plus category
    | WithContent   // multi_url_scheduled_crawler.py: plus empty content fields
    | Identified    // new/crawler_service.py: plus id

  /**
   * What a parser is given besides the page: the source's category label, the
   * clock reading, `urljoin(base_url, ·)` and Python's `hash`.
   */
  datatype RowContext = RowContext(category: string, now: string, resolve: string -> string, hash: string -> int)

  const MinCells := 6

  /** `f"{prefix}_{n}_{hash(key) % 100000}"`, the record id of new/crawler_service.py. */
  function RecordId(prefix: string, n: string, key: string, hash: string -> int): string {
    prefix + "_" + n + "_" + NatToString((hash(key) % 100000) as nat)
  }

  /** The title of the second cell: its link text, else its own text, white space collapsed. */
  function RowTitle(c: Cell): (t: string)
    ensures Collapse(t) == t
    ensures Words(t) == Words(if c.link.Some? then c.link.value.text else c.text)
  {
    var raw := if c.link.Some? then c.link.value.text else c.text;
    CollapseKeepsWords(raw);
    Collapse(raw)
  }

  /** The URL of the second cell: `urljoin(base, href)` when it has a link with a non-empty href, else `""`. */
  function RowUrl(c: Cell, resolve: string -> string): (u: string)
    // a record only carries a URL that resolves a real link of its row
    ensures u != "" ==> c.link.Some? && c.link.value.href != "" && u == resolve(c.link.value.href)
  {
    if c.link.Some? && c.link.value.href != "" then resolve(c.link.value.href) else ""
  }

  /** The record built from one row of at least six cells. */
  function RowRecord(row: seq<Cell>, shape: Shape, ctx: RowContext): (p: Post)
    requires |row| >= MinCells
    ensures p.url == RowUrl(row[1], ctx.resolve)
  {
    var number := Strip(row[0].text);
    var url := RowUrl(row[1], ctx.resolve);
    var base := Post(None, None, number, RowTitle(row[1]), Strip(row[2].text), Strip(row[3].text),
                     Strip(row[4].text), Strip(row[5].text), url, None, None, None, None);
    match shape
    case Bare => base
    case Stamped => base.(crawledAt := Some(ctx.now))
    case Categorized => base.(category := Some(ctx.category), crawledAt := Some(ctx.now))
    case WithContent =>
      base.(category := Some(ctx.category), content := Some(""), contentHtml := Some(""),
            imageUrls := Some([]), crawledAt := Some(ctx.now))
    case Identified =>
      base.(id := Some(RecordId(ctx.category, number, url, ctx.hash)), category := Some(ctx.category),
            content := Some(""), contentHtml := Some(""), imageUrls := Some([]), crawledAt := Some(ctx.now))
  }

  /** The keys of a row's record are those its file's `parse_page` sets, with the cell texts stripped and the title collapsed. */
  lemma RowRecordFacts(row: seq<Cell>, shape: Shape, ctx: RowContext)
    requires |row| >= MinCells
    ensures var p := RowRecord(row, shape, ctx);
      && p.number == Strip(row[0].text) && p.author == Strip(row[2].text)
      && p.date == Strip(row[3].text) && p.attachments == Strip(row[4].text)
      && p.views == Strip(row[5].text) && Collapse(p.title) == p.title
      && (p.category.Some? <==> shape !in {Bare, Stamped})
      && (p.category.Some? ==> p.category.value == ctx.category)
      && (p.crawledAt.Some? <==> shape != Bare) && (p.id.Some? <==> shape == Identified)
      && (p.content.Some? <==> shape in {WithContent, Identified})
      && (p.content.Some? ==> p.content == Some("") && p.contentHtml == Some("") && p.imageUrls == Some([]))
      && (p.content.None? ==> p.contentHtml.None? && p.imageUrls.None?)
  {
  }

  /** The records of a row list: rows with fewer than six cells are dropped, the rest kept in order. */
  function TableRecords(rows: seq<seq<Cell>>, shape: Shape, ctx: RowContext): seq<Post>
  {
    if rows == [] then []
    else
      var head := if |rows[0]| < MinCells then [] else [RowRecord(rows[0], shape, ctx)];
      head + TableRecords(rows[1..], shape, ctx)
  }

  /** `parse_page` of the table layout: no table gives `[]`, a table without `<tbody>` raises. */
  function TableParse(t: Table, shape: Shape, ctx: RowContext): Result<seq<Post>> {
    match t
    case NoTable => Ok([])
    case NoBody => Raised
    case Rows(rows) => Ok(TableRecords(rows, shape, ctx))
  }

  /** The row loop of `parse_page` / `_parse_csai_page`. */
  method ParseTable(t: Table, shape: Shape, ctx: RowContext) returns (r: Result<seq<Post>>)
    ensures r == TableParse(t, shape, ctx)
  {
    if t.NoTable? { return Ok([]); }
    if t.NoBody? { return Raised; }
    var rows := t.rows;
    var data: seq<Post> := [];
    var i := 0;
    while i < |rows|
      invariant 0 <= i <= |rows|
      invariant data == TableRecords(rows[..i], shape, ctx)
    {
      assert rows[..i + 1] == rows[..i] + [rows[i]];
      TableRecordsAppend(rows[..i], [rows[i]], shape, ctx);
      TableRecordsSingle(rows[i], shape, ctx);
      if |rows[i]| >= MinCells {
        data := data + [RowRecord(rows[i], shape, ctx)];
      }
      i := i + 1;
    }
    assert rows[..i] == rows;
    return Ok(data);
  }

  lemma {:induction false} TableRecordsAppend(a: seq<seq<Cell>>, b: seq<seq<Cell>>, shape: Shape, ctx: RowContext)
    ensures TableRecords(a + b, shape, ctx) == TableRecords(a, shape, ctx) + TableRecords(b, shape, ctx)
  {
    if a != [] {
      assert (a + b)[0] == a[0] && (a + b)[1..] == a[1..] + b;
      TableRecordsAppend(a[1..], b, shape, ctx);
      var head := if |a[0]| < MinCells then [] else [RowRecord(a[0], shape, ctx)];
      AppendAssoc(head, TableRecords(a[1..], shape, ctx), TableRecords(b, shape, ctx));
    } else {
      assert a + b == b;
    }
  }

  /** The number of rows that have at least six cells. */
  function CountFull(rows: seq<seq<Cell>>): nat {
    if rows == [] then 0 else (if |rows[0]| >= MinCells then 1 else 0) + CountFull(rows[1..])
  }

  /** Lenient parsing: one record per row of six or more cells, never more records than rows. */
  lemma {:induction false} TableRecordsCount(rows: seq<seq<Cell>>, shape: Shape, ctx: RowContext)
    ensures |TableRecords(rows, shape, ctx)| == CountFull(rows) <= |rows|
  {
    if rows != [] {
      TableRecordsCount(rows[1..], shape, ctx);
    }
  }

  /** A single row yields its record when it has six cells or more, and nothing otherwise. */
  lemma TableRecordsSingle(row: seq<Cell>, shape: Shape, ctx: RowContext)
    ensures TableRecords([row], shape, ctx) == if |row| < MinCells then [] else [RowRecord(row, shape, ctx)]
  {
    assert [row][1..] == [];
  }

  /** Every record a table yields has the key set of its file's shape and a collapsed title. */
  lemma {:induction false} TableRecordsShape(rows: seq<seq<Cell>>, shape: Shape, ctx: RowContext)
    ensures forall p | p in TableRecords(rows, shape, ctx) ::
      Collapse(p.title) == p.title &&
      (p.id.Some? <==> shape == Identified) &&
      (p.category.Some? <==> shape !in {Bare, Stamped}) &&
      (p.content.Some? ==> p.content == Some("") && p.imageUrls == Some([]))
  {
    if rows != [] {
      TableRecordsShape(rows[1..], shape, ctx);
    }
  }

  // ---------------------------------------------------------------------
  // The program-application site (new/crawler_service.py, _parse_swuniv_page)

  const SwunivHost := "https://swuniv.jbnu.ac.kr"
  const ApplyKeyword := "신청하기"
  const ClosedKeyword := "접수마감"
  const ProgramAuthor := "SW중심대학사업단"

  /** The program categories recognised in a title, tried in this order. */
  const ProgramKinds: seq<string> := ["SW가치확산", "SW융합", "SW전공", "산학협력", "교육환경지원"]
  const DefaultProgramKind := "프로그램"

  /** Relative links of the site: `/x` is host-relative, `http…` absolute, anything else is under `/main/`. */
  function ProgramHref(href: string): string {
    if StartsWith(href, "/") then SwunivHost + href
    else if StartsWith(href, "http") then href
    else SwunivHost + "/main/" + href
  }

  /** A normalised href is never empty and, unless it was already absolute, starts with the site's host. */
  lemma ProgramHrefSpec(href: string)
    ensures ProgramHref(href) != ""
    ensures !StartsWith(href, "http") || StartsWith(href, "/") ==> StartsWith(ProgramHref(href), SwunivHost)
    ensures StartsWith(href, "http") && !StartsWith(href, "/") ==> ProgramHref(href) == href
  {
    if StartsWith(href, "http") && !StartsWith(href, "/") {
      assert href[0] == 'h';
    }
  }

  /** A link is a program entry when its stripped text names a state of the application and is longer than 10 characters. */
  predicate IsProgramText(text: string) {
    (Contains(text, ApplyKeyword) || Contains(text, ClosedKeyword)) && text != [] && |text| > 10
  }

  /** The first program category named in `title`, else the generic one. */
  function ProgramKind(title: string): string {
    if Contains(title, ProgramKinds[0]) then ProgramKinds[0]
    else if Contains(title, ProgramKinds[1]) then ProgramKinds[1]
    else if Contains(title, ProgramKinds[2]) then ProgramKinds[2]
    else if Contains(title, ProgramKinds[3]) then ProgramKinds[3]
    else if Contains(title, ProgramKinds[4]) then ProgramKinds[4]
    else DefaultProgramKind
  }

  /** The category is one of the five the title names, the first in list order, or the generic one when it names none. */
  lemma ProgramKindSpec(title: string)
    ensures var k := ProgramKind(title);
      && (k in ProgramKinds || k == DefaultProgramKind)
      && (k == DefaultProgramKind <==> forall j :: 0 <= j < |ProgramKinds| ==> !Contains(title, ProgramKinds[j]))
      && (k != DefaultProgramKind ==> Contains(title, k))
      && (forall j :: 0 <= j < |ProgramKinds| && ProgramKinds[j] == k ==> forall i :: 0 <= i < j ==> !Contains(title, ProgramKinds[i]))
  {
  }

  /** The first loop of `_parse_swuniv_page`: the kept links as (absolute href, stripped text). */
  function ProgramLinks(links: seq<Link>): (r: seq<Link>)
    ensures |r| <= |links|
  {
    if links == [] then []
    else
      var text := Strip(links[0].text);
      var head := if IsProgramText(text) then [Link(ProgramHref(links[0].href), text)] else [];
      head + ProgramLinks(links[1..])
  }

  /** The record of the program numbered `n` (1-based). */
  function ProgramRecord(l: Link, n: nat, ctx: RowContext, today: string): Post {
    var kind := ProgramKind(l.text);
    Post(Some(RecordId(ctx.category, NatToString(n), l.href, ctx.hash)), Some(ctx.category + "_" + kind),
         NatToString(n), l.text, ProgramAuthor, today, "", "0", l.href,
         Some(""), Some(""), Some([]), Some(ctx.now))
  }

  /** The second loop: program links numbered from `first` in document order. */
  function ProgramRecords(pl: seq<Link>, first: nat, ctx: RowContext, today: string): (r: seq<Post>)
    ensures |r| == |pl|
    ensures forall k :: 0 <= k < |pl| ==> r[k] == ProgramRecord(pl[k], first + k, ctx, today)
  {
    if pl == [] then [] else [ProgramRecord(pl[0], first, ctx, today)] + ProgramRecords(pl[1..], first + 1, ctx, today)
  }

  /** `_parse_swuniv_page`: filter and normalise the links, then number them 1, 2, ... */
  method ParseProgramPage(links: seq<Link>, ctx: RowContext, today: string) returns (data: seq<Post>)
    ensures data == ProgramRecords(ProgramLinks(links), 1, ctx, today)
  {
    var programLinks := KeepProgramLinks(links);
    data := NumberPrograms(programLinks, ctx, today);
  }

  /** The first loop of `_parse_swuniv_page`. */
  method KeepProgramLinks(links: seq<Link>) returns (programLinks: seq<Link>)
    ensures programLinks == ProgramLinks(links)
  {
    programLinks := [];
    var i := 0;
    while i < |links|
      invariant 0 <= i <= |links|
      invariant programLinks == ProgramLinks(links[..i])
    {
      ProgramLinksStep(links, i);
      var text := Strip(links[i].text);
      if IsProgramText(text) {
        programLinks := programLinks + [Link(ProgramHref(links[i].href), text)];
      }
      i := i + 1;
    }
    assert links[..i] == links;
  }

  lemma {:induction false} ProgramLinksAppend(a: seq<Link>, b: seq<Link>)
    ensures ProgramLinks(a + b) == ProgramLinks(a) + ProgramLinks(b)
  {
    if a != [] {
      assert (a + b)[0] == a[0] && (a + b)[1..] == a[1..] + b;
      ProgramLinksAppend(a[1..], b);
      var text := Strip(a[0].text);
      var head := if IsProgramText(text) then [Link(ProgramHref(a[0].href), text)] else [];
      AppendAssoc(head, ProgramLinks(a[1..]), ProgramLinks(b));
    } else {
      assert a + b == b;
    }
  }

  /** One more link adds its normalised entry exactly when its stripped text passes the filter. */
  lemma ProgramLinksStep(links: seq<Link>, i: nat)
    requires i < |links|
    ensures var text := Strip(links[i].text);
      ProgramLinks(links[..i + 1]) == ProgramLinks(links[..i]) + if IsProgramText(text) then [Link(ProgramHref(links[i].href), text)] else []
  {
    assert links[..i + 1] == links[..i] + [links[i]];
    ProgramLinksAppend(links[..i], [links[i]]);
    assert [links[i]][1..] == [];
  }

  /** The second loop of `_parse_swuniv_page`. */
  method NumberPrograms(programLinks: seq<Link>, ctx: RowContext, today: string) returns (data: seq<Post>)
    ensures data == ProgramRecords(programLinks, 1, ctx, today)
  {
    data := [];
    var j := 0;
    while j < |programLinks|
      invariant 0 <= j <= |programLinks| && |data| == j
      invariant forall k :: 0 <= k < j ==> data[k] == ProgramRecord(programLinks[k], k + 1, ctx, today)
    {
      data := data + [ProgramRecord(programLinks[j], j + 1, ctx, today)];
      j := j + 1;
    }
  }

  /**
   * Every program record carries a program-state keyword in a title longer than
   * 10 characters, is numbered by its position, and its category is the source
   * label joined with the first program category its title names.
   */
  lemma ProgramRecordsFacts(links: seq<Link>, ctx: RowContext, today: string)
    ensures var r := ProgramRecords(ProgramLinks(links), 1, ctx, today);
      forall k :: 0 <= k < |r| ==>
        IsProgramText(r[k].title) && r[k].number == NatToString(k + 1) && HasUrl(r[k]) &&
        r[k].category == Some(ctx.category + "_" + ProgramKind(r[k].title))
  {
    ProgramLinksKept(links);
    var pl := ProgramLinks(links);
    forall k | 0 <= k < |pl|
      ensures IsKeptProgram(pl[k])
    {
      assert pl[k] in pl;
    }
  }

  /** A link the first loop keeps: program text and a non-empty normalised href. */
  predicate IsKeptProgram(l: Link) {
    IsProgramText(l.text) && l.href != ""
  }

  lemma {:induction false} ProgramLinksKept(links: seq<Link>)
    ensures forall l | l in ProgramLinks(links) :: IsKeptProgram(l)
  {
    if links != [] {
      ProgramLinksKept(links[1..]);
      ProgramHrefSpec(links[0].href);
    }
  }

  // ---------------------------------------------------------------------
  // The alternative parser of the same site (_parse_swuniv_alternative)

  const AlternativeAuthor := "관리자"

  predicate IsNoticeLink(href: string, title: string) {
    Contains(href, "view") && Contains(href, "bwrite_id") && title != [] && |title| > 5
  }

  /** The notice links (href names a `view` of a `bwrite_id`) as (absolute href, stripped title). */
  function NoticeLinks(links: seq<Link>): (r: seq<Link>)
    ensures |r| <= |links|
  {
    if links == [] then []
    else
      var title := Strip(links[0].text);
      var head := if IsNoticeLink(links[0].href, title) then [Link(ProgramHref(links[0].href), title)] else [];
      head + NoticeLinks(links[1..])
  }

  /** Every kept notice link has a title of more than five characters and a non-empty normalised href. */
  lemma {:induction false} NoticeLinksKept(links: seq<Link>)
    ensures forall l | l in NoticeLinks(links) :: |l.text| > 5 && l.href != ""
  {
    if links != [] {
      NoticeLinksKept(links[1..]);
      ProgramHrefSpec(links[0].href);
    }
  }

  /** The record of the notice numbered `n`. */
  function NoticeRecord(l: Link, n: nat, ctx: RowContext, today: string): Post {
    Post(Some(RecordId(ctx.category, NatToString(n), l.href, ctx.hash)), Some(ctx.category),
         NatToString(n), l.text, AlternativeAuthor, today, "", "0", l.href,
         Some(""), Some(""), Some([]), Some(ctx.now))
  }

  /** `_parse_swuniv_alternative`: one pass over the links with a running notice counter. */
  method ParseAlternative(links: seq<Link>, ctx: RowContext, today: string) returns (data: seq<Post>)
    ensures |data| == |NoticeLinks(links)|
    ensures forall k :: 0 <= k < |data| ==> data[k] == NoticeRecord(NoticeLinks(links)[k], k + 1, ctx, today)
  {
    data := [];
    ghost var kept: seq<Link> := [];
    var count := 0;
    var i := 0;
    while i < |links|
      invariant 0 <= i <= |links| && count == |data| == |kept|
      invariant kept == NoticeLinks(links[..i])
      invariant forall k :: 0 <= k < count ==> data[k] == NoticeRecord(kept[k], k + 1, ctx, today)
    {
      NoticeLinksStep(links, i);
      var href := links[i].href;
      var title := Strip(links[i].text);
      if IsNoticeLink(href, title) {
        var l := Link(ProgramHref(href), title);
        count := count + 1;
        kept := kept + [l];
        data := data + [NoticeRecord(l, count, ctx, today)];
      }
      i := i + 1;
    }
    assert links[..i] == links;
  }

  /** One more link: the notice links of the first `i + 1` links extend those of the first `i`. */
  lemma NoticeLinksStep(links: seq<Link>, i: nat)
    requires i < |links|
    ensures var title := Strip(links[i].text);
      NoticeLinks(links[..i + 1]) == NoticeLinks(links[..i])
        + if IsNoticeLink(links[i].href, title) then [Link(ProgramHref(links[i].href), title)] else []
  {
    assert links[..i + 1] == links[..i] + [links[i]];
    NoticeLinksAppend(links[..i], [links[i]]);
    assert [links[i]][1..] == [];
  }

  lemma {:induction false} NoticeLinksAppend(a: seq<Link>, b: seq<Link>)
    ensures NoticeLinks(a + b) == NoticeLinks(a) + NoticeLinks(b)
  {
    if a != [] {
      assert (a + b)[0] == a[0] && (a + b)[1..] == a[1..] + b;
      NoticeLinksAppend(a[1..], b);
      var title := Strip(a[0].text);
      var head := if IsNoticeLink(a[0].href, title) then [Link(ProgramHref(a[0].href), title)] else [];
      AppendAssoc(head, NoticeLinks(a[1..]), NoticeLinks(b));
    } else {
      assert a + b == b;
    }
  }
}
