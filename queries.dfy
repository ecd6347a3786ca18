/**
 * Read-only queries over the stored snapshot (new/crawler_service.py):
 * category filter, newest-first ordering by the date string, Python slices
 * for paging, case-insensitive search and lookup by id.
 */
module Queries {
  import opened Wrappers
  import opened Text
  import opened Records

  // ---------------------------------------------------------------------
  // Filters

  /** `[post for post in data if post.get('category') == category]`. */
  function InCategory(data: seq<Post>, category: string): (r: seq<Post>)
    ensures |r| <= |data|
  {
    if data == [] then []
    else (if data[0].category == Some(category) then [data[0]] else []) + InCategory(data[1..], category)
  }

  /** A category argument counts only when it is truthy: `None` and `""` mean all categories. */
  function MaybeInCategory(data: seq<Post>, category: Option<string>): seq<Post> {
    if category.Some? && category.value != "" then InCategory(data, category.value) else data
  }

  /** The query, lowered, occurs in the lowered title or the lowered content (a missing content is `""`). */
  predicate Matches(p: Post, query: string) {
    var q := Lower(query);
    Contains(Lower(p.title), q) || Contains(Lower(p.content.GetOr("")), q)
  }

  function Matching(data: seq<Post>, query: string): (r: seq<Post>)
    ensures |r| <= |data|
  {
    if data == [] then []
    else (if Matches(data[0], query) then [data[0]] else []) + Matching(data[1..], query)
  }

  lemma {:induction false} InCategoryMembers(data: seq<Post>, category: string)
    ensures forall p :: p in InCategory(data, category) <==> p in data && p.category == Some(category)
  {
    if data != [] {
      InCategoryMembers(data[1..], category);
      assert forall p :: p in data <==> p == data[0] || p in data[1..];
    }
  }

  lemma {:induction false} MatchingMembers(data: seq<Post>, query: string)
    ensures forall p :: p in Matching(data, query) <==> p in data && Matches(p, query)
  {
    if data != [] {
      MatchingMembers(data[1..], query);
      assert forall p :: p in data <==> p == data[0] || p in data[1..];
    }
  }

  // ---------------------------------------------------------------------
  // Newest first: `sorted(data, key=lambda x: x.get('date', ''), reverse=True)`

  /** Python's sort is stable also with `reverse=True`: `x` goes after every record dated no earlier. */
  function InsertByDate(sorted: seq<Post>, x: Post): (r: seq<Post>)
    ensures |r| == |sorted| + 1
  {
    if sorted == [] then [x]
    else if LexLe(x.date, sorted[0].date) then [sorted[0]] + InsertByDate(sorted[1..], x)
    else [x] + sorted
  }

  function SortByDate(s: seq<Post>): (r: seq<Post>)
    ensures |r| == |s|
  {
    if s == [] then [] else InsertByDate(SortByDate(s[..|s| - 1]), s[|s| - 1])
  }

  /** Dates never increase along the sequence. */
  predicate NewestFirst(s: seq<Post>) {
    forall i, j :: 0 <= i < j < |s| ==> LexLe(s[j].date, s[i].date)
  }

  /** The records of `s` dated `d`, in order. */
  function DatedOn(s: seq<Post>, d: string): seq<Post> {
    if s == [] then [] else (if s[0].date == d then [s[0]] else []) + DatedOn(s[1..], d)
  }

  /** Dropping the newest record keeps the order. */
  lemma NewestFirstTail(s: seq<Post>)
    requires s != [] && NewestFirst(s)
    ensures NewestFirst(s[1..])
  {
    forall i, j | 0 <= i < j < |s[1..]|
      ensures LexLe(s[1..][j].date, s[1..][i].date)
    {
      assert s[1..][i] == s[i + 1] && s[1..][j] == s[j + 1];
    }
  }

  /** A record dated no earlier than everything in a newest-first sequence may lead it. */
  lemma NewestFirstCons(h: Post, rest: seq<Post>)
    requires NewestFirst(rest)
    requires forall j :: 0 <= j < |rest| ==> LexLe(rest[j].date, h.date)
    ensures NewestFirst([h] + rest)
  {
    var r := [h] + rest;
    forall i, j | 0 <= i < j < |r|
      ensures LexLe(r[j].date, r[i].date)
    {
      assert r[j] == rest[j - 1];
      if i > 0 { assert r[i] == rest[i - 1]; }
    }
  }

  lemma {:induction false} InsertByDatePermutes(sorted: seq<Post>, x: Post)
    ensures multiset(InsertByDate(sorted, x)) == multiset(sorted) + multiset{x}
  {
    if sorted != [] && LexLe(x.date, sorted[0].date) {
      InsertByDatePermutes(sorted[1..], x);
      assert sorted == [sorted[0]] + sorted[1..];
    }
  }

  /** Inserting a record no later than `b` into records no later than `b` gives records no later than `b`. */
  lemma {:induction false} InsertByDateBound(sorted: seq<Post>, x: Post, b: string)
    requires forall j :: 0 <= j < |sorted| ==> LexLe(sorted[j].date, b)
    requires LexLe(x.date, b)
    ensures forall j :: 0 <= j < |InsertByDate(sorted, x)| ==> LexLe(InsertByDate(sorted, x)[j].date, b)
  {
    if sorted != [] && LexLe(x.date, sorted[0].date) {
      InsertByDateBound(sorted[1..], x, b);
      var rest := InsertByDate(sorted[1..], x);
      assert InsertByDate(sorted, x) == [sorted[0]] + rest;
    }
  }

  lemma {:induction false} InsertByDateSorted(sorted: seq<Post>, x: Post)
    requires NewestFirst(sorted)
    ensures NewestFirst(InsertByDate(sorted, x))
  {
    if sorted == [] {
    } else if LexLe(x.date, sorted[0].date) {
      NewestFirstTail(sorted);
      InsertByDateSorted(sorted[1..], x);
      InsertByDateBound(sorted[1..], x, sorted[0].date);
      NewestFirstCons(sorted[0], InsertByDate(sorted[1..], x));
    } else {
      forall j | 0 <= j < |sorted|
        ensures LexLe(sorted[j].date, x.date)
      {
        LexLeTotal(x.date, sorted[0].date);
        if j > 0 { LexLeTransitive(sorted[j].date, sorted[0].date, x.date); }
      }
      NewestFirstCons(x, sorted);
    }
  }

  /** The ordering is newest first and a permutation of its input. */
  lemma {:induction false} SortByDateSpec(s: seq<Post>)
    ensures NewestFirst(SortByDate(s))
    ensures multiset(SortByDate(s)) == multiset(s)
  {
    if s != [] {
      var init := s[..|s| - 1];
      SortByDateSpec(init);
      InsertByDateSorted(SortByDate(init), s[|s| - 1]);
      InsertByDatePermutes(SortByDate(init), s[|s| - 1]);
      assert s == init + [s[|s| - 1]];
    }
  }

  lemma {:induction false} DatedOnAppend(a: seq<Post>, b: seq<Post>, d: string)
    ensures DatedOn(a + b, d) == DatedOn(a, d) + DatedOn(b, d)
  {
    if a == [] {
      assert a + b == b;
    } else {
      assert (a + b)[0] == a[0] && (a + b)[1..] == a[1..] + b;
      DatedOnAppend(a[1..], b, d);
      AppendAssoc(if a[0].date == d then [a[0]] else [], DatedOn(a[1..], d), DatedOn(b, d));
    }
  }

  /** Every record of a newest-first sequence dated before `d` (in the sense that `d` is not below it) is not dated `d`. */
  lemma {:induction false} DatedOnNone(s: seq<Post>, d: string)
    requires forall i :: 0 <= i < |s| ==> s[i].date != d
    ensures DatedOn(s, d) == []
  {
    if s != [] {
      DatedOnNone(s[1..], d);
    }
  }

  lemma {:induction false} InsertByDateStable(sorted: seq<Post>, x: Post, d: string)
    requires NewestFirst(sorted)
    ensures DatedOn(InsertByDate(sorted, x), d) == DatedOn(sorted, d) + DatedOn([x], d)
  {
    if sorted == [] {
      assert DatedOn([], d) == [];
    } else if LexLe(x.date, sorted[0].date) {
      NewestFirstTail(sorted);
      InsertByDateStable(sorted[1..], x, d);
      var rest := InsertByDate(sorted[1..], x);
      assert InsertByDate(sorted, x) == [sorted[0]] + rest;
      assert ([sorted[0]] + rest)[0] == sorted[0] && ([sorted[0]] + rest)[1..] == rest;
      var h := if sorted[0].date == d then [sorted[0]] else [];
      assert DatedOn([sorted[0]] + rest, d) == h + DatedOn(rest, d);
      AppendAssoc(h, DatedOn(sorted[1..], d), DatedOn([x], d));
    } else {
      assert InsertByDate(sorted, x) == [x] + sorted;
      assert ([x] + sorted)[1..] == sorted;
      assert [x][1..] == [];
      if x.date == d {
        OlderThanAll(sorted, x);
        DatedOnNone(sorted, d);
      }
    }
  }

  /** A record that goes before the newest one is dated strictly later than every record. */
  lemma OlderThanAll(sorted: seq<Post>, x: Post)
    requires NewestFirst(sorted) && sorted != []
    requires !LexLe(x.date, sorted[0].date)
    ensures forall i :: 0 <= i < |sorted| ==> sorted[i].date != x.date
  {
    LexLeTotal(x.date, sorted[0].date);
    forall i | 0 <= i < |sorted|
      ensures sorted[i].date != x.date
    {
      assert LexLe(sorted[i].date, sorted[0].date) || i == 0;
    }
  }

  /**
   * The ordering is stable: the records sharing a date keep their relative
   * order, so together with `SortByDateSpec` it is exactly Python's `sorted`.
   */
  lemma {:induction false} SortByDateStable(s: seq<Post>, d: string)
    ensures DatedOn(SortByDate(s), d) == DatedOn(s, d)
  {
    if s != [] {
      var init := s[..|s| - 1];
      var x := s[|s| - 1];
      SortByDateStable(init, d);
      SortByDateSpec(init);
      InsertByDateStable(SortByDate(init), x, d);
      assert s == init + [x];
      DatedOnAppend(init, [x], d);
    }
  }

  // ---------------------------------------------------------------------
  // Python slices

  function Clamp(i: int, n: nat): (k: nat)
    ensures k <= n
  {
    if i < 0 then (if n + i < 0 then 0 else n + i) else if i > n then n else i
  }

  /** `s[a:]`: a negative start counts from the end; starts beyond either end are clamped. */
  function From<T>(s: seq<T>, a: int): seq<T> {
    s[Clamp(a, |s|)..]
  }

  /** `s[:b]`, with the same reading of negative and out-of-range bounds. */
  function UpTo<T>(s: seq<T>, b: int): seq<T> {
    s[..Clamp(b, |s|)]
  }

  /** A positive limit bounds the length; a negative one drops that many from the end. */
  lemma UpToSpec<T>(s: seq<T>, b: int)
    ensures UpTo(s, b) <= s
    ensures b >= 0 ==> |UpTo(s, b)| == if b <= |s| then b else |s|
    ensures b < 0 ==> |UpTo(s, b)| == if |s| + b < 0 then 0 else |s| + b
  {
  }

  /** A non-negative start drops that many records; a negative one keeps that many from the end. */
  lemma FromSpec<T>(s: seq<T>, a: int)
    ensures exists k :: 0 <= k <= |s| && From(s, a) == s[k..]
    ensures 0 <= a <= |s| ==> |From(s, a)| == |s| - a
    ensures a < 0 ==> |From(s, a)| == if -a <= |s| then -a else |s|
  {
    assert From(s, a) == s[Clamp(a, |s|)..];
  }

  // ---------------------------------------------------------------------
  // The queries

  /**
   * `get_notices`: filter by category when one is given, newest first, then
   * skip `offset` and keep `limit`, each only when it is truthy.
   */
  function GetNotices(data: seq<Post>, category: Option<string>, limit: Option<int>, offset: int): seq<Post> {
    var sorted := SortByDate(MaybeInCategory(data, category));
    var skipped := if offset != 0 then From(sorted, offset) else sorted;
    if limit.Some? && limit.value != 0 then UpTo(skipped, limit.value) else skipped
  }

  /** A contiguous run of a newest-first sequence is newest first. */
  lemma NewestFirstSlice(s: seq<Post>, i: nat, j: nat)
    requires NewestFirst(s) && i <= j <= |s|
    ensures NewestFirst(s[i..j])
  {
    forall a, b | 0 <= a < b < j - i
      ensures LexLe(s[i..j][b].date, s[i..j][a].date)
    {
      assert s[i..j][a] == s[i + a] && s[i..j][b] == s[i + b];
    }
  }

  /** `page` is a contiguous run of `s`. */
  predicate IsRun(page: seq<Post>, s: seq<Post>) {
    exists i, j :: 0 <= i <= j <= |s| && page == s[i..j]
  }

  /**
   * The offset and limit of `get_notices` cut a window out of the ordered
   * records: a positive offset skips that many (all, when there are fewer), a
   * negative one keeps that many from the end; a positive limit then keeps
   * the first ones of what remains, a negative one drops that many from its
   * end, and no limit or 0 keeps all of it.
   */
  lemma GetNoticesWindow(data: seq<Post>, category: Option<string>, limit: Option<int>, offset: int)
    ensures IsRun(GetNotices(data, category, limit, offset), SortByDate(MaybeInCategory(data, category)))
    ensures var sorted := SortByDate(MaybeInCategory(data, category));
      && (0 <= offset ==> GetNotices(data, category, None, offset) == sorted[(if offset <= |sorted| then offset else |sorted|)..])
      && (offset < 0 ==> GetNotices(data, category, None, offset) == sorted[(if -offset <= |sorted| then |sorted| + offset else 0)..])
    ensures var rest := GetNotices(data, category, None, offset);
      && (limit.None? || limit.value == 0 ==> GetNotices(data, category, limit, offset) == rest)
      && (limit.Some? && limit.value > 0 ==>
            GetNotices(data, category, limit, offset) == rest[..(if limit.value <= |rest| then limit.value else |rest|)])
      && (limit.Some? && limit.value < 0 ==>
            GetNotices(data, category, limit, offset) == rest[..(if -limit.value <= |rest| then |rest| + limit.value else 0)])
    ensures limit.Some? && limit.value > 0 ==> |GetNotices(data, category, limit, offset)| <= limit.value
    ensures offset == 0 && (limit.None? || limit.value == 0) ==>
      GetNotices(data, category, limit, offset) == SortByDate(MaybeInCategory(data, category))
  {
    var sorted := SortByDate(MaybeInCategory(data, category));
    var i := if offset != 0 then Clamp(offset, |sorted|) else 0;
    var skipped := sorted[i..];
    var j := if limit.Some? && limit.value != 0 then i + Clamp(limit.value, |skipped|) else |sorted|;
    assert GetNotices(data, category, limit, offset) == sorted[i..j];
  }

  /**
   * The page is a contiguous run of the newest-first filtered snapshot: it
   * holds only records of the category asked for, at most `limit` of them for
   * a positive limit, and with no offset and no limit it is all of them.
   */
  lemma GetNoticesSpec(data: seq<Post>, category: Option<string>, limit: Option<int>, offset: int)
    ensures NewestFirst(GetNotices(data, category, limit, offset))
    ensures category.Some? && category.value != "" ==>
      forall p | p in GetNotices(data, category, limit, offset) :: p in data && p.category == category
    ensures limit.Some? && limit.value > 0 ==> |GetNotices(data, category, limit, offset)| <= limit.value
    ensures offset == 0 && (limit.None? || limit.value == 0) ==>
      multiset(GetNotices(data, category, limit, offset)) == multiset(MaybeInCategory(data, category))
  {
    var filtered := MaybeInCategory(data, category);
    var sorted := SortByDate(filtered);
    SortByDateSpec(filtered);
    GetNoticesWindow(data, category, limit, offset);
    var i, j :| 0 <= i <= j <= |sorted| && GetNotices(data, category, limit, offset) == sorted[i..j];
    NewestFirstSlice(sorted, i, j);
    if category.Some? && category.value != "" {
      InCategoryMembers(data, category.value);
      forall p | p in sorted[i..j]
        ensures p in data && p.category == category
      {
        assert p in multiset(sorted);
      }
    }
  }

  /**
   * `search_notices`: filter by category when one is given, keep the records
   * the query matches, newest first, and keep `limit` when it is truthy.
   */
  function Search(data: seq<Post>, query: string, category: Option<string>, limit: Option<int>): seq<Post> {
    var found := SortByDate(Matching(MaybeInCategory(data, category), query));
    if limit.Some? && limit.value != 0 then UpTo(found, limit.value) else found
  }

  /**
   * Every result matches the query and the category; without a limit every
   * matching record of the category is found, each as often as it is stored.
   */
  lemma SearchSpec(data: seq<Post>, query: string, category: Option<string>, limit: Option<int>)
    ensures forall p | p in Search(data, query, category, limit) ::
      p in data && Matches(p, query) && (category.Some? && category.value != "" ==> p.category == category)
    ensures NewestFirst(Search(data, query, category, limit))
    ensures limit.None? || limit.value == 0 ==>
      multiset(Search(data, query, category, limit)) == multiset(Matching(MaybeInCategory(data, category), query))
    ensures limit.Some? && limit.value > 0 ==> |Search(data, query, category, limit)| <= limit.value
  {
    SortByDateSpec(Matching(MaybeInCategory(data, category), query));
    SearchMembers(data, query, category, limit);
    SearchOrdered(data, query, category, limit);
  }

  lemma SearchMembers(data: seq<Post>, query: string, category: Option<string>, limit: Option<int>)
    ensures forall p | p in Search(data, query, category, limit) ::
      p in data && Matches(p, query) && (category.Some? && category.value != "" ==> p.category == category)
  {
    var filtered := MaybeInCategory(data, category);
    SearchWithinFound(data, query, category, limit);
    MatchingMembers(filtered, query);
    if category.Some? && category.value != "" {
      InCategoryMembers(data, category.value);
    }
  }

  /** A search result is one of the matching records of the category: sorting and the limit add none. */
  lemma SearchWithinFound(data: seq<Post>, query: string, category: Option<string>, limit: Option<int>)
    ensures forall p | p in Search(data, query, category, limit) :: p in Matching(MaybeInCategory(data, category), query)
  {
    var found := Matching(MaybeInCategory(data, category), query);
    SortByDateSpec(found);
    var sorted := SortByDate(found);
    var r := Search(data, query, category, limit);
    assert r <= sorted;
    forall p | p in r
      ensures p in found
    {
      assert p in multiset(sorted);
    }
  }

  lemma SearchOrdered(data: seq<Post>, query: string, category: Option<string>, limit: Option<int>)
    ensures NewestFirst(Search(data, query, category, limit))
  {
    var sorted := SortByDate(Matching(MaybeInCategory(data, category), query));
    SortByDateSpec(Matching(MaybeInCategory(data, category), query));
    var r := Search(data, query, category, limit);
    assert r <= sorted;
    forall a, b | 0 <= a < b < |r|
      ensures LexLe(r[b].date, r[a].date)
    {
      assert r[a] == sorted[a] && r[b] == sorted[b];
    }
  }

  /** `get_latest_notices`: the newest `limit` records (`data[:limit]`, so 0 gives none). */
  function Latest(data: seq<Post>, limit: int): (r: seq<Post>)
    ensures limit >= 0 ==> |r| == if limit <= |data| then limit else |data|
  {
    UpTo(SortByDate(data), limit)
  }

  /**
   * The latest notices are the front of the newest-first ordering: stored
   * records, newest first, and no record left out is dated later than one
   * kept.
   */
  lemma LatestSpec(data: seq<Post>, limit: int)
    ensures Latest(data, limit) <= SortByDate(data)
    ensures NewestFirst(Latest(data, limit))
    ensures forall p | p in Latest(data, limit) :: p in data
    ensures forall a, b | 0 <= a < |Latest(data, limit)| <= b < |data| ::
      LexLe(SortByDate(data)[b].date, Latest(data, limit)[a].date)
  {
    var sorted := SortByDate(data);
    var r := Latest(data, limit);
    UpToSpec(sorted, limit);
    SortByDateSpec(data);
    NewestFirstSlice(sorted, 0, |r|);
    assert sorted[0..|r|] == r;
    forall p | p in r
      ensures p in data
    {
      assert p in multiset(sorted);
    }
    forall a, b | 0 <= a < |r| <= b < |data|
      ensures LexLe(sorted[b].date, r[a].date)
    {
      assert r[a] == sorted[a];
    }
  }

  /** `get_notice_by_id`: the first record with that id. */
  function FindById(data: seq<Post>, id: string): (r: Option<Post>)
    ensures r.Some? ==> r.value in data && r.value.id == Some(id)
    ensures r.None? <==> forall p | p in data :: p.id != Some(id)
  {
    if data == [] then None
    else if data[0].id == Some(id) then Some(data[0])
    else
      var r := FindById(data[1..], id);
      assert forall p :: p in data <==> p == data[0] || p in data[1..];
      r
  }

  /** The record found is the first one with that id. */
  lemma {:induction false} FindByIdFirst(data: seq<Post>, id: string)
    requires FindById(data, id).Some?
    ensures exists k | 0 <= k < |data| :: data[k] == FindById(data, id).value && forall j :: 0 <= j < k ==> data[j].id != Some(id)
  {
    if data[0].id != Some(id) {
      FindByIdFirst(data[1..], id);
      var k :| 0 <= k < |data[1..]| && data[1..][k] == FindById(data[1..], id).value &&
        (forall j :: 0 <= j < k ==> data[1..][j].id != Some(id));
      assert FindById(data, id) == FindById(data[1..], id);
      assert data[k + 1] == data[1..][k];
      forall j | 0 <= j < k + 1
        ensures data[j].id != Some(id)
      {
        if j > 0 {
          assert data[j] == data[1..][j - 1];
        }
      }
    } else {
      assert data[0] == FindById(data, id).value;
    }
  }
}
