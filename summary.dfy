/**
 * Per-category statistics of a snapshot: `get_categories` and `get_summary`
 * of new/crawler_service.py and `get_summary_by_category` of
 * multi_url_crawler.py and multi_url_scheduled_crawler.py.
 *
 * A record without a `category` key is counted under "Unknown". Python
 * dictionaries keep insertion order, so a tally is a sequence of buckets in
 * the order the categories first appear.
 */
module Summary {
  import opened Wrappers
  import opened Text
  import opened Records

  const UnknownCategory := "Unknown"

  /** The category a record is counted under. */
  function CategoryOf(p: Post): string {
    CategoryOr(p, UnknownCategory)
  }

  /** Every category of the snapshot. */
  function Names(data: seq<Post>): set<string> {
    set p | p in data :: CategoryOf(p)
  }

  /** The dates of the records of category `c`, in order. */
  function DatesIn(data: seq<Post>, c: string): seq<string> {
    if data == [] then []
    else
      var last := data[|data| - 1];
      DatesIn(data[..|data| - 1], c) + (if CategoryOf(last) == c then [last.date] else [])
  }

  /** `summary_dict[category]`: how many records and which dates. */
  datatype Bucket = Bucket(category: string, count: nat, dates: seq<string>)

  function BucketNames(bs: seq<Bucket>): set<string> {
    set b | b in bs :: b.category
  }

  function SumCounts(bs: seq<Bucket>): nat {
    if bs == [] then 0 else bs[0].count + SumCounts(bs[1..])
  }

  /** The position of category `c`, or `|bs|` when it has no bucket yet. */
  function IndexOf(bs: seq<Bucket>, c: string): (k: nat)
    ensures k <= |bs|
    ensures k < |bs| ==> bs[k].category == c
    ensures k == |bs| ==> forall i :: 0 <= i < |bs| ==> bs[i].category != c
  {
    if bs == [] then 0
    else if bs[0].category == c then 0
    else 1 + IndexOf(bs[1..], c)
  }

  /** Count one more record: open its category's bucket if needed, then add one and its date. */
  function Bump(bs: seq<Bucket>, p: Post): seq<Bucket> {
    var c := CategoryOf(p);
    var k := IndexOf(bs, c);
    if k == |bs| then bs + [Bucket(c, 1, [p.date])]
    else bs[k := Bucket(c, bs[k].count + 1, bs[k].dates + [p.date])]
  }

  /** The tally after counting every record in order. */
  function Tally(data: seq<Post>): seq<Bucket> {
    if data == [] then [] else Bump(Tally(data[..|data| - 1]), data[|data| - 1])
  }

  /** The counting loop of `get_summary` and `get_summary_by_category`. */
  method TallyByCategory(data: seq<Post>) returns (bs: seq<Bucket>)
    ensures bs == Tally(data)
    ensures Tallies(bs, data)
  {
    bs := [];
    for i := 0 to |data|
      invariant bs == Tally(data[..i])
    {
      assert data[..i + 1][..i] == data[..i];
      bs := Bump(bs, data[i]);
    }
    assert data[..|data|] == data;
    TallySpec(data);
  }

  /** `get_summary_by_category`: each category with its number of records, in order of first appearance. */
  function CategoryCounts(data: seq<Post>): (r: seq<(string, nat)>)
    ensures |r| == |Tally(data)|
    ensures forall k :: 0 <= k < |r| ==> r[k] == (Tally(data)[k].category, Tally(data)[k].count)
  {
    var bs := Tally(data);
    seq(|bs|, k requires 0 <= k < |bs| => (bs[k].category, bs[k].count))
  }

  function SumOfCounts(r: seq<(string, nat)>): nat {
    if r == [] then 0 else r[0].1 + SumOfCounts(r[1..])
  }

  lemma {:induction false} SumOfCountsIsSumCounts(bs: seq<Bucket>, r: seq<(string, nat)>)
    requires |r| == |bs| && forall k :: 0 <= k < |r| ==> r[k].1 == bs[k].count
    ensures SumOfCounts(r) == SumCounts(bs)
  {
    if r != [] {
      SumOfCountsIsSumCounts(bs[1..], r[1..]);
    }
  }

  /**
   * The per-category counts name every category once, count each category's
   * records (one date per record), and add up to the number of records.
   */
  lemma CategoryCountsSpec(data: seq<Post>)
    ensures var r := CategoryCounts(data);
      && (forall i, j :: 0 <= i < j < |r| ==> r[i].0 != r[j].0)
      && (forall k :: 0 <= k < |r| ==> r[k].1 == |DatesIn(data, r[k].0)| >= 1)
      && (forall c :: c in Names(data) <==> exists k :: 0 <= k < |r| && r[k].0 == c)
      && SumOfCounts(r) == |data|
  {
    var bs := Tally(data);
    var r := CategoryCounts(data);
    TallySpec(data);
    SumOfCountsIsSumCounts(bs, r);
    forall k | 0 <= k < |r|
      ensures r[k].1 >= 1
    {
      assert bs[k] in bs;
      assert r[k].0 in BucketNames(bs);
      BucketNonEmpty(data, r[k].0);
    }
    forall c
      ensures c in Names(data) <==> exists k :: 0 <= k < |r| && r[k].0 == c
    {
      if c in Names(data) {
        assert c in BucketNames(bs);
        var b :| b in bs && b.category == c;
        var k :| 0 <= k < |bs| && bs[k] == b;
        assert r[k].0 == c;
      }
      if exists k :: 0 <= k < |r| && r[k].0 == c {
        var k :| 0 <= k < |r| && r[k].0 == c;
        assert bs[k] in bs;
      }
    }
  }

  /**
   * The buckets describe `data`: one per category, holding the number of
   * records of that category and their dates in order, and the counts add up
   * to the number of records.
   */
  predicate Tallies(bs: seq<Bucket>, data: seq<Post>) {
    && (forall i, j :: 0 <= i < j < |bs| ==> bs[i].category != bs[j].category)
    && (forall k :: 0 <= k < |bs| ==> bs[k].dates == DatesIn(data, bs[k].category) && bs[k].count == |bs[k].dates|)
    && BucketNames(bs) == Names(data)
    && SumCounts(bs) == |data|
  }

  lemma {:induction false} SumCountsAppend(bs: seq<Bucket>, b: Bucket)
    ensures SumCounts(bs + [b]) == SumCounts(bs) + b.count
  {
    if bs != [] {
      assert (bs + [b])[1..] == bs[1..] + [b];
      SumCountsAppend(bs[1..], b);
    }
  }

  lemma {:induction false} SumCountsUpdate(bs: seq<Bucket>, k: nat, b: Bucket)
    requires k < |bs|
    ensures SumCounts(bs[k := b]) == SumCounts(bs) - bs[k].count + b.count
  {
    if k > 0 {
      assert bs[k := b][1..] == bs[1..][k - 1 := b];
      SumCountsUpdate(bs[1..], k - 1, b);
    }
  }

  lemma DatesInSnoc(data: seq<Post>, x: Post, c: string)
    ensures DatesIn(data + [x], c) == DatesIn(data, c) + (if CategoryOf(x) == c then [x.date] else [])
  {
    assert (data + [x])[..|data|] == data;
  }

  lemma {:induction false} DatesInAbsent(data: seq<Post>, c: string)
    requires c !in Names(data)
    ensures DatesIn(data, c) == []
  {
    if data != [] {
      var init := data[..|data| - 1];
      assert Names(init) <= Names(data) by {
        forall n | n in Names(init) ensures n in Names(data) {
          var p :| p in init && CategoryOf(p) == n;
          assert p in data;
        }
      }
      DatesInAbsent(init, c);
      assert data[|data| - 1] in data;
    }
  }

  lemma NamesSnoc(data: seq<Post>, x: Post)
    ensures Names(data + [x]) == Names(data) + {CategoryOf(x)}
  {
    assert forall p :: p in data + [x] <==> p in data || p == x;
  }

  /** Counting one more record keeps one bucket per category. */
  lemma BumpDistinct(bs: seq<Bucket>, x: Post)
    requires forall i, j :: 0 <= i < j < |bs| ==> bs[i].category != bs[j].category
    ensures var r := Bump(bs, x);
      forall i, j :: 0 <= i < j < |r| ==> r[i].category != r[j].category
  {
  }

  /** Counting one more record keeps every bucket's count and dates exact. */
  lemma BumpDates(bs: seq<Bucket>, data: seq<Post>, x: Post)
    requires forall i, j :: 0 <= i < j < |bs| ==> bs[i].category != bs[j].category
    requires forall k :: 0 <= k < |bs| ==> bs[k].dates == DatesIn(data, bs[k].category) && bs[k].count == |bs[k].dates|
    requires BucketNames(bs) == Names(data)
    ensures var r := Bump(bs, x);
      forall k :: 0 <= k < |r| ==> r[k].dates == DatesIn(data + [x], r[k].category) && r[k].count == |r[k].dates|
  {
    var c := CategoryOf(x);
    forall n ensures DatesIn(data + [x], n) == DatesIn(data, n) + (if c == n then [x.date] else []) {
      DatesInSnoc(data, x, n);
    }
    var r := Bump(bs, x);
    var idx := IndexOf(bs, c);
    if idx == |bs| {
      forall b | b in bs ensures b.category != c {
        var i :| 0 <= i < |bs| && bs[i] == b;
      }
      assert c !in BucketNames(bs);
      DatesInAbsent(data, c);
    }
    forall k | 0 <= k < |r|
      ensures r[k].dates == DatesIn(data + [x], r[k].category) && r[k].count == |r[k].dates|
    {
      if k == idx {
        assert r[k].category == c;
        if idx < |bs| {
          assert r[k].dates == DatesIn(data, c) + [x.date];
        } else {
          assert r[k].dates == [] + [x.date];
        }
      } else {
        assert r[k] == bs[k];
        assert idx < |bs| ==> bs[k].category != bs[idx].category;
      }
    }
  }

  /** Counting one more record adds its category to the bucket names and one to the total. */
  lemma BumpNamesSum(bs: seq<Bucket>, x: Post)
    ensures BucketNames(Bump(bs, x)) == BucketNames(bs) + {CategoryOf(x)}
    ensures SumCounts(Bump(bs, x)) == SumCounts(bs) + 1
  {
    var c := CategoryOf(x);
    var k := IndexOf(bs, c);
    var r := Bump(bs, x);
    if k == |bs| {
      SumCountsAppend(bs, Bucket(c, 1, [x.date]));
      assert forall b :: b in r <==> b in bs || b == Bucket(c, 1, [x.date]);
    } else {
      var b := Bucket(c, bs[k].count + 1, bs[k].dates + [x.date]);
      SumCountsUpdate(bs, k, b);
      forall n | n in BucketNames(bs) ensures n in BucketNames(r) {
        var i :| 0 <= i < |bs| && bs[i].category == n;
        assert r[i].category == n;
      }
      forall n | n in BucketNames(r) ensures n in BucketNames(bs) {
        var i :| 0 <= i < |r| && r[i].category == n;
        assert bs[i].category == n;
      }
    }
  }

  /** Counting one more record keeps the tally exact. */
  lemma BumpTallies(bs: seq<Bucket>, data: seq<Post>, x: Post)
    requires Tallies(bs, data)
    ensures Tallies(Bump(bs, x), data + [x])
  {
    BumpDistinct(bs, x);
    BumpDates(bs, data, x);
    BumpNamesSum(bs, x);
    NamesSnoc(data, x);
  }

  /** The tally describes the snapshot exactly. */
  lemma {:induction false} TallySpec(data: seq<Post>)
    ensures Tallies(Tally(data), data)
  {
    if data != [] {
      var init := data[..|data| - 1];
      TallySpec(init);
      BumpTallies(Tally(init), init, data[|data| - 1]);
      assert init + [data[|data| - 1]] == data;
    }
  }

  /** The position of the first record of category `c`, or `|data|` when there is none. */
  function FirstIndex(data: seq<Post>, c: string): (k: nat)
    ensures k <= |data|
  {
    if data == [] then 0
    else if CategoryOf(data[0]) == c then 0
    else 1 + FirstIndex(data[1..], c)
  }

  /** A category has a first record exactly when it occurs in the snapshot. */
  lemma {:induction false} FirstIndexNames(data: seq<Post>, c: string)
    ensures FirstIndex(data, c) < |data| <==> c in Names(data)
  {
    if data != [] {
      FirstIndexNames(data[1..], c);
      assert forall p :: p in data <==> p == data[0] || p in data[1..];
    }
  }

  /** One more record leaves the first position of an occurring category alone and makes a new one's the end. */
  lemma {:induction false} FirstIndexSnoc(data: seq<Post>, x: Post, c: string)
    ensures FirstIndex(data, c) < |data| ==> FirstIndex(data + [x], c) == FirstIndex(data, c)
    ensures FirstIndex(data, c) == |data| && CategoryOf(x) == c ==> FirstIndex(data + [x], c) == |data|
  {
    if data != [] {
      assert (data + [x])[1..] == data[1..] + [x];
      FirstIndexSnoc(data[1..], x, c);
    }
  }

  /** The buckets come in the order their categories first appear in the snapshot. */
  lemma {:induction false} TallyOrder(data: seq<Post>)
    ensures forall i, j :: 0 <= i < j < |Tally(data)| ==>
      FirstIndex(data, Tally(data)[i].category) < FirstIndex(data, Tally(data)[j].category)
  {
    if data != [] {
      var init, x := data[..|data| - 1], data[|data| - 1];
      assert init + [x] == data;
      var bs, r := Tally(init), Tally(data);
      TallyOrder(init);
      TallySpec(init);
      var c := CategoryOf(x);
      var idx := IndexOf(bs, c);
      forall k | 0 <= k < |bs|
        ensures FirstIndex(data, bs[k].category) == FirstIndex(init, bs[k].category) < |init|
      {
        assert bs[k].category in BucketNames(bs);
        FirstIndexNames(init, bs[k].category);
        FirstIndexSnoc(init, x, bs[k].category);
      }
      if idx == |bs| {
        assert c !in BucketNames(bs);
        FirstIndexNames(init, c);
        FirstIndexSnoc(init, x, c);
        assert r == bs + [Bucket(c, 1, [x.date])];
      } else {
        assert r == bs[idx := Bucket(c, bs[idx].count + 1, bs[idx].dates + [x.date])];
        forall i, j | 0 <= i < j < |r|
          ensures FirstIndex(data, r[i].category) < FirstIndex(data, r[j].category)
        {
          assert r[i].category == bs[i].category && r[j].category == bs[j].category;
          assert FirstIndex(init, bs[i].category) < FirstIndex(init, bs[j].category);
          assert FirstIndex(data, bs[i].category) == FirstIndex(init, bs[i].category);
          assert FirstIndex(data, bs[j].category) == FirstIndex(init, bs[j].category);
        }
      }
    }
  }

  /**
   * `get_summary_by_category` lists the categories in the order they first
   * appear in the snapshot, each named by a record.
   */
  lemma CategoryCountsOrder(data: seq<Post>)
    ensures var r := CategoryCounts(data);
      && (forall k :: 0 <= k < |r| ==> FirstIndex(data, r[k].0) < |data| && CategoryOf(data[FirstIndex(data, r[k].0)]) == r[k].0)
      && (forall i, j :: 0 <= i < j < |r| ==> FirstIndex(data, r[i].0) < FirstIndex(data, r[j].0))
  {
    var bs := Tally(data);
    var r := CategoryCounts(data);
    TallySpec(data);
    TallyOrder(data);
    assert forall k :: 0 <= k < |r| ==> r[k].0 == bs[k].category;
    forall k | 0 <= k < |bs|
      ensures FirstIndex(data, bs[k].category) < |data| && CategoryOf(data[FirstIndex(data, bs[k].category)]) == bs[k].category
    {
      assert bs[k].category in BucketNames(bs);
      FirstIndexNames(data, bs[k].category);
      FirstIndexHit(data, bs[k].category);
    }
    forall i, j | 0 <= i < j < |r|
      ensures FirstIndex(data, r[i].0) < FirstIndex(data, r[j].0)
    {
      assert r[i].0 == bs[i].category && r[j].0 == bs[j].category;
    }
  }

  /** The record at the first position of a category has that category. */
  lemma {:induction false} FirstIndexHit(data: seq<Post>, c: string)
    requires FirstIndex(data, c) < |data|
    ensures CategoryOf(data[FirstIndex(data, c)]) == c
  {
    if data != [] && CategoryOf(data[0]) != c {
      FirstIndexHit(data[1..], c);
    }
  }

  // ---------------------------------------------------------------------
  // get_categories: `sorted(list(set(post.get('category', 'Unknown') ...)))`

  /** Ascending and without repeats. */
  predicate StrictlyAscending(s: seq<string>) {
    forall i, j :: 0 <= i < j < |s| ==> LexLe(s[i], s[j]) && s[i] != s[j]
  }

  /** Insert `x` into an ascending list of distinct names unless it is there. */
  function InsertName(s: seq<string>, x: string): seq<string> {
    if s == [] then [x]
    else if x == s[0] then s
    else if LexLe(x, s[0]) then [x] + s
    else [s[0]] + InsertName(s[1..], x)
  }

  function CategoryList(data: seq<Post>): seq<string> {
    if data == [] then [] else InsertName(CategoryList(data[..|data| - 1]), CategoryOf(data[|data| - 1]))
  }

  lemma {:induction false} InsertNameMembers(s: seq<string>, x: string)
    ensures forall n :: n in InsertName(s, x) <==> n in s || n == x
  {
    if s != [] && x != s[0] && !LexLe(x, s[0]) {
      InsertNameMembers(s[1..], x);
      assert forall n :: n in s <==> n == s[0] || n in s[1..];
    }
  }

  /** A name above `b` inserted among names above `b` leaves them all above `b`. */
  lemma {:induction false} InsertNameBound(s: seq<string>, x: string, b: string)
    requires forall i :: 0 <= i < |s| ==> LexLe(b, s[i]) && s[i] != b
    requires LexLe(b, x) && x != b
    ensures forall i :: 0 <= i < |InsertName(s, x)| ==> LexLe(b, InsertName(s, x)[i]) && InsertName(s, x)[i] != b
  {
    if s != [] && x != s[0] && !LexLe(x, s[0]) {
      InsertNameBound(s[1..], x, b);
      assert InsertName(s, x) == [s[0]] + InsertName(s[1..], x);
    }
  }

  lemma AscendingCons(h: string, rest: seq<string>)
    requires StrictlyAscending(rest)
    requires forall i :: 0 <= i < |rest| ==> LexLe(h, rest[i]) && rest[i] != h
    ensures StrictlyAscending([h] + rest)
  {
    var r := [h] + rest;
    forall i, j | 0 <= i < j < |r|
      ensures LexLe(r[i], r[j]) && r[i] != r[j]
    {
      assert r[j] == rest[j - 1];
      if i > 0 { assert r[i] == rest[i - 1]; }
    }
  }

  lemma {:induction false} InsertNameSorted(s: seq<string>, x: string)
    requires StrictlyAscending(s)
    ensures StrictlyAscending(InsertName(s, x))
  {
    if s == [] {
    } else if x == s[0] {
    } else if LexLe(x, s[0]) {
      forall i | 0 <= i < |s|
        ensures LexLe(x, s[i]) && s[i] != x
      {
        if i > 0 {
          LexLeTransitive(x, s[0], s[i]);
          if s[i] == x { LexLeAntisymmetric(x, s[0]); }
        }
      }
      AscendingCons(x, s);
    } else {
      assert StrictlyAscending(s[1..]) by {
        forall i, j | 0 <= i < j < |s[1..]|
          ensures LexLe(s[1..][i], s[1..][j]) && s[1..][i] != s[1..][j]
        {
          assert s[1..][i] == s[i + 1] && s[1..][j] == s[j + 1];
        }
      }
      InsertNameSorted(s[1..], x);
      LexLeTotal(x, s[0]);
      InsertNameBound(s[1..], x, s[0]);
      AscendingCons(s[0], InsertName(s[1..], x));
    }
  }

  /** The category list is ascending, has no repeats and names exactly the snapshot's categories. */
  lemma {:induction false} CategoryListSpec(data: seq<Post>)
    ensures StrictlyAscending(CategoryList(data))
    ensures forall n :: n in CategoryList(data) <==> n in Names(data)
  {
    if data != [] {
      var init := data[..|data| - 1];
      var x := data[|data| - 1];
      CategoryListSpec(init);
      InsertNameSorted(CategoryList(init), CategoryOf(x));
      InsertNameMembers(CategoryList(init), CategoryOf(x));
      assert init + [x] == data;
      NamesSnoc(init, x);
    }
  }

  // ---------------------------------------------------------------------
  // get_summary

  /** `CategorySummary` of new/models.py. */
  datatype CategorySummary = CategorySummary(category: string, count: nat, latestDate: Option<string>)

  /** `max(dates)`, comparing strings as Python does. */
  function MaxDate(dates: seq<string>): (m: string)
    requires dates != []
    ensures m in dates && forall d | d in dates :: LexLe(d, m)
  {
    if |dates| == 1 then
      LexLeTotal(dates[0], dates[0]);
      dates[0]
    else
      var m := MaxDate(dates[1..]);
      assert forall d | d in dates :: d == dates[0] || d in dates[1..];
      LexLeTotal(dates[0], m);
      if LexLe(m, dates[0]) then
        LexLeTotal(dates[0], dates[0]);
        assert forall d | d in dates[1..] :: LexLe(d, dates[0]) by {
          forall d | d in dates[1..] ensures LexLe(d, dates[0]) { LexLeTransitive(d, m, dates[0]); }
        }
        dates[0]
      else m
  }

  function ToSummary(b: Bucket): CategorySummary {
    CategorySummary(b.category, b.count, if b.dates == [] then None else Some(MaxDate(b.dates)))
  }

  function Summaries(bs: seq<Bucket>): (r: seq<CategorySummary>)
    ensures |r| == |bs| && forall k :: 0 <= k < |bs| ==> r[k] == ToSummary(bs[k])
  {
    if bs == [] then [] else [ToSummary(bs[0])] + Summaries(bs[1..])
  }

  /** `sorted(summary, key=lambda x: x.count, reverse=True)`: a stable insertion by count. */
  function InsertByCount(sorted: seq<CategorySummary>, x: CategorySummary): seq<CategorySummary> {
    if sorted == [] then [x]
    else if x.count <= sorted[0].count then [sorted[0]] + InsertByCount(sorted[1..], x)
    else [x] + sorted
  }

  function SortByCount(s: seq<CategorySummary>): seq<CategorySummary> {
    if s == [] then [] else InsertByCount(SortByCount(s[..|s| - 1]), s[|s| - 1])
  }

  predicate MostFirst(s: seq<CategorySummary>) {
    forall i, j :: 0 <= i < j < |s| ==> s[j].count <= s[i].count
  }

  lemma {:induction false} InsertByCountPermutes(sorted: seq<CategorySummary>, x: CategorySummary)
    ensures multiset(InsertByCount(sorted, x)) == multiset(sorted) + multiset{x}
  {
    if sorted != [] && x.count <= sorted[0].count {
      InsertByCountPermutes(sorted[1..], x);
      assert sorted == [sorted[0]] + sorted[1..];
    }
  }

  lemma {:induction false} InsertByCountBound(sorted: seq<CategorySummary>, x: CategorySummary, b: nat)
    requires forall k :: 0 <= k < |sorted| ==> sorted[k].count <= b
    requires x.count <= b
    ensures forall k :: 0 <= k < |InsertByCount(sorted, x)| ==> InsertByCount(sorted, x)[k].count <= b
  {
    if sorted != [] && x.count <= sorted[0].count {
      InsertByCountBound(sorted[1..], x, b);
      assert InsertByCount(sorted, x) == [sorted[0]] + InsertByCount(sorted[1..], x);
    }
  }

  lemma MostFirstCons(h: CategorySummary, rest: seq<CategorySummary>)
    requires MostFirst(rest)
    requires forall k :: 0 <= k < |rest| ==> rest[k].count <= h.count
    ensures MostFirst([h] + rest)
  {
    var r := [h] + rest;
    forall i, j | 0 <= i < j < |r|
      ensures r[j].count <= r[i].count
    {
      assert r[j] == rest[j - 1];
      if i > 0 { assert r[i] == rest[i - 1]; }
    }
  }

  lemma {:induction false} InsertByCountSorted(sorted: seq<CategorySummary>, x: CategorySummary)
    requires MostFirst(sorted)
    ensures MostFirst(InsertByCount(sorted, x))
  {
    if sorted == [] {
    } else if x.count <= sorted[0].count {
      assert MostFirst(sorted[1..]) by {
        forall i, j | 0 <= i < j < |sorted[1..]|
          ensures sorted[1..][j].count <= sorted[1..][i].count
        {
          assert sorted[1..][i] == sorted[i + 1] && sorted[1..][j] == sorted[j + 1];
        }
      }
      InsertByCountSorted(sorted[1..], x);
      InsertByCountBound(sorted[1..], x, sorted[0].count);
      MostFirstCons(sorted[0], InsertByCount(sorted[1..], x));
    } else {
      MostFirstCons(x, sorted);
    }
  }

  /** The summaries come most numerous first and are a permutation of their input. */
  lemma {:induction false} SortByCountSpec(s: seq<CategorySummary>)
    ensures MostFirst(SortByCount(s))
    ensures multiset(SortByCount(s)) == multiset(s)
  {
    if s != [] {
      var init := s[..|s| - 1];
      SortByCountSpec(init);
      InsertByCountSorted(SortByCount(init), s[|s| - 1]);
      InsertByCountPermutes(SortByCount(init), s[|s| - 1]);
      assert s == init + [s[|s| - 1]];
    }
  }

  /** `get_summary` on a snapshot. */
  function GetSummary(data: seq<Post>): seq<CategorySummary> {
    SortByCount(Summaries(Tally(data)))
  }

  /**
   * The summary has one entry per category of the snapshot, most numerous
   * first; each entry counts that category's records and reports the latest
   * of their dates.
   */
  lemma GetSummarySpec(data: seq<Post>)
    ensures MostFirst(GetSummary(data))
    ensures |GetSummary(data)| == |Names(data)|
    ensures forall s | s in GetSummary(data) ::
      && s.category in Names(data)
      && s.count == |DatesIn(data, s.category)| >= 1
      && s.latestDate == Some(MaxDate(DatesIn(data, s.category)))
    ensures forall c | c in Names(data) :: exists s | s in GetSummary(data) :: s.category == c
  {
    var bs := Tally(data);
    TallySpec(data);
    var sums := Summaries(bs);
    SortByCountSpec(sums);
    assert |GetSummary(data)| == |multiset(sums)|;
    DistinctNamesCount(bs);
    SummaryEntries(data);
    SummaryCovers(data);
  }

  /** Each summary entry names a category of the snapshot with its record count and latest date. */
  lemma SummaryEntries(data: seq<Post>)
    ensures forall s | s in GetSummary(data) ::
      && s.category in Names(data)
      && s.count == |DatesIn(data, s.category)| >= 1
      && s.latestDate == Some(MaxDate(DatesIn(data, s.category)))
  {
    var bs := Tally(data);
    TallySpec(data);
    var sums := Summaries(bs);
    SortByCountSpec(sums);
    forall s | s in GetSummary(data)
      ensures s.category in Names(data) && s.count == |DatesIn(data, s.category)| >= 1
      ensures s.latestDate == Some(MaxDate(DatesIn(data, s.category)))
    {
      assert s in multiset(sums);
      var k :| 0 <= k < |sums| && sums[k] == s;
      assert bs[k] in bs;
      BucketNonEmpty(data, bs[k].category);
    }
  }

  /** Every category of the snapshot has a summary entry. */
  lemma SummaryCovers(data: seq<Post>)
    ensures forall c | c in Names(data) :: exists s | s in GetSummary(data) :: s.category == c
  {
    var bs := Tally(data);
    TallySpec(data);
    var sums := Summaries(bs);
    SortByCountSpec(sums);
    forall c | c in Names(data)
      ensures exists s | s in GetSummary(data) :: s.category == c
    {
      var b :| b in bs && b.category == c;
      var k :| 0 <= k < |bs| && bs[k] == b;
      assert sums[k] in multiset(GetSummary(data));
    }
  }

  /** A category of the snapshot has at least one dated record. */
  lemma {:induction false} BucketNonEmpty(data: seq<Post>, c: string)
    requires c in Names(data)
    ensures |DatesIn(data, c)| >= 1
  {
    var init := data[..|data| - 1];
    var x := data[|data| - 1];
    assert init + [x] == data;
    NamesSnoc(init, x);
    if CategoryOf(x) != c {
      BucketNonEmpty(init, c);
    }
  }

  /** Buckets with distinct categories are as many as their categories. */
  lemma {:induction false} DistinctNamesCount(bs: seq<Bucket>)
    requires forall i, j :: 0 <= i < j < |bs| ==> bs[i].category != bs[j].category
    ensures |BucketNames(bs)| == |bs|
  {
    if bs != [] {
      DistinctTail(bs);
      DistinctNamesCount(bs[1..]);
      BucketNamesCons(bs);
    }
  }

  lemma DistinctTail(bs: seq<Bucket>)
    requires bs != []
    requires forall i, j :: 0 <= i < j < |bs| ==> bs[i].category != bs[j].category
    ensures forall i, j :: 0 <= i < j < |bs[1..]| ==> bs[1..][i].category != bs[1..][j].category
  {
    forall i, j | 0 <= i < j < |bs[1..]| ensures bs[1..][i].category != bs[1..][j].category {
      assert bs[1..][i] == bs[i + 1] && bs[1..][j] == bs[j + 1];
    }
  }

  /** The first bucket adds a category the others do not have. */
  lemma BucketNamesCons(bs: seq<Bucket>)
    requires bs != []
    requires forall i, j :: 0 <= i < j < |bs| ==> bs[i].category != bs[j].category
    ensures BucketNames(bs) == BucketNames(bs[1..]) + {bs[0].category}
    ensures bs[0].category !in BucketNames(bs[1..])
  {
    var rest := bs[1..];
    assert forall b :: b in bs <==> b == bs[0] || b in rest;
    forall b | b in rest ensures b.category != bs[0].category {
      var i :| 0 <= i < |rest| && rest[i] == b;
      assert bs[i + 1] == b;
    }
  }
}
