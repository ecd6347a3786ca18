/**
 * The incremental part of the crawl: which crawled records are new with
 * respect to the stored snapshot, and how they are merged into it.
 */
module Delta {
  import opened Wrappers
  import opened Records

  /** A crawled record is new when its URL is set and absent from the snapshot's URLs. */
  predicate IsNew(known: set<string>, p: Post) {
    p.url != "" && p.url !in known
  }

  /**
   * `find_new_posts` (new/crawler_service.py, multi_url_scheduled_crawler.py):
   * the crawled records that are new, in crawl order, duplicates included.
   */
  function NewPosts(existing: seq<Post>, current: seq<Post>): seq<Post> {
    Select(UrlSet(existing), current)
  }

  function Select(known: set<string>, current: seq<Post>): seq<Post> {
    if current == [] then []
    else (if IsNew(known, current[0]) then [current[0]] else []) + Select(known, current[1..])
  }

  /** The loop of `find_new_posts`: the snapshot's URL set, then one pass over the crawl. */
  method FindNewPosts(existing: seq<Post>, current: seq<Post>) returns (newPosts: seq<Post>)
    ensures newPosts == NewPosts(existing, current)
  {
    var existingUrls := UrlSet(existing);
    newPosts := [];
    for i := 0 to |current|
      invariant newPosts + Select(existingUrls, current[i..]) == Select(existingUrls, current)
    {
      assert current[i..][1..] == current[i + 1..];
      if current[i].url != "" && current[i].url !in existingUrls {
        newPosts := newPosts + [current[i]];
      }
    }
    assert current[|current|..] == [];
  }

  /** A record is selected exactly when it was crawled and is new. */
  lemma {:induction false} SelectMembers(known: set<string>, current: seq<Post>)
    ensures forall p :: p in Select(known, current) <==> p in current && IsNew(known, p)
  {
    if current != [] {
      SelectMembers(known, current[1..]);
      assert forall p :: p in current <==> p == current[0] || p in current[1..];
    }
  }

  /** Selecting from a concatenation selects from each part: the delta keeps crawl order. */
  lemma {:induction false} SelectAppend(known: set<string>, a: seq<Post>, b: seq<Post>)
    ensures Select(known, a + b) == Select(known, a) + Select(known, b)
  {
    if a == [] {
      assert a + b == b;
    } else {
      assert (a + b)[0] == a[0] && (a + b)[1..] == a[1..] + b;
      SelectAppend(known, a[1..], b);
      AppendAssoc(if IsNew(known, a[0]) then [a[0]] else [], Select(known, a[1..]), Select(known, b));
    }
  }

  /** A new record crawled `n` times is in the delta `n` times: there is no deduplication within a batch. */
  lemma {:induction false} SelectMultiplicity(known: set<string>, current: seq<Post>, p: Post)
    ensures multiset(Select(known, current))[p] == if IsNew(known, p) then multiset(current)[p] else 0
  {
    if current != [] {
      SelectMultiplicity(known, current[1..], p);
      assert current == [current[0]] + current[1..];
      assert multiset(current) == multiset{current[0]} + multiset(current[1..]);
    }
  }

  /** The delta never holds a record without URL or with a URL already stored. */
  lemma NewPostsSpec(existing: seq<Post>, current: seq<Post>)
    ensures forall p | p in NewPosts(existing, current) :: p in current && p.url != "" && p.url !in UrlSet(existing)
    ensures forall p | p in current && p.url != "" && p.url !in UrlSet(existing) :: p in NewPosts(existing, current)
  {
    SelectMembers(UrlSet(existing), current);
  }

  /** The snapshot after a merge: `new_posts + existing_data`. */
  function Merge(delta: seq<Post>, existing: seq<Post>): (r: seq<Post>)
    ensures |r| == |delta| + |existing|
    ensures r[..|delta|] == delta
    ensures r[|delta|..] == existing
  {
    delta + existing
  }

  lemma UrlSetAppend(a: seq<Post>, b: seq<Post>)
    ensures UrlSet(a + b) == UrlSet(a) + UrlSet(b)
  {
    assert forall p :: p in a + b <==> p in a || p in b;
  }

  /** A second crawl that sees the same records after the merge finds nothing new. */
  lemma SecondRunFindsNothing(existing: seq<Post>, current: seq<Post>)
    ensures NewPosts(Merge(NewPosts(existing, current), existing), current) == []
  {
    var delta := NewPosts(existing, current);
    var merged := Merge(delta, existing);
    NewPostsSpec(existing, current);
    UrlSetAppend(delta, existing);
    forall p | p in current && p.url != ""
      ensures p.url in UrlSet(merged)
    {
      if p.url !in UrlSet(existing) {
        assert p in delta;
        assert p.url in UrlSet(delta);
      }
    }
    SelectNone(UrlSet(merged), current);
  }

  /** Nothing is selected when every crawled URL is empty or already known. */
  lemma {:induction false} SelectNone(known: set<string>, current: seq<Post>)
    requires forall p | p in current && p.url != "" :: p.url in known
    ensures Select(known, current) == []
  {
    if current != [] {
      assert current[0] in current;
      forall p | p in current[1..] ensures p in current { }
      SelectNone(known, current[1..]);
    }
  }

  /** The new records' URLs are pairwise distinct when the crawled ones are. */
  lemma {:induction false} SelectDistinct(known: set<string>, current: seq<Post>)
    requires DistinctUrls(current)
    ensures DistinctUrls(Select(known, current))
  {
    if current != [] {
      assert DistinctUrls(current[1..]) by {
        forall i, j | 0 <= i < j < |current[1..]| && current[1..][i].url != ""
          ensures current[1..][i].url != current[1..][j].url
        {
          assert current[1..][i] == current[i + 1] && current[1..][j] == current[j + 1];
        }
      }
      SelectDistinct(known, current[1..]);
      var rest := Select(known, current[1..]);
      SelectMembers(known, current[1..]);
      if IsNew(known, current[0]) {
        var s := [current[0]] + rest;
        forall i, j | 0 <= i < j < |s| && s[i].url != ""
          ensures s[i].url != s[j].url
        {
          if i == 0 {
            assert s[j] in current[1..];
            var k :| 0 <= k < |current[1..]| && current[1..][k] == s[j];
            assert current[k + 1] == s[j];
          } else {
            assert s[i] == rest[i - 1] && s[j] == rest[j - 1];
          }
        }
      }
    }
  }

  /**
   * If the snapshot and the crawl each have pairwise-distinct URLs, so does the
   * merged snapshot: a new record's URL is neither stored nor repeated.
   */
  lemma MergeDistinct(existing: seq<Post>, current: seq<Post>)
    requires DistinctUrls(existing) && DistinctUrls(current)
    ensures DistinctUrls(Merge(NewPosts(existing, current), existing))
  {
    var delta := NewPosts(existing, current);
    SelectDistinct(UrlSet(existing), current);
    NewPostsSpec(existing, current);
    DistinctConcat(delta, existing);
  }

  /** Two sequences with distinct URLs and no URL in common concatenate to one with distinct URLs. */
  lemma DistinctConcat(a: seq<Post>, b: seq<Post>)
    requires DistinctUrls(a) && DistinctUrls(b)
    requires forall p | p in a :: p.url !in UrlSet(b)
    ensures DistinctUrls(a + b)
  {
    var s := a + b;
    forall i, j | 0 <= i < j < |s| && s[i].url != ""
      ensures s[i].url != s[j].url
    {
      if j < |a| {
        assert s[i] == a[i] && s[j] == a[j];
      } else if i >= |a| {
        assert s[i] == b[i - |a|] && s[j] == b[j - |a|];
      } else {
        assert s[i] in a && s[j] in b;
        assert s[i].url !in UrlSet(b);
        if s[j].url != "" {
          assert s[j].url in UrlSet(b);
        }
      }
    }
  }

  /** Without distinct crawled URLs the merge can repeat a URL: the same new record crawled twice is stored twice. */
  lemma MergeRepeatsDuplicates(p: Post)
    requires p.url != ""
    ensures NewPosts([], [p, p]) == [p, p]
    ensures !DistinctUrls(Merge(NewPosts([], [p, p]), []))
  {
    var known := UrlSet([]);
    assert known == {};
    assert [p, p][1..] == [p];
    assert [p][1..] == [];
    assert Select(known, [p]) == [p] + Select(known, []);
    assert Select(known, [p, p]) == [p] + Select(known, [p]);
    var m := Merge(NewPosts([], [p, p]), []);
    assert m == [p, p];
    assert m[0].url == m[1].url;
  }

  // ---------------------------------------------------------------------
  // scheduled_crawler.py: the set of seen URLs grows while the run accepts records

  /**
   * The records accepted from `posts` when `seen` holds the URLs seen so far:
   * a record is accepted when its URL is set and unseen, and its URL is then seen.
   */
  function Accept(seen: set<string>, posts: seq<Post>): seq<Post>
    decreases |posts|
  {
    if posts == [] then []
    else if IsNew(seen, posts[0]) then [posts[0]] + Accept(seen + {posts[0].url}, posts[1..])
    else Accept(seen, posts[1..])
  }

  /** One step of a run: the first record is accepted when new, its URL then seen. */
  lemma AcceptCons(seen: set<string>, p: Post, rest: seq<Post>)
    ensures Accept(seen, [p] + rest) == if IsNew(seen, p) then [p] + Accept(seen + {p.url}, rest) else Accept(seen, rest)
  {
    assert ([p] + rest)[1..] == rest;
  }

  /** The URLs seen after a run over `posts`: the accepted records' URLs join `seen`. */
  function SeenAfter(seen: set<string>, posts: seq<Post>): set<string> {
    seen + UrlSet(Accept(seen, posts))
  }

  /** A run over `a + b` accepts from `a`, then from `b` with what `a` added to the seen set. */
  lemma {:induction false} AcceptAppend(seen: set<string>, a: seq<Post>, b: seq<Post>)
    ensures Accept(seen, a + b) == Accept(seen, a) + Accept(SeenAfter(seen, a), b)
    decreases |a|
  {
    if a == [] {
      assert a + b == b;
      assert UrlSet(Accept(seen, a)) == {};
      assert SeenAfter(seen, a) == seen;
    } else {
      assert (a + b)[1..] == a[1..] + b;
      var p0 := a[0];
      if IsNew(seen, p0) {
        var seen' := seen + {p0.url};
        AcceptAppend(seen', a[1..], b);
        var rest := Accept(seen', a[1..]);
        UrlSetAppend([p0], rest);
        assert UrlSet([p0]) == {p0.url};
        assert SeenAfter(seen, a) == SeenAfter(seen', a[1..]);
        assert Accept(seen, a + b) == [p0] + Accept(seen', a[1..] + b);
        AppendAssoc([p0], rest, Accept(SeenAfter(seen', a[1..]), b));
      } else {
        AcceptAppend(seen, a[1..], b);
        assert Accept(seen, a + b) == Accept(seen, a[1..] + b);
      }
    }
  }

  /** Accepted records were crawled and are new with respect to the URLs seen before. */
  lemma {:induction false} AcceptMembers(seen: set<string>, posts: seq<Post>)
    ensures forall p | p in Accept(seen, posts) :: p in posts && IsNew(seen, p)
    decreases |posts|
  {
    if posts != [] {
      var p0 := posts[0];
      var seen' := if IsNew(seen, p0) then seen + {p0.url} else seen;
      AcceptMembers(seen', posts[1..]);
      assert forall p | p in posts[1..] :: p in posts;
    }
  }

  /** Accepted records have pairwise-distinct URLs. */
  lemma {:induction false} AcceptDistinct(seen: set<string>, posts: seq<Post>)
    ensures DistinctUrls(Accept(seen, posts))
    decreases |posts|
  {
    if posts != [] {
      var p0 := posts[0];
      if IsNew(seen, p0) {
        var seen' := seen + {p0.url};
        AcceptDistinct(seen', posts[1..]);
        AcceptMembers(seen', posts[1..]);
        var rest := Accept(seen', posts[1..]);
        var acc := [p0] + rest;
        forall i, j | 0 <= i < j < |acc| && acc[i].url != ""
          ensures acc[i].url != acc[j].url
        {
          if i == 0 {
            assert acc[j] in rest;
          } else {
            assert acc[i] == rest[i - 1] && acc[j] == rest[j - 1];
          }
        }
      } else {
        AcceptDistinct(seen, posts[1..]);
      }
    }
  }

  /** Every crawled record with a set URL not seen before has its URL accepted, on its first occurrence. */
  lemma {:induction false} AcceptComplete(seen: set<string>, posts: seq<Post>)
    ensures forall p | p in posts && IsNew(seen, p) :: p.url in UrlSet(Accept(seen, posts))
    decreases |posts|
  {
    if posts != [] {
      var p0 := posts[0];
      var seen' := if IsNew(seen, p0) then seen + {p0.url} else seen;
      AcceptComplete(seen', posts[1..]);
      var acc := Accept(seen, posts);
      forall p | p in posts && IsNew(seen, p)
        ensures p.url in UrlSet(acc)
      {
        if IsNew(seen, p0) {
          assert acc == [p0] + Accept(seen', posts[1..]);
          if p.url != p0.url {
            assert p in posts[1..];
            assert p.url in UrlSet(Accept(seen', posts[1..]));
          } else {
            assert p0 in acc;
          }
        } else {
          assert p != p0;
          assert p in posts[1..];
        }
      }
    }
  }

  /** When the crawled URLs are already distinct, the growing set changes nothing: acceptance is `find_new_posts`. */
  lemma {:induction false} AcceptDistinctIsSelect(seen: set<string>, posts: seq<Post>)
    requires DistinctUrls(posts)
    ensures Accept(seen, posts) == Select(seen, posts)
    decreases |posts|
  {
    if posts != [] {
      var p0 := posts[0];
      var rest := posts[1..];
      assert DistinctUrls(rest) by {
        forall i, j | 0 <= i < j < |rest| && rest[i].url != ""
          ensures rest[i].url != rest[j].url
        {
          assert rest[i] == posts[i + 1] && rest[j] == posts[j + 1];
        }
      }
      if IsNew(seen, p0) {
        forall p | p in rest
          ensures p.url != p0.url
        {
          var k :| 0 <= k < |rest| && rest[k] == p;
          assert posts[k + 1] == p;
        }
        AcceptDistinctIsSelect(seen + {p0.url}, rest);
        SelectIgnoresAbsent(seen, p0.url, rest);
      } else {
        AcceptDistinctIsSelect(seen, rest);
      }
    }
  }

  /** Adding to the known set a URL that no record carries does not change the selection. */
  lemma {:induction false} SelectIgnoresAbsent(known: set<string>, u: string, posts: seq<Post>)
    requires forall p | p in posts :: p.url != u
    ensures Select(known + {u}, posts) == Select(known, posts)
  {
    if posts != [] {
      assert forall p | p in posts[1..] :: p in posts;
      SelectIgnoresAbsent(known, u, posts[1..]);
    }
  }

  /** The same URL crawled twice is accepted once: the scheduled crawler does deduplicate within a run. */
  lemma AcceptDeduplicates(p: Post)
    requires p.url != ""
    ensures Accept({}, [p, p]) == [p]
  {
    assert [p, p][1..] == [p];
    assert [p][1..] == [];
    assert Accept({p.url}, [p]) == Accept({p.url}, []);
    var none: set<string> := {};
    assert none + {p.url} == {p.url};
  }
}
