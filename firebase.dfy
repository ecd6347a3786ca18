/**
 * new/firebase_service.py: the Firestore sink of the notice service. A
 * notice is stored under an id built from its category, number and a hash;
 * a single save is an upsert, a batch save stages writes and commits them
 * 500 at a time, and reports how many notices succeeded and failed.
 *
 * Firestore is a map from document id to document. What it does that the
 * model cannot see (a call that raises, a commit that is refused, the order a
 * query streams documents in) is passed in.
 */
module Firebase {
  import opened Wrappers
  import opened Text
  import opened Records

  /** Firestore's limit on the writes of one batch, which `save_notices_batch` respects. */
  const MaxBatch := 500
  /** Batch details keep the first 50 characters of a title. */
  const TitleWidth := 50

  /** The stored document: the notice's fields with their defaults, and two timestamps. */
  datatype FireDoc = FireDoc(
    category: string, number: string, title: string, author: string, date: string,
    attachments: string, views: string, url: string, content: string, contentHtml: string,
    imageUrls: seq<string>, crawledAt: string, createdAt: string, updatedAt: string)

  /** `firebase_data`: each key read with `.get(key, default)`, both timestamps taken from the clock. */
  function ToDoc(p: Post, now: string): FireDoc {
    FireDoc(p.category.GetOr(""), p.number, p.title, p.author, p.date, p.attachments, p.views, p.url,
      p.content.GetOr(""), p.contentHtml.GetOr(""), p.imageUrls.GetOr([]), p.crawledAt.GetOr(""), now, now)
  }

  function Abs(x: int): nat {
    if x < 0 then -x else x
  }

  /** The key `_generate_doc_id` hashes: the URL when there is one, else category and number. */
  function HashKey(p: Post): string {
    if p.url != "" then p.url else p.category.GetOr("unknown") + p.number
  }

  /** `_generate_doc_id`: `f"{category}_{number}_{abs(hash(key))}"`, the category defaulting to "unknown". */
  function DocId(p: Post, hash: string -> int): string {
    p.category.GetOr("unknown") + "_" + p.number + "_" + NatToString(Abs(hash(HashKey(p))))
  }

  /**
   * An id starts with the category and the number, each followed by `_`, and
   * ends with the decimal digits of the hash of its key.
   */
  lemma DocIdSpec(p: Post, hash: string -> int)
    ensures var prefix := p.category.GetOr("unknown") + "_" + p.number + "_";
      var id := DocId(p, hash);
      && prefix <= id
      && IsDigits(id[|prefix|..])
      && ParseNat(id[|prefix|..]) == Abs(hash(HashKey(p)))
  {
    var prefix := p.category.GetOr("unknown") + "_" + p.number + "_";
    var digits := NatToString(Abs(hash(HashKey(p))));
    assert DocId(p, hash) == prefix + digits;
    assert (prefix + digits)[|prefix|..] == digits;
    ParseNatToString(Abs(hash(HashKey(p))));
  }

  // ---------------------------------------------------------------------
  // Initialisation

  /** The environment variables `_initialize_firebase` reads, `None` when unset. */
  datatype Env = Env(syncFlag: Option<string>, projectId: Option<string>, privateKey: Option<string>, clientEmail: Option<string>)

  predicate Truthy(v: Option<string>) {
    v.Some? && v.value != ""
  }

  /** `ENABLE_FIREBASE_SYNC`, default "false", lower-cased, must read "true". */
  predicate SyncEnabled(env: Env) {
    Lower(env.syncFlag.GetOr("false")) == "true"
  }

  /** The three required settings are non-empty (replacing `\n` escapes in the key never empties it). */
  predicate Configured(env: Env) {
    Truthy(env.projectId) && Truthy(env.privateKey) && Truthy(env.clientEmail)
  }

  // ---------------------------------------------------------------------
  // Batch saves

  datatype Write = Write(id: string, doc: FireDoc)

  /** One entry of the batch report's `details`. */
  datatype Detail = Pending(docId: string, title: string) | Failed(title: string)

  /** The dictionary `save_notices_batch` returns; `total` is missing when the service is not initialized. */
  datatype Report = Report(success: int, failed: int, total: Option<int>, details: seq<Detail>)

  /**
   * What Firestore does during a batch save: whether staging the i-th
   * notice (its `get`) succeeds, whether the c-th commit succeeds, the clock
   * and Python's `hash`.
   */
  datatype Sink = Sink(stageOk: nat -> bool, commitOk: nat -> bool, now: string, hash: string -> int)

  /**
   * The loop's state: the collection, the staged writes and `batch_count`,
   * `failed_count`, `details`, the number of commits attempted and the sizes
   * of those that succeeded.
   */
  datatype Batch = Batch(store: map<string, FireDoc>, staged: seq<Write>, count: nat, failed: nat,
    details: seq<Detail>, attempts: nat, committed: seq<nat>)

  /** The collection after the writes, in order: the last write to an id wins. */
  function ApplyAll(store: map<string, FireDoc>, ws: seq<Write>): map<string, FireDoc> {
    if ws == [] then store
    else
      var w := ws[|ws| - 1];
      ApplyAll(store, ws[..|ws| - 1])[w.id := w.doc]
  }

  lemma ApplyAllSnoc(store: map<string, FireDoc>, ws: seq<Write>, w: Write)
    ensures ApplyAll(store, ws + [w]) == ApplyAll(store, ws)[w.id := w.doc]
  {
    assert (ws + [w])[..|ws|] == ws;
  }

  /** `notice_data.get('title', 'N/A')[:50]`. */
  function Short(t: string): string {
    if |t| <= TitleWidth then t else t[..TitleWidth]
  }

  /** A commit goes through when Firestore accepts it and it holds at most 500 writes. */
  predicate Commits(b: Batch, sink: Sink) {
    sink.commitOk(b.attempts) && |b.staged| <= MaxBatch
  }

  function Commit(b: Batch): Batch {
    b.(store := ApplyAll(b.store, b.staged), staged := [], count := 0, attempts := b.attempts + 1,
      committed := b.committed + [|b.staged|])
  }

  /**
   * One notice of the loop. A notice whose staging raises is counted failed.
   * Otherwise its write is staged and reported pending; at 500 staged writes
   * the batch is committed and reset, and a commit that raises counts this
   * notice failed and leaves the batch and `batch_count` as they were.
   */
  function Stage(b: Batch, p: Post, i: nat, sink: Sink): Batch {
    var title := Short(p.title);
    if !sink.stageOk(i) then b.(failed := b.failed + 1, details := b.details + [Failed(title)])
    else
      var id := DocId(p, sink.hash);
      var b1 := b.(staged := b.staged + [Write(id, ToDoc(p, sink.now))], count := b.count + 1,
        details := b.details + [Pending(id, title)]);
      if b1.count < MaxBatch then b1
      else if Commits(b1, sink) then Commit(b1)
      else b1.(failed := b1.failed + 1, details := b1.details + [Failed(title)], attempts := b1.attempts + 1)
  }

  /** The loop over the notices, the i-th notice being `ns[i]`. */
  function StageAll(store: map<string, FireDoc>, ns: seq<Post>, sink: Sink): Batch {
    if ns == [] then Batch(store, [], 0, 0, [], 0, [])
    else Stage(StageAll(store, ns[..|ns| - 1], sink), ns[|ns| - 1], |ns| - 1, sink)
  }

  lemma StageAllLast(store: map<string, FireDoc>, ns: seq<Post>, sink: Sink)
    requires ns != []
    ensures StageAll(store, ns, sink) == Stage(StageAll(store, ns[..|ns| - 1], sink), ns[|ns| - 1], |ns| - 1, sink)
  {
  }

  /** The report: a final commit that raises is caught outside the loop and reports every notice failed. */
  function BatchReport(store: map<string, FireDoc>, ns: seq<Post>, sink: Sink): Report {
    var b := StageAll(store, ns, sink);
    if b.count > 0 && !Commits(b, sink) then Report(0, |ns|, Some(|ns|), b.details)
    else Report(|ns| - b.failed, b.failed, Some(|ns|), b.details)
  }

  /** The collection after the batch save, the final commit included when it goes through. */
  function BatchStore(store: map<string, FireDoc>, ns: seq<Post>, sink: Sink): map<string, FireDoc> {
    var b := StageAll(store, ns, sink);
    if b.count > 0 && Commits(b, sink) then Commit(b).store else b.store
  }

  /** `batch_count` is the number of staged writes, and each notice adds at most one failure. */
  lemma {:induction false} StageAllCounts(store: map<string, FireDoc>, ns: seq<Post>, sink: Sink)
    ensures var b := StageAll(store, ns, sink);
      b.count == |b.staged| && b.failed <= |ns|
  {
    if ns != [] {
      StageAllCounts(store, ns[..|ns| - 1], sink);
    }
  }

  /**
   * On every path the report accounts for each notice once: success and
   * failures add up to the total; a final commit that raises reports every
   * notice failed, whatever earlier commits already wrote.
   */
  lemma BatchTotals(store: map<string, FireDoc>, ns: seq<Post>, sink: Sink)
    ensures var r := BatchReport(store, ns, sink);
      && r.total == Some(|ns|)
      && r.success + r.failed == |ns|
      && 0 <= r.success && 0 <= r.failed
    ensures var b := StageAll(store, ns, sink);
      b.count > 0 && !Commits(b, sink) ==> BatchReport(store, ns, sink).success == 0
  {
    StageAllCounts(store, ns, sink);
  }

  /**
   * A commit that raises at 500 staged writes counts the notice that
   * triggered it failed but leaves the batch and `batch_count` as they were,
   * so the next staged notice attempts a commit of 501 writes, over
   * Firestore's limit, and is counted failed too.
   */
  lemma FailedCommitKeepsBatch(b: Batch, p: Post, q: Post, i: nat, sink: Sink)
    requires b.count == |b.staged| == MaxBatch - 1
    requires sink.stageOk(i) && sink.stageOk(i + 1) && !sink.commitOk(b.attempts)
    ensures var b1 := Stage(b, p, i, sink);
      && b1.count == |b1.staged| == MaxBatch && b1.failed == b.failed + 1 && b1.store == b.store
      && b1.details == b.details + [Pending(DocId(p, sink.hash), Short(p.title)), Failed(Short(p.title))]
    ensures var b2 := Stage(Stage(b, p, i, sink), q, i + 1, sink);
      && b2.count == |b2.staged| == MaxBatch + 1 && b2.failed == b.failed + 2
      && b2.store == b.store && b2.committed == b.committed && b2.attempts == b.attempts + 2
  {
  }

  /** The writes of the notices whose staging succeeds, in order. */
  function KeptWrites(ns: seq<Post>, sink: Sink): seq<Write> {
    if ns == [] then []
    else
      var i := |ns| - 1;
      KeptWrites(ns[..i], sink) + KeptWrite(ns[i], i, sink)
  }

  /** The detail each notice leaves when no commit fails. */
  function DetailOf(p: Post, i: nat, sink: Sink): Detail {
    if sink.stageOk(i) then Pending(DocId(p, sink.hash), Short(p.title)) else Failed(Short(p.title))
  }

  /** The details of the notices, one each. */
  function Details(ns: seq<Post>, sink: Sink): (r: seq<Detail>)
    ensures |r| == |ns|
  {
    if ns == [] then [] else Details(ns[..|ns| - 1], sink) + [DetailOf(ns[|ns| - 1], |ns| - 1, sink)]
  }

  lemma {:induction false} DetailsSpec(ns: seq<Post>, sink: Sink)
    ensures forall i :: 0 <= i < |ns| ==> Details(ns, sink)[i] == DetailOf(ns[i], i, sink)
  {
    if ns != [] {
      var init := ns[..|ns| - 1];
      DetailsSpec(init, sink);
      forall i | 0 <= i < |init|
        ensures Details(ns, sink)[i] == DetailOf(ns[i], i, sink)
      {
        assert init[i] == ns[i];
      }
    }
  }

  function SumOf(s: seq<nat>): nat {
    if s == [] then 0 else SumOf(s[..|s| - 1]) + s[|s| - 1]
  }

  lemma SumOfSnoc(s: seq<nat>, x: nat)
    ensures SumOf(s + [x]) == SumOf(s) + x
  {
    assert (s + [x])[..|s|] == s;
  }

  /**
   * The loop's state when every commit so far has succeeded: the batch holds
   * fewer than 500 writes, every commit held exactly 500, and the committed
   * and staged writes together are `kept`, in order.
   */
  predicate Settled(b: Batch, store: map<string, FireDoc>, kept: seq<Write>) {
    && b.count == |b.staged| < MaxBatch
    && (forall k :: 0 <= k < |b.committed| ==> b.committed[k] == MaxBatch)
    && SumOf(b.committed) + b.count == |kept|
    && ApplyAll(b.store, b.staged) == ApplyAll(store, kept)
  }

  /** The write a notice contributes when its staging succeeds. */
  function KeptWrite(p: Post, i: nat, sink: Sink): seq<Write> {
    if sink.stageOk(i) then [Write(DocId(p, sink.hash), ToDoc(p, sink.now))] else []
  }

  lemma StageSettled(b: Batch, p: Post, i: nat, sink: Sink, store: map<string, FireDoc>, kept: seq<Write>)
    requires forall c: nat :: sink.commitOk(c)
    requires Settled(b, store, kept)
    ensures var b' := Stage(b, p, i, sink);
      && Settled(b', store, kept + KeptWrite(p, i, sink))
      && b'.details == b.details + [DetailOf(p, i, sink)]
      && b'.failed == b.failed + (if sink.stageOk(i) then 0 else 1)
  {
    if sink.stageOk(i) {
      var w := Write(DocId(p, sink.hash), ToDoc(p, sink.now));
      ApplyAllSnoc(store, kept, w);
      ApplyAllSnoc(b.store, b.staged, w);
      var b1 := b.(staged := b.staged + [w], count := b.count + 1, details := b.details + [Pending(w.id, Short(p.title))]);
      if b1.count >= MaxBatch {
        assert Commits(b1, sink);
        SumOfSnoc(b.committed, |b1.staged|);
        assert ApplyAll(Commit(b1).store, []) == ApplyAll(b1.store, b1.staged);
      }
    } else {
      assert kept + KeptWrite(p, i, sink) == kept;
    }
  }

  /**
   * When every commit succeeds: each notice leaves one detail, the failures
   * are exactly the notices whose staging raised, every commit holds exactly
   * 500 writes, fewer than 500 stay staged, and committing them yields the
   * collection with every kept write applied in order.
   */
  lemma {:induction false} StageAllCommitted(store: map<string, FireDoc>, ns: seq<Post>, sink: Sink)
    requires forall c: nat :: sink.commitOk(c)
    ensures var b := StageAll(store, ns, sink);
      && b.details == Details(ns, sink)
      && b.failed == |ns| - |KeptWrites(ns, sink)|
      && Settled(b, store, KeptWrites(ns, sink))
  {
    if ns != [] {
      var init := ns[..|ns| - 1];
      var i := |ns| - 1;
      StageAllCommitted(store, init, sink);
      var b := StageAll(store, init, sink);
      assert KeptWrites(ns, sink) == KeptWrites(init, sink) + KeptWrite(ns[i], i, sink);
      StageAllLast(store, ns, sink);
      StageSettled(b, ns[i], i, sink, store, KeptWrites(init, sink));
    }
  }

  /** When every commit succeeds the batch save writes every kept notice and reports only staging failures. */
  lemma BatchCommitted(store: map<string, FireDoc>, ns: seq<Post>, sink: Sink)
    requires forall c: nat :: sink.commitOk(c)
    ensures BatchStore(store, ns, sink) == ApplyAll(store, KeptWrites(ns, sink))
    ensures BatchReport(store, ns, sink).success == |KeptWrites(ns, sink)|
    ensures BatchReport(store, ns, sink).failed == |ns| - |KeptWrites(ns, sink)|
    ensures forall k :: 0 <= k < |StageAll(store, ns, sink).committed| ==> StageAll(store, ns, sink).committed[k] == MaxBatch
    ensures BatchReport(store, ns, sink).details == Details(ns, sink)
  {
    StageAllCommitted(store, ns, sink);
    var b := StageAll(store, ns, sink);
    if b.count > 0 {
      assert Commits(b, sink);
    } else {
      assert b.staged == [];
    }
  }

  // ---------------------------------------------------------------------
  // Search

  datatype StoredDoc = StoredDoc(id: string, doc: FireDoc)

  /** The query text appears, ignoring case, in the title or the content. */
  predicate DocMatches(d: FireDoc, query: string) {
    Contains(Lower(d.title), Lower(query)) || Contains(Lower(d.content), Lower(query))
  }

  function InCategory(stream: seq<StoredDoc>, c: string): seq<StoredDoc> {
    if stream == [] then []
    else (if stream[0].doc.category == c then [stream[0]] else []) + InCategory(stream[1..], c)
  }

  function MatchingDocs(stream: seq<StoredDoc>, query: string): seq<StoredDoc> {
    if stream == [] then []
    else (if DocMatches(stream[0].doc, query) then [stream[0]] else []) + MatchingDocs(stream[1..], query)
  }

  lemma {:induction false} MatchingDocsAppend(a: seq<StoredDoc>, b: seq<StoredDoc>, query: string)
    ensures MatchingDocs(a + b, query) == MatchingDocs(a, query) + MatchingDocs(b, query)
  {
    if a != [] {
      assert (a + b)[0] == a[0] && (a + b)[1..] == a[1..] + b;
      MatchingDocsAppend(a[1..], b, query);
      var head := if DocMatches(a[0].doc, query) then [a[0]] else [];
      AppendAssoc(head, MatchingDocs(a[1..], query), MatchingDocs(b, query));
    } else {
      assert a + b == b;
    }
  }

  /** One more document: the matches among the first `i + 1` extend those among the first `i`. */
  lemma MatchingDocsStep(docs: seq<StoredDoc>, i: nat, query: string)
    requires i < |docs|
    ensures MatchingDocs(docs[..i + 1], query)
      == MatchingDocs(docs[..i], query) + if DocMatches(docs[i].doc, query) then [docs[i]] else []
  {
    assert docs[..i + 1] == docs[..i] + [docs[i]];
    MatchingDocsAppend(docs[..i], [docs[i]], query);
    assert [docs[i]][1..] == [];
  }

  /** The documents Firestore streams: the category's when one is given, cut to `limit` when it is not 0. */
  function Window(stream: seq<StoredDoc>, category: Option<string>, limit: nat): seq<StoredDoc> {
    var inCat := if Truthy(category) then InCategory(stream, category.value) else stream;
    if limit != 0 && limit < |inCat| then inCat[..limit] else inCat
  }

  /** `search_notices`: the window first, then the text filter. */
  function Search(stream: seq<StoredDoc>, query: string, category: Option<string>, limit: nat): seq<StoredDoc> {
    MatchingDocs(Window(stream, category, limit), query)
  }

  lemma {:induction false} InCategoryMembers(stream: seq<StoredDoc>, c: string)
    ensures forall d :: d in InCategory(stream, c) <==> d in stream && d.doc.category == c
  {
    if stream != [] {
      InCategoryMembers(stream[1..], c);
    }
  }

  lemma {:induction false} MatchingDocsMembers(stream: seq<StoredDoc>, query: string)
    ensures forall d :: d in MatchingDocs(stream, query) <==> d in stream && DocMatches(d.doc, query)
    ensures |MatchingDocs(stream, query)| <= |stream|
  {
    if stream != [] {
      MatchingDocsMembers(stream[1..], query);
    }
  }

  /**
   * A result is a streamed document of the category that matches the query,
   * and there are at most `limit` of them: the limit applies before the text
   * filter, so a matching document past the limit is never found.
   */
  lemma SearchSpec(stream: seq<StoredDoc>, query: string, category: Option<string>, limit: nat)
    ensures var r := Search(stream, query, category, limit);
      && (forall d :: d in r <==> d in Window(stream, category, limit) && DocMatches(d.doc, query))
      && (forall d | d in r :: d in stream && (Truthy(category) ==> d.doc.category == category.value))
      && (limit != 0 ==> |r| <= limit)
  {
    MatchingDocsMembers(Window(stream, category, limit), query);
    if Truthy(category) {
      InCategoryMembers(stream, category.value);
    }
    var inCat := if Truthy(category) then InCategory(stream, category.value) else stream;
    forall d | d in Window(stream, category, limit)
      ensures d in inCat
    {
      if limit != 0 && limit < |inCat| {
        var k :| 0 <= k < limit && inCat[..limit][k] == d;
        assert inCat[k] == d;
      }
    }
  }

  /** `stream` is the collection `store`, streamed in some order: every saved document once, as saved. */
  predicate StreamOf(stream: seq<StoredDoc>, store: map<string, FireDoc>) {
    && (forall i, j :: 0 <= i < j < |stream| ==> stream[i].id != stream[j].id)
    && (forall d | d in stream :: d.id in store && store[d.id] == d.doc)
    && (forall id | id in store :: exists k :: 0 <= k < |stream| && stream[k].id == id)
  }

  /**
   * Searching the streamed collection finds only saved documents; with no
   * category and no limit it finds every saved document the query matches.
   */
  lemma SearchSaved(stream: seq<StoredDoc>, store: map<string, FireDoc>, query: string, category: Option<string>, limit: nat)
    requires StreamOf(stream, store)
    ensures forall d | d in Search(stream, query, category, limit) :: d.id in store && store[d.id] == d.doc
    ensures !Truthy(category) && limit == 0 ==>
      forall id | id in store && DocMatches(store[id], query) :: StoredDoc(id, store[id]) in Search(stream, query, category, limit)
  {
    SearchSpec(stream, query, category, limit);
    if !Truthy(category) && limit == 0 {
      assert Window(stream, category, limit) == stream;
      forall id | id in store && DocMatches(store[id], query)
        ensures StoredDoc(id, store[id]) in Search(stream, query, category, limit)
      {
        var k :| 0 <= k < |stream| && stream[k].id == id;
        assert stream[k] in stream;
        assert stream[k] == StoredDoc(id, store[id]);
      }
    }
  }

  // ---------------------------------------------------------------------
  // The service

  /** How `save_notice` wrote: `set` on a new id, `update` on an existing one. */
  datatype WriteKind = Created(id: string) | Updated(id: string)

  class FirebaseService {
    var initialized: bool
    /** The Firestore collection. */
    var store: map<string, FireDoc>
    /** The writes `save_notice` made, in order. */
    ghost var writes: seq<WriteKind>

    /**
     * `_initialize_firebase`: initialized only when sync is enabled, the
     * required settings are present and the Firebase app starts.
     */
    constructor(env: Env, appStarts: bool, collection: map<string, FireDoc>)
      ensures initialized == (SyncEnabled(env) && Configured(env) && appStarts)
      ensures store == collection && writes == []
    {
      var ready := false;
      if SyncEnabled(env) && Configured(env) {
        ready := appStarts;
      }
      initialized := ready;
      store := collection;
      writes := [];
    }

    /**
     * `save_notice`: nothing without initialisation or when Firestore raises;
     * otherwise the document is updated when its id exists and created when it
     * does not, and the id is returned.
     */
    method SaveNotice(p: Post, now: string, hash: string -> int, reachable: bool) returns (r: Option<string>)
      modifies this
      ensures initialized == old(initialized)
      ensures r == (if initialized && reachable then Some(DocId(p, hash)) else None)
      ensures r.Some? ==> store == old(store)[r.value := ToDoc(p, now)]
      ensures r.Some? ==> writes == old(writes) + [if r.value in old(store) then Updated(r.value) else Created(r.value)]
      ensures r.None? ==> store == old(store) && writes == old(writes)
    {
      if !initialized || !reachable {
        return None;
      }
      var docId := DocId(p, hash);
      var doc := ToDoc(p, now);
      if docId in store {
        store := store[docId := doc.(updatedAt := now)];
        writes := writes + [Updated(docId)];
      } else {
        store := store[docId := doc];
        writes := writes + [Created(docId)];
      }
      return Some(docId);
    }

    /** `save_notices_batch`. */
    method SaveNoticesBatch(notices: seq<Post>, sink: Sink) returns (r: Report)
      modifies this
      ensures initialized == old(initialized) && writes == old(writes)
      ensures !initialized ==> r == Report(0, |notices|, None, []) && store == old(store)
      ensures initialized ==> r == BatchReport(old(store), notices, sink) && store == BatchStore(old(store), notices, sink)
    {
      if !initialized {
        return Report(0, |notices|, None, []);
      }
      ghost var start := store;
      var staged: seq<Write> := [];
      var batchCount := 0;
      var failedCount := 0;
      var details: seq<Detail> := [];
      var attempts := 0;
      ghost var committed: seq<nat> := [];
      for i := 0 to |notices|
        invariant Batch(store, staged, batchCount, failedCount, details, attempts, committed) == StageAll(start, notices[..i], sink)
        invariant initialized && writes == old(writes)
      {
        assert notices[..i + 1][..i] == notices[..i];
        StageAllLast(start, notices[..i + 1], sink);
        var p := notices[i];
        var title := Short(p.title);
        if !sink.stageOk(i) {
          failedCount := failedCount + 1;
          details := details + [Failed(title)];
        } else {
          var docId := DocId(p, sink.hash);
          staged := staged + [Write(docId, ToDoc(p, sink.now))];
          batchCount := batchCount + 1;
          details := details + [Pending(docId, title)];
          if batchCount >= MaxBatch {
            if sink.commitOk(attempts) && |staged| <= MaxBatch {
              CommitWrites(staged);
              committed := committed + [|staged|];
              staged := [];
              batchCount := 0;
            } else {
              failedCount := failedCount + 1;
              details := details + [Failed(title)];
            }
            attempts := attempts + 1;
          }
        }
      }
      assert notices[..|notices|] == notices;
      if batchCount > 0 {
        if !(sink.commitOk(attempts) && |staged| <= MaxBatch) {
          return Report(0, |notices|, Some(|notices|), details);
        }
        CommitWrites(staged);
      }
      return Report(|notices| - failedCount, failedCount, Some(|notices|), details);
    }

    /** `batch.commit()`: the staged writes reach the collection in order. */
    method CommitWrites(ws: seq<Write>)
      modifies this
      ensures store == ApplyAll(old(store), ws)
      ensures initialized == old(initialized) && writes == old(writes)
    {
      ghost var start := store;
      for i := 0 to |ws|
        invariant store == ApplyAll(start, ws[..i])
        invariant initialized == old(initialized) && writes == old(writes)
      {
        ApplyAllSnoc(start, ws[..i], ws[i]);
        assert ws[..i + 1] == ws[..i] + [ws[i]];
        store := store[ws[i].id := ws[i].doc];
      }
      assert ws[..|ws|] == ws;
    }

    /**
     * `search_notices` over the collection as the query streams it; nothing
     * without initialisation or when Firestore raises.
     */
    method SearchNotices(stream: seq<StoredDoc>, query: string, category: Option<string>, limit: nat, reachable: bool)
      returns (results: seq<StoredDoc>)
      requires StreamOf(stream, store)
      ensures results == if initialized && reachable then Search(stream, query, category, limit) else []
      ensures forall d | d in results :: d.id in store && store[d.id] == d.doc
      ensures initialized && reachable && !Truthy(category) && limit == 0 ==>
        forall id | id in store && DocMatches(store[id], query) :: StoredDoc(id, store[id]) in results
    {
      SearchSaved(stream, store, query, category, limit);
      results := [];
      if !initialized || !reachable {
        return;
      }
      var docs := Window(stream, category, limit);
      for i := 0 to |docs|
        invariant results == MatchingDocs(docs[..i], query)
      {
        MatchingDocsStep(docs, i, query);
        if DocMatches(docs[i].doc, query) {
          results := results + [docs[i]];
        }
      }
      assert docs[..|docs|] == docs;
    }

    /** `test_connection`: false without initialisation, otherwise whether the probe query succeeds. */
    method TestConnection(reachable: bool) returns (ok: bool)
      ensures ok == (initialized && reachable)
      ensures !initialized ==> !ok
    {
      if !initialized {
        return false;
      }
      return reachable;
    }
  }
}
