/**
 * The notice record shared by every crawler and the run-status vocabulary.
 * Field names follow new/models.py; a field that some code paths never set
 * (the dictionaries differ from file to file) is an `Option`, `None` meaning
 * the key is absent.
 */
module Records {
  import opened Wrappers

  datatype Post = Post(
    id: Option<string>,
    category: Option<string>,
    number: string,
    title: string,
    author: string,
    date: string,
    attachments: string,
    views: string,
    url: string,
    content: Option<string>,
    contentHtml: Option<string>,
    imageUrls: Option<seq<string>>,
    crawledAt: Option<string>)

  /** What a detail page contributes to a record. */
  datatype Content = Content(text: string, html: string, images: seq<string>)

  const EmptyContent := Content("", "", [])

  /** The crawl status reported by the service (new/models.py:23). */
  datatype Status = Idle | Running | Completed | Error

  /** `post.get('category', dflt)`. */
  function CategoryOr(p: Post, dflt: string): string {
    p.category.GetOr(dflt)
  }

  /** A record whose `url` is set can be deduplicated and enriched. */
  predicate HasUrl(p: Post) { p.url != "" }

  /** The non-empty URLs of a snapshot. */
  function UrlSet(s: seq<Post>): set<string> {
    set p | p in s && p.url != "" :: p.url
  }

  /** No two records share a non-empty URL. */
  predicate DistinctUrls(s: seq<Post>) {
    forall i, j :: 0 <= i < j < |s| && s[i].url != "" ==> s[i].url != s[j].url
  }

  /** Fill the three content fields, as `crawl_single_url` does to a post dictionary. */
  function WithContent(p: Post, c: Content): (q: Post)
    ensures q.url == p.url && q.number == p.number && q.category == p.category
  {
    p.(content := Some(c.text), contentHtml := Some(c.html), imageUrls := Some(c.images))
  }

  /** Appending to an accumulated list: `(a + b) + c` is `a + (b + c)`. */
  lemma AppendAssoc<T>(a: seq<T>, b: seq<T>, c: seq<T>)
    ensures (a + b) + c == a + (b + c)
  {
  }
}
