/**
 * The announcement messages of the two scheduled crawlers: a configured
 * template whose `{category}` and `{title}` fields are filled from a post.
 */
module Notify {
  import opened Wrappers
  import opened Records
  import Summary

  /**
   * A message template read as text with replacement fields: `{category}`,
   * `{title}`, or any other field (`{date}`, `{0}`, ...), which no caller
   * passes an argument for.
   */
  datatype Piece = Lit(text: string) | CategoryField | TitleField | OtherField

  /** The `notification` section of a crawler's configuration. */
  datatype NotificationConfig = NotificationConfig(enabled: bool, webhookUrl: Option<string>, template: Option<seq<Piece>>)

  /** `send_notifications` formats messages only when enabled and given a non-empty webhook URL. */
  predicate Announces(cfg: NotificationConfig) {
    cfg.enabled && cfg.webhookUrl.GetOr("") != ""
  }

  /**
   * `str.format` raises `KeyError` or `IndexError` on a field it has no
   * argument for: any other field, and `{category}` when only the title is
   * passed.
   */
  predicate Unformattable(template: seq<Piece>, withCategory: bool) {
    OtherField in template || (!withCategory && CategoryField in template)
  }

  /**
   * `message_template.format(category=..., title=...)`; a post without a
   * category reads "Unknown". Only templates that do not raise are formatted,
   * so the other-field case contributes nothing.
   */
  function Format(template: seq<Piece>, p: Post): string {
    if template == [] then ""
    else
      var head := match template[0]
        case Lit(t) => t
        case CategoryField => CategoryOr(p, Summary.UnknownCategory)
        case TitleField => p.title
        case OtherField => "";
      head + Format(template[1..], p)
  }

  /** One message per post, in order. */
  function Messages(template: seq<Piece>, posts: seq<Post>): (r: seq<string>)
    ensures |r| == |posts|
  {
    if posts == [] then [] else [Format(template, posts[0])] + Messages(template, posts[1..])
  }

  /** The k-th message announces the k-th post. */
  lemma {:induction false} MessagesSpec(template: seq<Piece>, posts: seq<Post>)
    ensures forall k :: 0 <= k < |posts| ==> Messages(template, posts)[k] == Format(template, posts[k])
  {
    if posts != [] {
      MessagesSpec(template, posts[1..]);
    }
  }

  /** The loop that formats one message per post. */
  method FormatAll(template: seq<Piece>, posts: seq<Post>) returns (messages: seq<string>)
    ensures messages == Messages(template, posts)
  {
    messages := [];
    for i := 0 to |posts|
      invariant messages + Messages(template, posts[i..]) == Messages(template, posts)
    {
      assert posts[i..][1..] == posts[i + 1..];
      messages := messages + [Format(template, posts[i])];
    }
    assert posts[|posts|..] == [];
  }
}
