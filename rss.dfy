/** `FetchFeed` from internal/rss/rss.go: the document decoded from a feed
    URL, and the pass that HTML-unescapes its text fields in place. The
    request, the transport, the body read and `xml.Unmarshal` are one input
    (`fetched`); `html.UnescapeString` is the parameter `unescape`. */
module Rss {
  import opened Common

  /** An `<item>`; a missing `<description>` or `<pubDate>` decodes to a nil
      pointer, here `None`. */
  datatype RssItem = RssItem(title: string, link: string, description: Option<string>, pubDate: Option<string>)

  /** A decoded `<channel>`. */
  datatype Channel = Channel(title: string, link: string, description: string, items: seq<RssItem>)

  const EmptyChannel := Channel("", "", "", [])

  ghost predicate Described(items: seq<RssItem>) {
    forall i :: 0 <= i < |items| ==> items[i].description.Some?
  }

  /** The position of the first item without a description: where the
      unescaping pass dereferences a nil pointer. */
  function FirstUndescribed(items: seq<RssItem>): (r: Option<nat>)
    ensures r.None? <==> Described(items)
    ensures r.Some? ==> r.value < |items| && items[r.value].description.None? && Described(items[..r.value])
  {
    if items == [] then None
    else if items[0].description.None? then Some(0)
    else match FirstUndescribed(items[1..])
      case None => None
      case Some(k) =>
        assert items[..k + 1] == [items[0]] + items[1..][..k];
        Some(k + 1)
  }

  /** An item without a description after described ones is the first. */
  lemma {:induction false} FirstUndescribedAt(items: seq<RssItem>, k: nat)
    requires k < |items| && Described(items[..k]) && items[k].description.None?
    ensures FirstUndescribed(items) == Some(k)
  {
    if k > 0 {
      assert items[..k][0] == items[0];
      assert items[1..][..k - 1] == items[..k][1..];
      FirstUndescribedAt(items[1..], k - 1);
    }
  }

  /** One item after the pass: title and description unescaped. */
  function UnescapeItem(it: RssItem, unescape: string -> string): (r: RssItem)
    requires it.description.Some?
  {
    it.(title := unescape(it.title), description := Some(unescape(it.description.value)))
  }

  function UnescapeItems(items: seq<RssItem>, unescape: string -> string): (r: seq<RssItem>)
    requires Described(items)
  {
    if items == [] then [] else [UnescapeItem(items[0], unescape)] + UnescapeItems(items[1..], unescape)
  }

  /** The pass keeps the number and the order of the items, copies link and
      publication date, and unescapes title and description. */
  lemma {:induction false} UnescapeItemsAt(items: seq<RssItem>, unescape: string -> string, k: nat)
    requires Described(items) && k < |items|
    ensures |UnescapeItems(items, unescape)| == |items|
    ensures UnescapeItems(items, unescape)[k] == UnescapeItem(items[k], unescape)
    ensures UnescapeItems(items, unescape)[k].link == items[k].link
    ensures UnescapeItems(items, unescape)[k].pubDate == items[k].pubDate
    ensures UnescapeItems(items, unescape)[k].title == unescape(items[k].title)
    ensures UnescapeItems(items, unescape)[k].description == Some(unescape(items[k].description.value))
  {
    if k > 0 {
      UnescapeItemsAt(items[1..], unescape, k - 1);
    } else if |items| > 1 {
      UnescapeItemsAt(items[1..], unescape, 0);
    }
  }

  /** After the pass every item has a description: the nil test the
      ingestion loop makes on descriptions never sees a nil coming from
      here. */
  lemma UnescapedDescribed(items: seq<RssItem>, unescape: string -> string)
    requires Described(items)
    ensures Described(UnescapeItems(items, unescape))
  {
  }

  /** The channel after a pass that reaches its end. */
  function Normalized(c: Channel, unescape: string -> string): (r: Channel)
    requires Described(c.items)
  {
    Channel(unescape(c.title), c.link, unescape(c.description), UnescapeItems(c.items, unescape))
  }

  /** `RSSFeed`: the decoded document, updated in place. */
  class RssFeed {
    var title: string
    var link: string
    var description: string
    var item: array<RssItem>

    /** `&RSSFeed{}`. */
    constructor Empty()
      ensures Value() == EmptyChannel && fresh(item)
    {
      title, link, description := "", "", "";
      item := new RssItem[0];
    }

    /** The document as `xml.Unmarshal` fills it. */
    constructor Decoded(c: Channel)
      ensures Value() == c && fresh(item)
    {
      title, link, description := c.title, c.link, c.description;
      item := new RssItem[|c.items|](i requires 0 <= i < |c.items| => c.items[i]);
    }

    ghost function Value(): (r: Channel)
      reads this, item
    {
      Channel(title, link, description, item[..])
    }

    /** The unescaping pass (rss.go lines 52-58): the channel's title and
        description, then the items. It stops at the first item without a
        description, after unescaping that item's title, and reports its
        position: the point where Go dereferences nil. */
    method Unescape(unescape: string -> string) returns (nilAt: Option<nat>)
      modifies this, item
      ensures item == old(item)
      ensures title == unescape(old(title)) && description == unescape(old(description)) && link == old(link)
      ensures nilAt == FirstUndescribed(old(item[..]))
      ensures nilAt.None? ==> item[..] == UnescapeItems(old(item[..]), unescape)
      ensures nilAt.Some? ==>
        var k := nilAt.value;
        && item[..k] == UnescapeItems(old(item[..k]), unescape)
        && item[k] == old(item[k]).(title := unescape(old(item[k].title)))
        && item[k + 1..] == old(item[k + 1..])
    {
      title := unescape(title);
      description := unescape(description);
      nilAt := UnescapeItemArray(item, unescape);
    }
  }

  /** The loop over the items (rss.go lines 54-57), in place on the item
      array. */
  method UnescapeItemArray(a: array<RssItem>, unescape: string -> string) returns (nilAt: Option<nat>)
    modifies a
    ensures nilAt == FirstUndescribed(old(a[..]))
    ensures nilAt.None? ==> a[..] == UnescapeItems(old(a[..]), unescape)
    ensures nilAt.Some? ==>
      var k := nilAt.value;
      && a[..k] == UnescapeItems(old(a[..k]), unescape)
      && a[k] == old(a[k]).(title := unescape(old(a[k].title)))
      && a[k + 1..] == old(a[k + 1..])
  {
    ghost var before := a[..];
    var i := 0;
    while i < a.Length
      invariant 0 <= i <= a.Length == |before|
      invariant Described(before[..i])
      invariant forall j :: 0 <= j < i ==> a[j] == UnescapeItem(before[j], unescape)
      invariant forall j :: i <= j < a.Length ==> a[j] == before[j]
    {
      var it := a[i];
      if it.description.None? {
        a[i] := it.(title := unescape(it.title));
        PrefixIsUnescaped(before, a[..], i, unescape);
        FirstUndescribedAt(before, i);
        assert a[i + 1..] == before[i + 1..];
        return Some(i);
      }
      a[i] := UnescapeItem(it, unescape);
      assert before[..i + 1] == before[..i] + [before[i]];
      i := i + 1;
    }
    assert before[..i] == before;
    PrefixIsUnescaped(before, a[..], i, unescape);
    assert a[..i] == a[..];
    nilAt := None;
  }

  /** A prefix whose items each went through the pass is the pass applied
      to that prefix. */
  lemma PrefixIsUnescaped(before: seq<RssItem>, after: seq<RssItem>, n: nat, unescape: string -> string)
    requires n <= |before| && n <= |after| && Described(before[..n])
    requires forall j :: 0 <= j < n ==> after[j] == UnescapeItem(before[j], unescape)
    ensures after[..n] == UnescapeItems(before[..n], unescape)
  {
    if n > 0 {
      UnescapeItemsAt(before[..n], unescape, 0);
      forall j | 0 <= j < n ensures after[..n][j] == UnescapeItems(before[..n], unescape)[j] {
        UnescapeItemsAt(before[..n], unescape, j);
      }
    }
  }

  /** `FetchFeed(ctx, url)` once the document has been fetched and decoded
      (or has failed to be). On a failure it returns an empty feed with
      the error; otherwise the unescaping pass runs, and panics on the
      first item without a description. */
  method FetchFeed(fetched: Result<Channel>, unescape: string -> string) returns (feed: RssFeed, out: Outcome)
    ensures fresh(feed) && fresh(feed.item)
    ensures fetched.Failure? ==> out == Return(Some(fetched.error)) && feed.Value() == EmptyChannel
    ensures fetched.Success? && Described(fetched.value.items) ==>
      out == Return(None) && feed.Value() == Normalized(fetched.value, unescape)
    ensures fetched.Success? && !Described(fetched.value.items) ==> out == Panic(NilDereference)
  {
    if fetched.Failure? {
      feed := new RssFeed.Empty();
      return feed, Return(Some(fetched.error));
    }
    feed := new RssFeed.Decoded(fetched.value);
    var nilAt := feed.Unescape(unescape);
    if nilAt.Some? {
      return feed, Panic(NilDereference);
    }
    out := Return(None);
  }
}
