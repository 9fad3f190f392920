/** `scrapeFeeds` from cmd/gator/main.go and the ticks of `handlerAgg` that
    call it: pick a feed, mark it fetched, fetch it, and store one post per
    item, where a URL that is already stored is a benign duplicate and any
    other database error ends the pass. */
module Scrape {
  import opened Common
  import opened Database
  import opened Rss
  import opened Dates

  /** What the program takes from its surroundings: the clock at each tick
      (`time.Now()`), the fetched and decoded document of a URL at each
      tick (HTTP GET, body read, `xml.Unmarshal`; a feed may gain items or
      a server come back between ticks), and the library functions `time.Parse`,
      `html.UnescapeString`, `time.ParseDuration` and `strconv.Atoi`.
      `ticks` bounds how many ticks of the ticker are observed. */
  datatype Env = Env(
    clock: nat -> Time,
    fetch: (nat, string) -> Result<Channel>,
    parseTime: (string, string) -> Option<Time>,
    unescape: string -> string,
    parseDuration: string -> Option<int>,
    atoi: string -> Option<int>,
    ticks: nat)

  /** The post an item becomes (`CreatePostParams` without the fresh id and
      the timestamps). */
  function PostFor(it: RssItem, feedId: nat, parse: (string, string) -> Option<Time>): (p: Post) {
    var desc := if it.description.Some? && it.description.value != "" then it.description else None;
    Post(it.title, it.link, desc, PublishedAt(it.pubDate, parse), feedId)
  }

  /** The posts of a fetched document, in item order. */
  function Batch(items: seq<RssItem>, feedId: nat, parse: (string, string) -> Option<Time>): (r: seq<Post>)
    ensures |r| == |items|
  {
    seq(|items|, i requires 0 <= i < |items| => PostFor(items[i], feedId, parse))
  }

  /** The body of the item loop that builds the insert parameters: the
      description is kept only when present and non-empty, the publication
      date only when present, non-empty and accepted by some layout. */
  method BuildPost(it: RssItem, feedId: nat, parse: (string, string) -> Option<Time>) returns (p: Post)
    ensures p == PostFor(it, feedId, parse)
    ensures p.title == it.title && p.url == it.link && p.feedId == feedId
    ensures p.description.Some? <==> it.description.Some? && it.description.value != ""
    ensures p.description.Some? ==> p.description == it.description
    ensures p.publishedAt.Some? <==>
      it.pubDate.Some? && it.pubDate.value != "" &&
      exists j :: 0 <= j < |TimeFormats| && parse(TimeFormats[j], it.pubDate.value).Some?
  {
    var desc: Option<string>;
    if it.description.Some? && it.description.value != "" {
      desc := Some(it.description.value);
    } else {
      desc := None;
    }
    var pub: Option<Time> := None;
    if it.pubDate.Some? && it.pubDate.value != "" {
      var parsedTime, err := ParseDate(it.pubDate.value, parse);
      if err.Some? {
        pub := None;
      } else {
        pub := Some(parsedTime);
      }
    }
    p := Post(it.title, it.link, desc, pub, feedId);
  }

  /** The test on a `CreatePost` error: a `*pq.Error` with code 23505. */
  predicate IsDuplicate(e: Error) {
    e.PqError? && e.code == UniqueViolation
  }

  datatype Ingested = Ingested(posts: map<string, Post>, err: Option<Error>)

  /** The insert loop over a batch, on the post table: a duplicate is
      skipped, any other error is returned and ends the loop. */
  function Ingest(posts: map<string, Post>, faults: set<Op>, batch: seq<Post>): (r: Ingested)
    ensures forall u :: u in posts ==> u in r.posts && r.posts[u] == posts[u]
    ensures forall u :: u in r.posts ==> u in posts || r.posts[u] in batch
    ensures (forall u :: u in posts ==> posts[u].url == u) ==> forall u :: u in r.posts ==> r.posts[u].url == u
    ensures r.err.None? ==> forall i :: 0 <= i < |batch| ==> batch[i].url in r.posts
    ensures r.err.Some? ==> r.err == Some(StoreFailure)
    decreases |batch|
  {
    if batch == [] then Ingested(posts, None)
    else
      var (next, e) := PostInsert(posts, faults, batch[0]);
      if e.Some? && !IsDuplicate(e.value) then Ingested(posts, e)
      else Ingest(next, faults, batch[1..])
  }

  /** Re-running the loop over the same items stores nothing new and ends
      the same way: insertion is idempotent over URLs. */
  lemma {:induction false} IngestIdempotent(posts: map<string, Post>, faults: set<Op>, batch: seq<Post>)
    ensures Ingest(Ingest(posts, faults, batch).posts, faults, batch) == Ingest(posts, faults, batch)
    decreases |batch|
  {
    if batch != [] {
      var (next, e) := PostInsert(posts, faults, batch[0]);
      if e.None? || IsDuplicate(e.value) {
        var r := Ingest(next, faults, batch[1..]);
        assert Ingest(posts, faults, batch) == r;
        assert batch[0].url in r.posts;
        assert Ingest(r.posts, faults, batch) == Ingest(r.posts, faults, batch[1..]);
        IngestIdempotent(next, faults, batch[1..]);
      }
    }
  }

  /** Running the loop over `xs + ys` is running it over `xs` and, unless
      that ended in an error, over `ys` from where it left off: nothing
      after an error is inserted. */
  lemma {:induction false} IngestAppend(posts: map<string, Post>, faults: set<Op>, xs: seq<Post>, ys: seq<Post>)
    ensures Ingest(posts, faults, xs + ys) ==
      var r := Ingest(posts, faults, xs);
      if r.err.Some? then r else Ingest(r.posts, faults, ys)
    decreases |xs|
  {
    if xs == [] {
      assert xs + ys == ys;
    } else {
      assert (xs + ys)[0] == xs[0];
      assert (xs + ys)[1..] == xs[1..] + ys;
      var (next, e) := PostInsert(posts, faults, xs[0]);
      if e.None? || IsDuplicate(e.value) {
        IngestAppend(next, faults, xs[1..], ys);
      }
    }
  }

  /** A batch whose URLs are all stored already changes nothing and is not
      an error, as long as the store answers each insert. */
  lemma {:induction false} KnownUrlsAreNoop(posts: map<string, Post>, faults: set<Op>, batch: seq<Post>)
    requires forall i :: 0 <= i < |batch| ==> batch[i].url in posts
    requires forall i :: 0 <= i < |batch| ==> CreatePostOp(batch[i].url) !in faults
    ensures Ingest(posts, faults, batch) == Ingested(posts, None)
    decreases |batch|
  {
    if batch != [] {
      KnownUrlsAreNoop(posts, faults, batch[1..]);
    }
  }

  /** What a tick may do to the tables: mark feeds fetched and add posts.
      Users, follows, the feeds themselves and every stored post stay. */
  ghost predicate Scraped(before: Tables, after: Tables) {
    && after.users == before.users && after.follows == before.follows && after.nextId == before.nextId
    && |after.feeds| == |before.feeds|
    && (forall i :: 0 <= i < |before.feeds| ==>
          after.feeds[i].(lastFetchedAt := None) == before.feeds[i].(lastFetchedAt := None))
    && (forall u :: u in before.posts ==> u in after.posts && after.posts[u] == before.posts[u])
  }

  lemma ScrapedTransitive(a: Tables, b: Tables, c: Tables)
    requires Scraped(a, b) && Scraped(b, c)
    ensures Scraped(a, c)
  {
  }

  /** Marking a feed fetched is a change a tick may make, and keeps the
      schema's constraints. */
  lemma MarkIsScrape(t: Tables, id: nat, now: Time)
    ensures Scraped(t, t.(feeds := Marked(t.feeds, id, now)))
    ensures WellFormed(t) ==> WellFormed(t.(feeds := Marked(t.feeds, id, now)))
  {
  }

  /** So is running the insert loop. */
  lemma IngestIsScrape(t: Tables, faults: set<Op>, batch: seq<Post>)
    ensures Scraped(t, t.(posts := Ingest(t.posts, faults, batch).posts))
    ensures WellFormed(t) ==> WellFormed(t.(posts := Ingest(t.posts, faults, batch).posts))
  {
  }

  /** Tick `k`, `scrapeFeeds` at time `env.clock(k)` against the network
      of that tick, as a relation between the
      tables before and after it: the store picks a feed (`selected`), marks
      it fetched, fetches it and inserts its items in order; the first step
      that fails ends the tick with the whole new state stated here. */
  ghost predicate Tick(before: Tables, after: Tables, faults: set<Op>, env: Env, k: nat,
                       selected: Option<Feed>, out: Outcome) {
    if NextFeedOp in faults || before.feeds == [] then
      && selected.None? && after == before
      && out == Return(Some(if NextFeedOp in faults then StoreFailure else NoRows))
    else if selected.None? || selected.value !in before.feeds then false
    else if MarkFetchedOp in faults then after == before && out == Return(Some(StoreFailure))
    else
      var marked := before.(feeds := Marked(before.feeds, selected.value.id, env.clock(k)));
      var fetched := env.fetch(k, selected.value.url);
      if fetched.Failure? then after == marked && out == Return(Some(fetched.error))
      else if !Described(fetched.value.items) then after == marked && out == Panic(NilDereference)
      else
        var items := Normalized(fetched.value, env.unescape).items;
        var r := Ingest(before.posts, faults, Batch(items, selected.value.id, env.parseTime));
        after == marked.(posts := r.posts) && out == Return(r.err)
  }

  /** A tick only marks feeds and adds posts, and keeps the schema's
      constraints. */
  lemma TickIsScrape(before: Tables, after: Tables, faults: set<Op>, env: Env, k: nat,
                     selected: Option<Feed>, out: Outcome)
    requires Tick(before, after, faults, env, k, selected, out)
    ensures Scraped(before, after)
    ensures WellFormed(before) ==> WellFormed(after)
  {
    if selected.Some? && MarkFetchedOp !in faults {
      var marked := before.(feeds := Marked(before.feeds, selected.value.id, env.clock(k)));
      MarkIsScrape(before, selected.value.id, env.clock(k));
      var fetched := env.fetch(k, selected.value.url);
      if fetched.Success? && Described(fetched.value.items) {
        var items := Normalized(fetched.value, env.unescape).items;
        IngestIsScrape(marked, faults, Batch(items, selected.value.id, env.parseTime));
        ScrapedTransitive(before, marked, after);
      }
    }
  }

  /** The ticks `handlerAgg` runs, as a trace: `states[k]` are the tables
      before tick `k`, which runs at `env.clock(k)`, picks `picks[k]` and
      ends with `outs[k]`. An error a tick returns does not stop the next
      one: every tick but the last returned, a loop that returns ran all
      `env.ticks` ticks, and one that panics ends with the panicking tick. */
  ghost predicate Ticks(before: Tables, after: Tables, faults: set<Op>, env: Env,
                        states: seq<Tables>, picks: seq<Option<Feed>>, outs: seq<Outcome>, out: Outcome) {
    && |states| == |outs| + 1 && |picks| == |outs| && |outs| <= env.ticks
    && states[0] == before && states[|outs|] == after
    && (forall k :: 0 <= k < |outs| ==>
          Tick(states[k], states[k + 1], faults, env, k, picks[k], outs[k]))
    && (forall k :: 0 <= k < |outs| - 1 ==> outs[k].Return?)
    && (out.Return? ==> out == Return(None) && |outs| == env.ticks && (|outs| > 0 ==> outs[|outs| - 1].Return?))
    && (out.Panic? ==> 0 < |outs| && outs[|outs| - 1] == out)
  }

  /** Every prefix of a trace of ticks only marks feeds and adds posts. */
  lemma {:induction false} TracePrefixScrapes(states: seq<Tables>, picks: seq<Option<Feed>>, outs: seq<Outcome>,
                                              faults: set<Op>, env: Env, j: nat)
    requires |states| == |outs| + 1 && |picks| == |outs| && j <= |outs|
    requires forall k :: 0 <= k < |outs| ==>
      Tick(states[k], states[k + 1], faults, env, k, picks[k], outs[k])
    ensures Scraped(states[0], states[j])
    ensures WellFormed(states[0]) ==> WellFormed(states[j])
  {
    if j > 0 {
      TracePrefixScrapes(states, picks, outs, faults, env, j - 1);
      TickIsScrape(states[j - 1], states[j], faults, env, j - 1, picks[j - 1], outs[j - 1]);
      ScrapedTransitive(states[0], states[j - 1], states[j]);
    }
  }

  /** So the whole run of `handlerAgg`'s loop only marks feeds and adds
      posts, and keeps the schema's constraints. */
  lemma TicksScrape(before: Tables, after: Tables, faults: set<Op>, env: Env,
                    states: seq<Tables>, picks: seq<Option<Feed>>, outs: seq<Outcome>, out: Outcome)
    requires Ticks(before, after, faults, env, states, picks, outs, out)
    ensures Scraped(before, after)
    ensures WellFormed(before) ==> WellFormed(after)
  {
    TracePrefixScrapes(states, picks, outs, faults, env, |outs|);
  }

  /** The item loop of `scrapeFeeds`, over the items of the fetched
      document, in order. */
  method InsertPosts(s: Store, items: array<RssItem>, feedId: nat, parse: (string, string) -> Option<Time>)
    returns (err: Option<Error>)
    modifies s
    ensures
      var r := Ingest(old(s.posts), s.faults, Batch(old(items[..]), feedId, parse));
      s.posts == r.posts && err == r.err
    ensures s.Contents() == old(s.Contents()).(posts := s.posts)
  {
    ghost var batch := Batch(items[..], feedId, parse);
    var i := 0;
    while i < items.Length
      invariant 0 <= i <= items.Length
      invariant s.Contents() == old(s.Contents()).(posts := s.posts)
      invariant Ingest(s.posts, s.faults, batch[i..]) == Ingest(old(s.posts), s.faults, batch)
    {
      var p := BuildPost(items[i], feedId, parse);
      assert batch[i..][0] == p && batch[i..][1..] == batch[i + 1..];
      var e := s.CreatePost(p);
      if e.Some? {
        if IsDuplicate(e.value) {
          i := i + 1;
          continue;
        }
        return e;
      }
      i := i + 1;
    }
    err := None;
  }

  /** `scrapeFeeds(s)` on tick `tick`. `selected` is the feed the store
      picked, if any. */
  method ScrapeFeeds(s: Store, env: Env, tick: nat) returns (selected: Option<Feed>, out: Outcome)
    modifies s
    ensures Scraped(old(s.Contents()), s.Contents())
    ensures WellFormed(old(s.Contents())) ==> WellFormed(s.Contents())
    ensures Tick(old(s.Contents()), s.Contents(), s.faults, env, tick, selected, out)
    // selection first: when it fails nothing else happens
    ensures selected.None? <==> NextFeedOp in s.faults || old(s.feeds) == []
    ensures selected.None? ==>
      s.Contents() == old(s.Contents()) &&
      out == Return(Some(if NextFeedOp in s.faults then StoreFailure else NoRows))
    ensures selected.Some? ==> selected.value in old(s.feeds)
    // then the mark: when it fails nothing else happens
    ensures selected.Some? && MarkFetchedOp in s.faults ==>
      s.Contents() == old(s.Contents()) && out == Return(Some(StoreFailure))
    // the mark is made before the fetch, so it stays whatever the fetch does
    ensures selected.Some? && MarkFetchedOp !in s.faults ==>
      s.feeds == Marked(old(s.feeds), selected.value.id, env.clock(tick))
    // then the fetch: a failure or a panic inserts nothing
    ensures selected.Some? && MarkFetchedOp !in s.faults ==>
      var fetched := env.fetch(tick, selected.value.url);
      && (fetched.Failure? ==> s.posts == old(s.posts) && out == Return(Some(fetched.error)))
      && (fetched.Success? && !Described(fetched.value.items) ==>
            s.posts == old(s.posts) && out == Panic(NilDereference))
      // then the items, in order
      && (fetched.Success? && Described(fetched.value.items) ==>
            var items := Normalized(fetched.value, env.unescape).items;
            var r := Ingest(old(s.posts), s.faults, Batch(items, selected.value.id, env.parseTime));
            s.posts == r.posts && out == Return(r.err))
  {
    var next := s.GetNextFeedToFetch();
    if next.Failure? {
      return None, Return(Some(next.error));
    }
    var feed := next.value;
    selected := Some(feed);
    var now := env.clock(tick);
    var err := s.MarkFeedFetched(feed.id, now);
    if err.Some? {
      return selected, Return(err);
    }
    MarkIsScrape(old(s.Contents()), feed.id, now);
    ghost var marked := s.Contents();
    var rssFeed, fetchOut := FetchFeed(env.fetch(tick, feed.url), env.unescape);
    if fetchOut.Panic? || fetchOut.err.Some? {
      return selected, fetchOut;
    }
    ghost var batch := Batch(rssFeed.item[..], feed.id, env.parseTime);
    err := InsertPosts(s, rssFeed.item, feed.id, env.parseTime);
    IngestIsScrape(marked, s.faults, batch);
    ScrapedTransitive(old(s.Contents()), marked, s.Contents());
    out := Return(err);
  }

  /** The ticks of `handlerAgg`'s ticker, one `scrapeFeeds` each; the error a
      tick returns is dropped and the next tick runs. Only a panic stops
      the loop. `states`, `picks` and `outs` are the trace of the ticks run. */
  method Aggregate(s: Store, env: Env)
    returns (ticksRun: nat, out: Outcome,
             ghost states: seq<Tables>, ghost picks: seq<Option<Feed>>, ghost outs: seq<Outcome>)
    modifies s
    ensures Ticks(old(s.Contents()), s.Contents(), s.faults, env, states, picks, outs, out)
    ensures ticksRun == |outs|
    ensures Scraped(old(s.Contents()), s.Contents())
    ensures WellFormed(old(s.Contents())) ==> WellFormed(s.Contents())
    ensures out == Return(None) || out == Panic(NilDereference)
    ensures out.Return? ==> ticksRun == env.ticks
    ensures out.Panic? ==> 0 < ticksRun <= env.ticks
  {
    ticksRun := 0;
    states, picks, outs := [s.Contents()], [], [];
    while ticksRun < env.ticks
      invariant ticksRun <= env.ticks
      invariant |states| == ticksRun + 1 && |picks| == ticksRun && |outs| == ticksRun
      invariant states[0] == old(s.Contents()) && states[ticksRun] == s.Contents()
      invariant forall k :: 0 <= k < ticksRun ==>
        Tick(states[k], states[k + 1], s.faults, env, k, picks[k], outs[k])
      invariant forall k :: 0 <= k < ticksRun ==> outs[k].Return?
      invariant Scraped(old(s.Contents()), s.Contents())
      invariant WellFormed(old(s.Contents())) ==> WellFormed(s.Contents())
    {
      ghost var before := s.Contents();
      var selected, tick := ScrapeFeeds(s, env, ticksRun);
      ScrapedTransitive(old(s.Contents()), before, s.Contents());
      states, picks, outs := states + [s.Contents()], picks + [selected], outs + [tick];
      if tick.Panic? {
        return ticksRun + 1, tick, states, picks, outs;
      }
      ticksRun := ticksRun + 1;
    }
    out := Return(None);
  }
}
