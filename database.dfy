/** The PostgreSQL database the program talks to through its generated query
    layer. The queries themselves are not part of this model; the store
    below gives each query the behaviour the program relies on: unique
    constraints on user names, feed URLs, (user, feed) follows and post
    URLs, reported as SQLSTATE 23505, and any other failure as a
    `StoreFailure` for the operations listed in `faults`. */
module Database {
  import opened Common

  datatype User = User(id: nat, name: string)

  datatype Feed = Feed(id: nat, name: string, url: string, userId: nat, lastFetchedAt: Option<Time>)

  datatype Follow = Follow(userId: nat, feedId: nat)

  datatype Post = Post(title: string, url: string, description: Option<string>,
                       publishedAt: Option<Time>, feedId: nat)

  /** The queries the program issues. An operation in a store's `faults`
      fails with an error other than a unique violation (lost connection,
      a constraint the model does not know about, ...). */
  datatype Op =
    | GetUserOp | GetUsersOp | CreateUserOp | ResetOp
    | CreateFeedOp | GetFeedsOp | GetFeedByUrlOp
    | CreateFeedFollowOp | GetFeedFollowsOp | DeleteFeedFollowOp
    | GetPostsOp | NextFeedOp | MarkFetchedOp | CreatePostOp(url: string)

  /** SQLSTATE unique_violation. */
  const UniqueViolation := "23505"
  /** SQLSTATE invalid_row_count_in_limit_clause (a negative LIMIT). */
  const InvalidLimit := "2201W"

  /** The contents of every table, and the next fresh identifier (standing
      for `uuid.New()`). */
  datatype Tables = Tables(users: map<string, User>, feeds: seq<Feed>, follows: set<Follow>,
                           posts: map<string, Post>, nextId: nat)

  /** Some feed of the table has the id. */
  ghost predicate FeedStored(feeds: seq<Feed>, id: nat) {
    exists i :: 0 <= i < |feeds| && feeds[i].id == id
  }

  /** The constraints the schema enforces: users are keyed by name, feed
      and user ids are distinct and were handed out before, feed URLs are
      unique, every follow is of a feed in the table, and posts are keyed
      by their URL. */
  ghost predicate WellFormed(t: Tables) {
    && (forall n :: n in t.users ==> t.users[n].name == n && t.users[n].id < t.nextId)
    && (forall n, m :: n in t.users && m in t.users && n != m ==> t.users[n].id != t.users[m].id)
    && (forall i :: 0 <= i < |t.feeds| ==> t.feeds[i].id < t.nextId)
    && (forall i, j :: 0 <= i < j < |t.feeds| ==>
          t.feeds[i].id != t.feeds[j].id && t.feeds[i].url != t.feeds[j].url)
    && (forall f :: f in t.follows ==> FeedStored(t.feeds, f.feedId))
    && (forall u :: u in t.posts ==> t.posts[u].url == u)
  }

  /** `GetUser`: the user with that name. */
  function UserLookup(users: map<string, User>, faults: set<Op>, name: string): (r: Result<User>)
    ensures r.Success? <==> GetUserOp !in faults && name in users
    ensures r.Success? ==> r.value == users[name]
    ensures r.Failure? ==> r.error == if GetUserOp in faults then StoreFailure else NoRows
  {
    if GetUserOp in faults then Failure(StoreFailure)
    else if name in users then Success(users[name])
    else Failure(NoRows)
  }

  /** The position of the first feed with the given URL. */
  function FindFeed(feeds: seq<Feed>, url: string): (r: Option<nat>)
    ensures r.None? <==> forall i :: 0 <= i < |feeds| ==> feeds[i].url != url
    ensures r.Some? ==> r.value < |feeds| && feeds[r.value].url == url
    ensures r.Some? ==> forall i :: 0 <= i < r.value ==> feeds[i].url != url
  {
    if feeds == [] then None
    else if feeds[0].url == url then Some(0)
    else match FindFeed(feeds[1..], url)
      case None => None
      case Some(k) => Some(k + 1)
  }

  /** `GetFeedByUrl`: the feed with that URL. */
  function FeedLookup(feeds: seq<Feed>, faults: set<Op>, url: string): (r: Result<Feed>)
    ensures r.Success? ==> GetFeedByUrlOp !in faults && r.value in feeds && r.value.url == url
    ensures r.Failure? <==> GetFeedByUrlOp in faults || forall i :: 0 <= i < |feeds| ==> feeds[i].url != url
    ensures r.Failure? ==> r.error == if GetFeedByUrlOp in faults then StoreFailure else NoRows
  {
    if GetFeedByUrlOp in faults then Failure(StoreFailure)
    else match FindFeed(feeds, url)
      case None => Failure(NoRows)
      case Some(k) => Success(feeds[k])
  }

  /** The outcome of a read-only listing query (`GetUsers`, `GetFeeds`,
      `GetFeedFollowForUser`), whose rows are only printed. */
  function QueryResult(faults: set<Op>, op: Op): (r: Option<Error>)
    ensures r.None? <==> op !in faults
    ensures r.Some? ==> r.value == StoreFailure
  {
    if op in faults then Some(StoreFailure) else None
  }

  /** The outcome of `GetPostsForUser`, whose rows are only printed. The
      query passes its LIMIT to PostgreSQL, which rejects a negative one. */
  function PostsQueryResult(faults: set<Op>, limit: int): (r: Option<Error>)
    ensures r.None? <==> GetPostsOp !in faults && limit >= 0
    ensures r.Some? ==> r.value == if GetPostsOp in faults then StoreFailure else PqError(InvalidLimit)
  {
    if GetPostsOp in faults then Some(StoreFailure)
    else if limit < 0 then Some(PqError(InvalidLimit))
    else None
  }

  /** `CreateUser`: a failing insert changes nothing; a name already taken
      is a unique violation; otherwise the user gets the next id. */
  function UserInsert(t: Tables, faults: set<Op>, name: string): (r: (Tables, Result<User>)) {
    if CreateUserOp in faults then (t, Failure(StoreFailure))
    else if name in t.users then (t, Failure(PqError(UniqueViolation)))
    else
      var u := User(t.nextId, name);
      (t.(users := t.users[name := u], nextId := t.nextId + 1), Success(u))
  }

  /** `Reset`: every user, feed, follow and post is deleted; ids are never
      handed out twice. */
  function Cleared(t: Tables, faults: set<Op>): (r: (Tables, Option<Error>)) {
    if ResetOp in faults then (t, Some(StoreFailure))
    else (Tables(map[], [], {}, map[], t.nextId), None)
  }

  /** `CreateFeed`: a URL already in the table is a unique violation;
      otherwise the feed, never fetched, gets the next id and is appended. */
  function FeedInsert(t: Tables, faults: set<Op>, name: string, url: string, userId: nat): (r: (Tables, Result<Feed>)) {
    if CreateFeedOp in faults then (t, Failure(StoreFailure))
    else if FindFeed(t.feeds, url).Some? then (t, Failure(PqError(UniqueViolation)))
    else
      var f := Feed(t.nextId, name, url, userId, None);
      (t.(feeds := t.feeds + [f], nextId := t.nextId + 1), Success(f))
  }

  /** `CreateFeedFollow`: a pair already followed is a unique violation. */
  function FollowInsert(t: Tables, faults: set<Op>, userId: nat, feedId: nat): (r: (Tables, Option<Error>)) {
    if CreateFeedFollowOp in faults then (t, Some(StoreFailure))
    else if Follow(userId, feedId) in t.follows then (t, Some(PqError(UniqueViolation)))
    else (t.(follows := t.follows + {Follow(userId, feedId)}), None)
  }

  /** `DeleteFeedFollow`: deleting a pair that is not followed is no error. */
  function FollowDelete(t: Tables, faults: set<Op>, userId: nat, feedId: nat): (r: (Tables, Option<Error>)) {
    if DeleteFeedFollowOp in faults then (t, Some(StoreFailure))
    else (t.(follows := t.follows - {Follow(userId, feedId)}), None)
  }

  /** The feed table after `MarkFeedFetched(id, now)`. */
  function Marked(feeds: seq<Feed>, id: nat, now: Time): (r: seq<Feed>)
    ensures |r| == |feeds|
  {
    seq(|feeds|, i requires 0 <= i < |feeds| =>
      if feeds[i].id == id then feeds[i].(lastFetchedAt := Some(now)) else feeds[i])
  }

  /** `CreatePost`: a faulty insert fails; otherwise a stored URL is a
      unique violation; otherwise the post is stored under its URL. */
  function PostInsert(posts: map<string, Post>, faults: set<Op>, p: Post): (r: (map<string, Post>, Option<Error>)) {
    if CreatePostOp(p.url) in faults then (posts, Some(StoreFailure))
    else if p.url in posts then (posts, Some(PqError(UniqueViolation)))
    else (posts[p.url := p], None)
  }

  /** Each store write keeps the schema's constraints. */
  lemma UserInsertKeepsSchema(t: Tables, faults: set<Op>, name: string)
    requires WellFormed(t)
    ensures WellFormed(UserInsert(t, faults, name).0)
  {
  }

  lemma ClearedKeepsSchema(t: Tables, faults: set<Op>)
    requires WellFormed(t)
    ensures WellFormed(Cleared(t, faults).0)
  {
  }

  lemma FeedInsertKeepsSchema(t: Tables, faults: set<Op>, name: string, url: string, userId: nat)
    requires WellFormed(t)
    ensures WellFormed(FeedInsert(t, faults, name, url, userId).0)
    ensures FeedInsert(t, faults, name, url, userId).1.Success? ==>
      FeedStored(FeedInsert(t, faults, name, url, userId).0.feeds, FeedInsert(t, faults, name, url, userId).1.value.id)
  {
    var (t', r) := FeedInsert(t, faults, name, url, userId);
    if r.Success? {
      forall f | f in t'.follows
        ensures FeedStored(t'.feeds, f.feedId)
      {
        FeedStoredAppend(t.feeds, r.value, f.feedId);
      }
      FeedStoredAppend(t.feeds, r.value, r.value.id);
    }
  }

  /** Appending a feed keeps every stored id and stores the new one. */
  lemma FeedStoredAppend(feeds: seq<Feed>, f: Feed, id: nat)
    ensures FeedStored(feeds + [f], f.id)
    ensures FeedStored(feeds, id) ==> FeedStored(feeds + [f], id)
  {
    assert (feeds + [f])[|feeds|] == f;
    if FeedStored(feeds, id) {
      var i :| 0 <= i < |feeds| && feeds[i].id == id;
      assert (feeds + [f])[i] == feeds[i];
    }
  }

  /** A follow keeps them when its feed is in the table. */
  lemma FollowInsertKeepsSchema(t: Tables, faults: set<Op>, userId: nat, feedId: nat)
    requires WellFormed(t) && FeedStored(t.feeds, feedId)
    ensures WellFormed(FollowInsert(t, faults, userId, feedId).0)
  {
  }

  lemma FollowDeleteKeepsSchema(t: Tables, faults: set<Op>, userId: nat, feedId: nat)
    requires WellFormed(t)
    ensures WellFormed(FollowDelete(t, faults, userId, feedId).0)
  {
  }

  class Store {
    var users: map<string, User>
    var feeds: seq<Feed>
    var follows: set<Follow>
    var posts: map<string, Post>
    var nextId: nat
    const faults: set<Op>

    /** The database as the connection finds it, with whatever earlier runs
        stored. */
    constructor (t: Tables, faults: set<Op>)
      ensures Contents() == t && this.faults == faults
    {
      users, feeds, follows, posts, nextId := t.users, t.feeds, t.follows, t.posts, t.nextId;
      this.faults := faults;
    }

    ghost function Contents(): (r: Tables)
      reads this
    {
      Tables(users, feeds, follows, posts, nextId)
    }

    function GetUser(name: string): (r: Result<User>)
      reads this
    {
      UserLookup(users, faults, name)
    }

    function GetFeedByUrl(url: string): (r: Result<Feed>)
      reads this
    {
      FeedLookup(feeds, faults, url)
    }

    function Query(op: Op): (r: Option<Error>) {
      QueryResult(faults, op)
    }

    function GetPostsForUser(userId: nat, limit: int): (r: Option<Error>) {
      PostsQueryResult(faults, limit)
    }

    method CreateUser(name: string) returns (r: Result<User>)
      modifies this
      ensures (Contents(), r) == UserInsert(old(Contents()), faults, name)
    {
      if CreateUserOp in faults {
        return Failure(StoreFailure);
      }
      if name in users {
        return Failure(PqError(UniqueViolation));
      }
      var u := User(nextId, name);
      users := users[name := u];
      nextId := nextId + 1;
      r := Success(u);
    }

    method Reset() returns (err: Option<Error>)
      modifies this
      ensures (Contents(), err) == Cleared(old(Contents()), faults)
    {
      if ResetOp in faults {
        return Some(StoreFailure);
      }
      users, feeds, follows, posts := map[], [], {}, map[];
      err := None;
    }

    method CreateFeed(name: string, url: string, userId: nat) returns (r: Result<Feed>)
      modifies this
      ensures (Contents(), r) == FeedInsert(old(Contents()), faults, name, url, userId)
    {
      if CreateFeedOp in faults {
        return Failure(StoreFailure);
      }
      if FindFeed(feeds, url).Some? {
        return Failure(PqError(UniqueViolation));
      }
      var f := Feed(nextId, name, url, userId, None);
      feeds := feeds + [f];
      nextId := nextId + 1;
      r := Success(f);
    }

    method CreateFeedFollow(userId: nat, feedId: nat) returns (err: Option<Error>)
      modifies this
      ensures (Contents(), err) == FollowInsert(old(Contents()), faults, userId, feedId)
    {
      if CreateFeedFollowOp in faults {
        return Some(StoreFailure);
      }
      if Follow(userId, feedId) in follows {
        return Some(PqError(UniqueViolation));
      }
      follows := follows + {Follow(userId, feedId)};
      err := None;
    }

    method DeleteFeedFollow(userId: nat, feedId: nat) returns (err: Option<Error>)
      modifies this
      ensures (Contents(), err) == FollowDelete(old(Contents()), faults, userId, feedId)
    {
      if DeleteFeedFollowOp in faults {
        return Some(StoreFailure);
      }
      follows := follows - {Follow(userId, feedId)};
      err := None;
    }

    /** `GetNextFeedToFetch`: some feed of the table. Which one is decided
        by a query that is not part of this model. */
    method GetNextFeedToFetch() returns (r: Result<Feed>)
      ensures NextFeedOp in faults ==> r == Failure(StoreFailure)
      ensures NextFeedOp !in faults && feeds == [] ==> r == Failure(NoRows)
      ensures NextFeedOp !in faults && feeds != [] ==> r.Success? && r.value in feeds
    {
      if NextFeedOp in faults {
        return Failure(StoreFailure);
      }
      if feeds == [] {
        return Failure(NoRows);
      }
      var k :| 0 <= k < |feeds|;
      r := Success(feeds[k]);
    }

    method MarkFeedFetched(id: nat, now: Time) returns (err: Option<Error>)
      modifies this
      ensures MarkFetchedOp in faults ==> err == Some(StoreFailure) && Contents() == old(Contents())
      ensures MarkFetchedOp !in faults ==>
        err == None && Contents() == old(Contents()).(feeds := Marked(old(feeds), id, now))
    {
      if MarkFetchedOp in faults {
        return Some(StoreFailure);
      }
      feeds := Marked(feeds, id, now);
      err := None;
    }

    method CreatePost(p: Post) returns (err: Option<Error>)
      modifies this
      ensures (posts, err) == PostInsert(old(posts), faults, p)
      ensures Contents() == old(Contents()).(posts := posts)
    {
      var (ps, e) := PostInsert(posts, faults, p);
      posts, err := ps, e;
    }
  }
}

/** The part of the config file the commands use: the current user name.
    Reading and writing the JSON file is not part of this model; whether
    the write succeeds is fixed by `writable`. */
module Config {
  import opened Common

  class Config {
    var username: string
    const writable: bool

    constructor (username: string, writable: bool)
      ensures this.username == username && this.writable == writable
    {
      this.username := username;
      this.writable := writable;
    }

    /** The name is assigned before the file is written, so it is the
        current user even when writing fails. */
    method SetUser(name: string) returns (err: Option<Error>)
      modifies this
      ensures username == name
      ensures err == if writable then None else Some(ConfigWriteFailure)
    {
      username := name;
      if !writable {
        return Some(ConfigWriteFailure);
      }
      err := None;
    }
  }
}
