# gator — a Dafny model of the RSS aggregator's command layer and feed ingestion

gator is a command-line RSS aggregator backed by PostgreSQL. A user registers and logs in, adds feeds (and follows them), follows and unfollows other users' feeds, and browses the newest posts of the feeds they follow. `gator agg <interval>` runs a ticker. On every tick it picks a feed, marks it fetched, downloads and decodes it, and stores each item as a post. A post URL that is already stored is skipped silently.

This project models and proves:

- `Common` (common.dfy): option and result values, the errors the program can return, and the outcome of a call. An outcome is either a return with an optional error or a Go panic.
- `Database` (database.dfy): the PostgreSQL store as a class (`Store`) holding tables of users, feeds, follows and posts.
  - Each query the program issues is a method or function of the store.
  - The unique constraints report SQLSTATE 23505.
  - Any other failure comes from the store's fixed set `faults` of operations that fail.
  - `WellFormed` states the constraints the schema keeps.
- `Config` (database.dfy): the current user name and `SetUser`, which assigns the name before it tries to write the file.
- `Rss` (rss.dfy): `FetchFeed` in internal/rss/rss.go. A failure returns an empty feed and the error. A decoded document goes through the in-place HTML-unescaping pass over an array of items; an item without a description makes that pass dereference nil, which is a panic.
- `Dates` (dates.dfy): `parseDate`. Five layouts are tried in a fixed order and the first that accepts the string wins.
- `Scrape` (scrape.dfy): `scrapeFeeds` and the ticks of `handlerAgg`.
  - A tick runs in a fixed order: select a feed, mark it fetched, fetch it, build one post per item, insert the posts.
  - The insert loop is proved against a function `Ingest`. `Ingest` is shown idempotent, compositional over concatenated batches, and a no-op on URLs already stored.
  - A tick is the relation `Tick` between the tables before and after it; the ticker loop leaves a trace of ticks (`Ticks`) in which an error does not stop the next tick.
  - Every tick only marks feeds and adds posts (`Scraped`), and keeps `WellFormed`.
- `Gator` (gator.dfy): cmd/gator/main.go's command layer.
  - The registry class `Commands` with `Register`, `Describe` and `Run`, where `help` is special.
  - `middlewareLoggedIn`: a handler value is the datatype `HandlerFn`, and the closure the middleware returns is `LoggedIn(h)`.
  - Each handler with its argument check and its sequence of store calls, proved equal to a function on a snapshot (`World`) of the tables and the config.
  - The `browse` limit, including Go's `int32` conversion.
  - Lemmas relating handlers to each other, for example register-then-login, follow-then-unfollow, and addfeed-then-follow.
- `GatorEarly` (gator_early.dfy): the older main.go. It has the same registry without `help`, looser argument checks, an `addfeed` that looks the user up inline and follows nothing, a no-op `follow`, and an `agg` that fetches one fixed URL. Lemmas compare it with the newer layer.

Calls into code that is not part of this model are parameters, collected in `Scrape.Env`:

| Go call | parameter |
|---|---|
| the network request and `xml.Unmarshal`, on each tick | `fetch` |
| `time.Parse` | `parseTime` |
| `html.UnescapeString` | `unescape` |
| `time.ParseDuration` | `parseDuration` |
| `strconv.Atoi` | `atoi` |
| `time.Now` at each tick | `clock` |

Two behaviours of the code look unintended but are modelled as written:

- An unregistered command name calls a nil function value and panics (`Panic(NilFunctionCall)`). It is not an "unrecognized command" error.
- An item without a description panics in `FetchFeed` (`Panic(NilDereference)`). It does not stay absent.

## Model

| member | source | states |
|---|---|---|
| Database.Store.constructor | cmd/gator/main.go:75-81 | the connection `sql.Open` returns: the tables as earlier runs left them, with the given failing operations |
| Database.UserLookup | cmd/gator/main.go:308-311 | `GetUser` (also at lines 116 and 137): succeeds exactly when the query does not fail and the name is stored, with that user; a missing name is "no rows" |
| Database.FeedLookup | cmd/gator/main.go:234-237 | `GetFeedByUrl` (also at line 265): a feed found is in the table and has the URL; it fails exactly when the query fails or no feed has the URL |
| Database.QueryResult | cmd/gator/main.go:167-170 | `GetUsers`, `GetFeeds` (line 219) and `GetFeedFollowForUser` (line 250) fail exactly when that query fails |
| Database.PostsQueryResult | cmd/gator/main.go:290-293 | `GetPostsForUser` fails exactly when the query fails or the limit is negative, the latter with SQLSTATE 2201W |
| Database.Store.CreateUser | cmd/gator/main.go:143-147 | as `UserInsert`: a failing insert changes nothing; an existing name is a 23505 unique violation; otherwise exactly one user with a fresh id is added under its name |
| Database.Store.Reset | cmd/gator/main.go:158-161 | as `Cleared`: all users, feeds, follows and posts are deleted; on failure nothing changes |
| Database.Store.CreateFeed | cmd/gator/main.go:204-208 | as `FeedInsert`: a URL already in the feed table is a 23505 violation and changes nothing; otherwise the new feed, with a fresh id and never fetched, is appended |
| Database.Store.CreateFeedFollow | cmd/gator/main.go:210-214 | as `FollowInsert`: a (user, feed) pair already followed is a 23505 violation; otherwise exactly that follow is added |
| Database.Store.DeleteFeedFollow | cmd/gator/main.go:270-274 | as `FollowDelete`: exactly that follow is removed, and no error when it was absent |
| Database.UserInsertKeepsSchema | cmd/gator/main.go:143-147 | a new user keeps the schema's constraints |
| Database.ClearedKeepsSchema | cmd/gator/main.go:158-161 | a reset keeps the schema's constraints |
| Database.FeedInsertKeepsSchema | cmd/gator/main.go:204-208 | a new feed keeps the schema's constraints, and a feed created is then stored, so it can be followed |
| Database.FeedStoredAppend | cmd/gator/main.go:204-208 | appending a feed keeps every stored feed id and stores the new one |
| Database.FollowInsertKeepsSchema | cmd/gator/main.go:210-214 | a follow of a feed in the table keeps the schema's constraints |
| Database.FollowDeleteKeepsSchema | cmd/gator/main.go:270-274 | removing a follow keeps the schema's constraints |
| Database.Store.GetNextFeedToFetch | cmd/gator/main.go:318-321 | a failing query or an empty feed table is an error (no rows); otherwise some feed of the table |
| Database.Store.MarkFeedFetched | cmd/gator/main.go:322-326 | only the last-fetched time of the feed with that id changes |
| Database.Store.CreatePost | cmd/gator/main.go:362-368 | as `PostInsert`: a failing insert is an error; otherwise a stored URL is a 23505 violation; otherwise the post is stored under its URL; no other table changes |
| Database.FindFeed | cmd/gator/main.go:234 | the position of the first feed with the URL: it holds the URL, no earlier feed does, and no position is found exactly when no feed has the URL |
| Config.Config.SetUser | internal/config/config.go:43-59 | the name becomes the current user even when writing the file fails; the error is returned exactly when the file cannot be written |
| Rss.FirstUndescribed | internal/rss/rss.go:54-56 | the first item without a description: none exactly when every item has one, and every item before it has one |
| Rss.UnescapeItemsAt | internal/rss/rss.go:54-58 | the pass keeps the number and order of items, unescapes each title and description, and leaves link and publication date untouched |
| Rss.UnescapedDescribed | internal/rss/rss.go:56 | after a completed pass every item has a description, so a nil description never reaches the ingestion loop through this path |
| Rss.PrefixIsUnescaped | internal/rss/rss.go:54-58 | items that each went through the loop body form the pass applied to that prefix |
| Rss.RssFeed.Empty | internal/rss/rss.go:30 | the empty `RSSFeed` returned with an error |
| Rss.RssFeed.Decoded | internal/rss/rss.go:47-50 | the document as decoded, items in order |
| Rss.RssFeed.Unescape | internal/rss/rss.go:52-58 | channel title and description are unescaped and the link is kept; if every item has a description, the item array becomes the unescaped items; otherwise the loop stops at the first item without one, after unescaping that item's title, with later items untouched |
| Rss.UnescapeItemArray | internal/rss/rss.go:54-57 | the item loop in place: it stops at `FirstUndescribed`, with the items before it unescaped, that item's title unescaped and later items untouched; otherwise the array becomes the unescaped items |
| Rss.FirstUndescribedAt | internal/rss/rss.go:54-56 | an item without a description after described ones is where the loop stops |
| Rss.FetchFeed | internal/rss/rss.go:27-61 | any fetch or decode failure returns a fresh empty feed and that error; a document with every description present is returned unescaped; otherwise it panics |
| Dates.FirstMatch | cmd/gator/main.go:384-390 | the first layout that accepts the string: none exactly when all reject it, and all earlier layouts reject it |
| Dates.ParseDate | cmd/gator/main.go:375-393 | succeeds exactly when some layout accepts the string, with the time read by the first such layout in the order RFC1123, RFC1123Z, RFC3339, `2006-01-02`, `02 Jan 2006`; otherwise the "unfamiliar time format" error and the zero time |
| Dates.PublishedAt | cmd/gator/main.go:341-350 | a publication date is present exactly when the string is present, non-empty and accepted by some layout, and it is the first accepting layout's reading |
| Dates.FirstLayoutWins | cmd/gator/main.go:376-390 | a date RFC 1123 accepts is read by RFC 1123 whatever the later layouts say |
| Scrape.Batch | cmd/gator/main.go:332 | one post per item |
| Scrape.BuildPost | cmd/gator/main.go:332-361 | title, URL and feed id are copied; the description is kept exactly when present and non-empty; the publication date is present exactly when the string is present, non-empty and parses |
| Scrape.Ingest | cmd/gator/main.go:332-370 | stored posts are never changed; every new post comes from the batch; posts stay keyed by URL; success means every batch URL is stored; the only error that stops the loop is a non-duplicate store failure |
| Scrape.IngestIdempotent | cmd/gator/main.go:362-366 | running the insert loop again over the same items stores nothing new and ends the same way |
| Scrape.IngestAppend | cmd/gator/main.go:362-368 | the loop over `xs + ys` is the loop over `xs` followed, unless it failed, by the loop over `ys`: nothing after an error is inserted |
| Scrape.KnownUrlsAreNoop | cmd/gator/main.go:362-366 | items whose URLs are all stored change nothing and are not an error, as long as the store answers each of those inserts |
| Scrape.ScrapedTransitive | cmd/gator/main.go:194-196 | successive ticks together still only mark feeds and add posts |
| Scrape.MarkIsScrape | cmd/gator/main.go:322-326 | marking a feed fetched changes no feed's identity or URL and keeps the schema's constraints |
| Scrape.IngestIsScrape | cmd/gator/main.go:332-370 | the insert loop only adds posts and keeps the schema's constraints |
| Scrape.InsertPosts | cmd/gator/main.go:332-370 | the item loop leaves the post table and the error that `Ingest` gives for the posts built from the items, and changes no other table |
| Scrape.TickIsScrape | cmd/gator/main.go:317-373 | a tick, whatever step ends it, only marks feeds and adds posts, and keeps the schema's constraints |
| Scrape.TracePrefixScrapes | cmd/gator/main.go:192-196 | every prefix of a trace of ticks only marks feeds and adds posts |
| Scrape.TicksScrape | cmd/gator/main.go:192-196 | the whole run of the ticker loop only marks feeds and adds posts, and keeps the schema's constraints |
| Scrape.ScrapeFeeds | cmd/gator/main.go:317-373 | `Tick`, the whole new state: selection, then mark, then fetch; a failure at any step returns before any insert; the mark stays when the fetch fails; a panic inserts nothing; otherwise the posts are `Ingest` over the normalised items |
| Scrape.Aggregate | cmd/gator/main.go:192-196 | `Ticks`, the trace of the ticks run: tick `k` is a `Tick` at `clock(k)`, against the network as it answers on that tick, from the tables the previous one left; a failing tick does not stop the next; a loop that returns ran every tick; only a panic ends it early, as its last tick |
| Gator.Int32 | cmd/gator/main.go:290 | the result is in the `int32` range, congruent to the input modulo 2^32, and equal to it when it fits |
| Gator.BrowseLimit | cmd/gator/main.go:279-290 | never rejected for the number of arguments: any count but one means 2; the only error is a single non-integer argument; the limit is the argument converted to `int32` |
| Gator.HandlerLogin | cmd/gator/main.go:110-129 | `LoginSpec`: exactly one argument; an unknown user or a failed lookup is returned with nothing changed; otherwise the name becomes current |
| Gator.HandlerRegister | cmd/gator/main.go:131-155 | `RegisterSpec`: exactly one argument; a name found is "user already exists" with nothing changed; any failed lookup goes on to create the user, then set it current |
| Gator.HandlerReset | cmd/gator/main.go:157-164 | `ResetSpec`: the tables are emptied or, on failure, untouched |
| Gator.HandlerList | cmd/gator/main.go:166-179 | `users`, `feeds` and `following` only read: the result is the query's error |
| Gator.HandlerAgg | cmd/gator/main.go:181-198 | `AggEffect`: exactly one argument; an unparsable duration is an error, and a non-positive one panics in `NewTicker`; otherwise the tables go through a trace of ticks (`Ticks`) and the config is untouched |
| Gator.HandlerAddFeed | cmd/gator/main.go:200-216 | `AddFeedSpec`: exactly two arguments; the feed is created, then followed by its author; a failure of either returns at once |
| Gator.HandlerFollow | cmd/gator/main.go:229-246 | `FollowSpec`: exactly one argument; the feed is looked up by URL and the follow created |
| Gator.HandlerUnfollow | cmd/gator/main.go:260-276 | `UnfollowSpec`: exactly one argument; the feed is looked up by URL and the follow deleted |
| Gator.HandlerBrowse | cmd/gator/main.go:278-304 | the result is the posts query with `BrowseLimit`'s limit, or that function's error without a query |
| Gator.InvokeUserHandler | cmd/gator/main.go:312 | calls the wrapped handler with the given user, with the effect `UserHandlerSpec` gives |
| Gator.CallLoggedIn | cmd/gator/main.go:306-315 | `LoggedInSpec`: a failed lookup of the current user is returned and the handler is not called; otherwise the handler runs with exactly the user found |
| Gator.Invoke | cmd/gator/main.go:56 | a handler value called has the effect `Effect` assigns it |
| Gator.Commands.constructor | cmd/gator/main.go:83-84 | the registry starts empty |
| Gator.Commands.Register | cmd/gator/main.go:40-42 | the entry under the name is replaced by (handler, description), every other entry unchanged |
| Gator.Commands.Describe | cmd/gator/main.go:44-49 | `help` lists exactly the registered (name, description) pairs |
| Gator.Commands.Run | cmd/gator/main.go:51-58 | `help` returns nil and changes nothing whatever is registered; another registered name has its handler's effect; an unregistered name panics and changes nothing |
| Gator.Setup | cmd/gator/main.go:83-95 | the registry holds the eleven commands, with the five that need a user wrapped by the middleware |
| Gator.WrongArityChangesNothing | cmd/gator/main.go:110-263 | a wrong number of arguments to login, register, addfeed, follow or unfollow is a usage error before any store call (behind the middleware, the failed user lookup may be reported first) and changes nothing |
| Gator.MiddlewareResolvesUser | cmd/gator/main.go:306-315 | without a current user the middleware returns the lookup error and writes nothing; with one, it is the wrapped handler applied to exactly that user |
| Gator.HandlersKeepSchema | cmd/gator/main.go:110-304 | no handler but `agg` breaks the schema's constraints (unique names, ids, feed URLs, post URLs; every follow of a feed in the table) |
| Gator.RegisterKeepsSchema | cmd/gator/main.go:131-155 | `register` keeps the schema's constraints |
| Gator.AddFeedKeepsSchema | cmd/gator/main.go:200-216 | `addfeed` keeps the schema's constraints: the follow it adds is of the feed it just created |
| Gator.FollowKeepsSchema | cmd/gator/main.go:229-246 | `follow` keeps the schema's constraints: it only follows a feed it found in the table |
| Gator.UnfollowKeepsSchema | cmd/gator/main.go:260-276 | `unfollow` keeps the schema's constraints |
| Gator.RegisterThenLogin | cmd/gator/main.go:110-155 | a user who registers successfully is current and can log in |
| Gator.RegisterTwice | cmd/gator/main.go:136-141 | registering a taken name a second time reports that the user exists and changes nothing |
| Gator.AddFeedFollows | cmd/gator/main.go:204-214 | after a successful `addfeed` its author follows the feed, so `follow` of that URL is a unique violation that changes nothing |
| Gator.FollowUnfollow | cmd/gator/main.go:229-276 | `unfollow` of a URL undoes a successful `follow` of it |
| Gator.ResetForgetsUsers | cmd/gator/main.go:157-164 | after `reset` no name can log in, and ids keep counting |
| Gator.RegistryNames | cmd/gator/main.go:85-95 | `help` is never a registered name; the registered names are the eleven commands; exactly five are behind the middleware |
| GatorEarly.HandlerLogin | main.go:89-108 | only an empty argument list is rejected; the first argument is looked up and set current |
| GatorEarly.HandlerRegister | main.go:110-134 | only an empty argument list is rejected; a name found is "user already exists"; otherwise create, then set current |
| GatorEarly.HandlerAddFeed | main.go:170-185 | at least two arguments; the current user is looked up inline and a failed lookup creates nothing; the feed is created and nothing is followed |
| GatorEarly.HandlerAgg | main.go:160-168 | one fetch of the fixed URL: its error is returned, and an item without a description panics |
| GatorEarly.Invoke | main.go:38 | a handler value called has the effect `Effect` assigns it; `follow` does nothing |
| GatorEarly.Commands.constructor | main.go:65-66 | the registry starts empty |
| GatorEarly.Commands.Register | main.go:33-35 | the entry under the name is replaced, every other entry unchanged |
| GatorEarly.Commands.Run | main.go:36-40 | no `help` case: a registered name has its handler's effect, any other name panics and changes nothing |
| GatorEarly.Setup | main.go:65-74 | the registry holds the eight early commands |
| GatorEarly.LooserChecks | main.go:89-115 | early login and register use the first argument and ignore the rest; with one or more arguments they behave as the newer ones on the first argument alone |
| GatorEarly.RegisterExisting | main.go:116-120 | a registered name is reported as existing with nothing changed: neither `CreateUser` nor `SetUser` runs |
| GatorEarly.AddFeedNeverFollows | main.go:170-185 | early `addfeed` never creates a follow, and without a current user it creates no feed |
| GatorEarly.AddFeedAgainstNewer | main.go:170-185 | with the current user and two arguments, early and newer `addfeed` write the same feed; the newer one also adds its author's follow |
| GatorEarly.FollowIsNoop | main.go:198-200 | `follow` changes nothing and returns nil |
| GatorEarly.RegistryNames | main.go:67-74 | the eight early names; `following`, `unfollow`, `browse` and `help` are unregistered and panic |

## Left out

- internal/config/config.go: locating the home directory, JSON encoding, and reading and writing the file. Whether the write succeeds is the fixed flag `writable`. `Read` is not part of this model.
- The SQL queries of internal/database are not part of this model. The store gives each query its effect on the tables. Which feed `GetNextFeedToFetch` picks is left open: the least-recently-fetched order lives in SQL that is not shown. Foreign-key checks on follows and cascades are not modelled.
- Rows that are only printed are not modelled: user, feed and follow listings, and the posts `browse` reads. Those handlers' results are their queries' errors. All printing is left out, and so is the order in which `describe` iterates the map.
- Fresh ids and timestamps: user and feed ids come from a counter (`nextId`); post ids, follow ids (`uuid.New()` at cmd/gator/main.go:210 and 238), `created_at` and `updated_at` are dropped. A follow is its (user, feed) pair.
- The network request, the body read, `xml.Unmarshal`, and the semantics of `time.Parse`, `html.UnescapeString`, `time.ParseDuration` and `strconv.Atoi` are not modelled; they are parameters.
- Scrape.Aggregate: runs a given number of ticks (`Env.ticks`) and then returns nil. The Go ticker loop never returns; time between ticks is not modelled.
- Scrape.Aggregate: the network may answer differently on each tick (`Env.fetch` takes the tick), but the store's failing operations (`faults`) are the same on every tick, so a database outage that passes between ticks is not modelled. Faults belong to the connection here, which the whole run shares.
- `main()`'s argument and exit handling are not modelled. `Run` receives the command already split into a name and arguments.
- Rss.RssFeed.Unescape: Go writes through each item's `*string` description pointer. Here the description is a value in the item, so aliasing between items that share a pointer is not modelled.
- Database.PostsQueryResult: the rejection of a negative LIMIT with SQLSTATE 2201W is PostgreSQL's rule for `LIMIT`, assumed of the `GetPostsForUser` query, whose text is not part of this model.
- Gator.HandlerList and Gator.HandlerBrowse: state only the error, because the rows they print are not modelled.
