/** The command layer of cmd/gator/main.go: the registry of named handlers,
    `run` with its `help` case, the handlers with their argument checks, and
    `middlewareLoggedIn`, which resolves the current user before calling
    the handlers that need one.

    A Go handler is a function value; here it is a `HandlerFn`, and the
    closure `middlewareLoggedIn(h)` is the value `LoggedIn(h)`. What each
    handler does is given by a function on a snapshot of the database and
    the config (`Spec`), or for `agg` by a relation (`AggEffect`), and the
    imperative handlers are proved to do exactly that. */
module Gator {
  import opened Common
  import opened Database
  import Config
  import opened Scrape

  datatype Command = Command(name: string, args: seq<string>)

  /** The handlers that take the logged-in user as a third argument. */
  datatype UserHandler = AddFeed | Follow | Following | Unfollow | Browse

  /** A `func(*state, command) error`. */
  datatype HandlerFn = Login | Register | Reset | Users | Agg | Feeds | LoggedIn(wrapped: UserHandler)

  /** `middlewareLoggedIn(handler)`: the wrapped handler as a plain one. */
  function MiddlewareLoggedIn(h: UserHandler): (r: HandlerFn) {
    LoggedIn(h)
  }

  /** An entry of the registry: the function and its usage line. */
  datatype Handler = Handler(handler: HandlerFn, description: string)

  const LoginUsage := "usage: gator login <username>"
  const RegisterUsage := "usage: gator register <username>"
  const AggUsage := "usage: gator agg <time_between_reqs>"
  const AddFeedUsage := "usage: gator addfeed <feed name> <URL>"
  const FollowUsage := "usage: gator follow <url>"
  const UnfollowUsage := "usage: gator unfollow <feedURL>"
  const NonPositiveInterval := "non-positive interval for NewTicker"
  const DefaultLimit := 2

  /** What a handler can see and change: the tables, the current user name,
      and the fixed behaviour of the database and of the config file. */
  datatype World = World(db: Tables, username: string, faults: set<Op>, writable: bool)

  ghost function Snap(s: Store, cfg: Config.Config): (r: World)
    reads s, cfg
  {
    World(s.Contents(), cfg.username, s.faults, cfg.writable)
  }

  // ---------------------------------------------------------------------
  // Store and config writes, on snapshots
  // ---------------------------------------------------------------------

  function SetUserEffect(w: World, name: string): (r: (World, Option<Error>)) {
    (w.(username := name), if w.writable then None else Some(ConfigWriteFailure))
  }

  /** A store write applied to a snapshot. */
  function WithDb(w: World, write: (Tables, Option<Error>)): (r: (World, Option<Error>)) {
    (w.(db := write.0), write.1)
  }

  // ---------------------------------------------------------------------
  // The handlers, as functions on snapshots
  // ---------------------------------------------------------------------

  function LoginSpec(w: World, cmd: Command): (r: (World, Option<Error>)) {
    if |cmd.args| != 1 then (w, Some(Usage(LoginUsage)))
    else match UserLookup(w.db.users, w.faults, cmd.args[0])
      case Failure(e) => (w, Some(e))
      case Success(_) => SetUserEffect(w, cmd.args[0])
  }

  /** Any failure of the lookup, not only a missing row, lets the
      registration go on to `CreateUser`. */
  function RegisterSpec(w: World, cmd: Command): (r: (World, Option<Error>)) {
    if |cmd.args| != 1 then (w, Some(Usage(RegisterUsage)))
    else if UserLookup(w.db.users, w.faults, cmd.args[0]).Success? then (w, Some(UserExists))
    else match UserInsert(w.db, w.faults, cmd.args[0])
      case (t, Failure(e)) => (w.(db := t), Some(e))
      case (t, Success(_)) => SetUserEffect(w.(db := t), cmd.args[0])
  }

  function ResetSpec(w: World): (r: (World, Option<Error>)) {
    WithDb(w, Cleared(w.db, w.faults))
  }

  /** A listing handler (`users`, `feeds`, `following`): it only reads. */
  function ListSpec(w: World, op: Op): (r: (World, Option<Error>)) {
    (w, QueryResult(w.faults, op))
  }

  function AddFeedSpec(w: World, cmd: Command, user: User): (r: (World, Option<Error>)) {
    if |cmd.args| != 2 then (w, Some(Usage(AddFeedUsage)))
    else match FeedInsert(w.db, w.faults, cmd.args[0], cmd.args[1], user.id)
      case (t, Failure(e)) => (w.(db := t), Some(e))
      case (t, Success(f)) => WithDb(w, FollowInsert(t, w.faults, user.id, f.id))
  }

  function FollowSpec(w: World, cmd: Command, user: User): (r: (World, Option<Error>)) {
    if |cmd.args| != 1 then (w, Some(Usage(FollowUsage)))
    else match FeedLookup(w.db.feeds, w.faults, cmd.args[0])
      case Failure(e) => (w, Some(e))
      case Success(f) => WithDb(w, FollowInsert(w.db, w.faults, user.id, f.id))
  }

  function UnfollowSpec(w: World, cmd: Command, user: User): (r: (World, Option<Error>)) {
    if |cmd.args| != 1 then (w, Some(Usage(UnfollowUsage)))
    else match FeedLookup(w.db.feeds, w.faults, cmd.args[0])
      case Failure(e) => (w, Some(e))
      case Success(f) => WithDb(w, FollowDelete(w.db, w.faults, user.id, f.id))
  }

  /** Go's conversion of an `int` to `int32`: the value modulo 2^32, read
      as a signed number. */
  function Int32(x: int): (r: int)
    ensures -0x8000_0000 <= r < 0x8000_0000
    ensures (x - r) % 0x1_0000_0000 == 0
    ensures -0x8000_0000 <= x < 0x8000_0000 ==> r == x
  {
    var m := x % 0x1_0000_0000;
    if m >= 0x8000_0000 then m - 0x1_0000_0000 else m
  }

  /** The LIMIT of `browse`: never rejected for its number of arguments;
      anything but exactly one argument means 2, and a single argument
      that is not an integer is the only error. */
  function BrowseLimit(args: seq<string>, atoi: string -> Option<int>): (r: Result<int>)
    ensures |args| != 1 ==> r == Success(DefaultLimit)
    ensures r.Failure? <==> |args| == 1 && atoi(args[0]).None?
    ensures r.Failure? ==> r.error == LimitNotInteger
    ensures r.Success? ==> -0x8000_0000 <= r.value < 0x8000_0000
    ensures |args| == 1 && atoi(args[0]).Some? ==> (r.value - atoi(args[0]).value) % 0x1_0000_0000 == 0
  {
    if |args| != 1 then Success(DefaultLimit)
    else match atoi(args[0])
      case None => Failure(LimitNotInteger)
      case Some(limit) => Success(Int32(limit))
  }

  function BrowseSpec(w: World, cmd: Command, user: User, atoi: string -> Option<int>): (r: (World, Option<Error>)) {
    match BrowseLimit(cmd.args, atoi)
      case Failure(e) => (w, Some(e))
      case Success(limit) => (w, PostsQueryResult(w.faults, limit))
  }

  function UserHandlerSpec(h: UserHandler, w: World, cmd: Command, user: User, env: Env): (r: (World, Option<Error>)) {
    match h
      case AddFeed => AddFeedSpec(w, cmd, user)
      case Follow => FollowSpec(w, cmd, user)
      case Following => ListSpec(w, GetFeedFollowsOp)
      case Unfollow => UnfollowSpec(w, cmd, user)
      case Browse => BrowseSpec(w, cmd, user, env.atoi)
  }

  /** The closure `middlewareLoggedIn(h)`: the current user is looked up;
      a failed lookup is the result and `h` is not called; otherwise `h`
      runs with exactly the user found. */
  function LoggedInSpec(h: UserHandler, w: World, cmd: Command, env: Env): (r: (World, Option<Error>)) {
    match UserLookup(w.db.users, w.faults, w.username)
      case Failure(e) => (w, Some(e))
      case Success(user) => UserHandlerSpec(h, w, cmd, user, env)
  }

  /** Every handler but `agg` as a function on snapshots. */
  function Spec(fn: HandlerFn, w: World, cmd: Command, env: Env): (r: (World, Option<Error>))
    requires !fn.Agg?
  {
    match fn
      case Login => LoginSpec(w, cmd)
      case Register => RegisterSpec(w, cmd)
      case Reset => ResetSpec(w)
      case Users => ListSpec(w, GetUsersOp)
      case Feeds => ListSpec(w, GetFeedsOp)
      case LoggedIn(h) => LoggedInSpec(h, w, cmd, env)
  }

  /** `agg`: after the argument check and the interval check, a trace of
      ticks in which a failing tick does not stop the next one; only a
      panic ends them early. */
  ghost predicate AggEffect(before: World, after: World, cmd: Command, env: Env, out: Outcome) {
    if |cmd.args| != 1 then after == before && out == Return(Some(Usage(AggUsage)))
    else if env.parseDuration(cmd.args[0]).None? then after == before && out == Return(Some(BadDuration))
    else if env.parseDuration(cmd.args[0]).value <= 0 then after == before && out == Panic(NonPositiveInterval)
    else
      && (out == Return(None) || out == Panic(NilDereference))
      && after.username == before.username && after.faults == before.faults && after.writable == before.writable
      && (exists states, picks, outs :: Ticks(before.db, after.db, before.faults, env, states, picks, outs, out))
      && Scraped(before.db, after.db)
      && (WellFormed(before.db) ==> WellFormed(after.db))
  }

  ghost predicate Effect(fn: HandlerFn, before: World, after: World, cmd: Command, env: Env, out: Outcome) {
    if fn.Agg? then AggEffect(before, after, cmd, env, out)
    else out.Return? && (after, out.err) == Spec(fn, before, cmd, env)
  }

  // ---------------------------------------------------------------------
  // The handlers
  // ---------------------------------------------------------------------

  method HandlerLogin(s: Store, cfg: Config.Config, cmd: Command) returns (err: Option<Error>)
    modifies cfg
    ensures (Snap(s, cfg), err) == LoginSpec(old(Snap(s, cfg)), cmd)
  {
    if |cmd.args| != 1 {
      return Some(Usage(LoginUsage));
    }
    var name := cmd.args[0];
    var u := s.GetUser(name);
    if u.Failure? {
      return Some(u.error);
    }
    err := cfg.SetUser(name);
  }

  method HandlerRegister(s: Store, cfg: Config.Config, cmd: Command) returns (err: Option<Error>)
    modifies s, cfg
    ensures (Snap(s, cfg), err) == RegisterSpec(old(Snap(s, cfg)), cmd)
  {
    if |cmd.args| != 1 {
      return Some(Usage(RegisterUsage));
    }
    var name := cmd.args[0];
    var existing := s.GetUser(name);
    if existing.Success? {
      return Some(UserExists);
    }
    var user := s.CreateUser(name);
    if user.Failure? {
      return Some(user.error);
    }
    err := cfg.SetUser(name);
  }

  method HandlerReset(s: Store, cfg: Config.Config) returns (err: Option<Error>)
    modifies s
    ensures (Snap(s, cfg), err) == ResetSpec(old(Snap(s, cfg)))
  {
    err := s.Reset();
  }

  /** `handlerUsers`, `handlerFeeds` and `handlerFollowing`: one query whose
      rows are printed. */
  method HandlerList(s: Store, cfg: Config.Config, op: Op) returns (err: Option<Error>)
    ensures err == QueryResult(s.faults, op)
  {
    err := s.Query(op);
  }

  method HandlerAgg(s: Store, cfg: Config.Config, cmd: Command, env: Env) returns (out: Outcome)
    modifies s
    ensures AggEffect(old(Snap(s, cfg)), Snap(s, cfg), cmd, env, out)
  {
    if |cmd.args| != 1 {
      return Return(Some(Usage(AggUsage)));
    }
    var delta := env.parseDuration(cmd.args[0]);
    if delta.None? {
      return Return(Some(BadDuration));
    }
    if delta.value <= 0 {
      return Panic(NonPositiveInterval);
    }
    var _, o, states, picks, outs := Aggregate(s, env);
    out := o;
    assert Ticks(old(s.Contents()), s.Contents(), s.faults, env, states, picks, outs, out);
  }

  method HandlerAddFeed(s: Store, cfg: Config.Config, cmd: Command, user: User) returns (err: Option<Error>)
    modifies s
    ensures (Snap(s, cfg), err) == AddFeedSpec(old(Snap(s, cfg)), cmd, user)
  {
    if |cmd.args| != 2 {
      return Some(Usage(AddFeedUsage));
    }
    var feed := s.CreateFeed(cmd.args[0], cmd.args[1], user.id);
    if feed.Failure? {
      return Some(feed.error);
    }
    err := s.CreateFeedFollow(user.id, feed.value.id);
  }

  method HandlerFollow(s: Store, cfg: Config.Config, cmd: Command, user: User) returns (err: Option<Error>)
    modifies s
    ensures (Snap(s, cfg), err) == FollowSpec(old(Snap(s, cfg)), cmd, user)
  {
    if |cmd.args| != 1 {
      return Some(Usage(FollowUsage));
    }
    var feed := s.GetFeedByUrl(cmd.args[0]);
    if feed.Failure? {
      return Some(feed.error);
    }
    err := s.CreateFeedFollow(user.id, feed.value.id);
  }

  method HandlerUnfollow(s: Store, cfg: Config.Config, cmd: Command, user: User) returns (err: Option<Error>)
    modifies s
    ensures (Snap(s, cfg), err) == UnfollowSpec(old(Snap(s, cfg)), cmd, user)
  {
    if |cmd.args| != 1 {
      return Some(Usage(UnfollowUsage));
    }
    var feed := s.GetFeedByUrl(cmd.args[0]);
    if feed.Failure? {
      return Some(feed.error);
    }
    err := s.DeleteFeedFollow(user.id, feed.value.id);
  }

  method HandlerBrowse(s: Store, cfg: Config.Config, cmd: Command, user: User, atoi: string -> Option<int>)
    returns (err: Option<Error>)
    ensures err == BrowseSpec(Snap(s, cfg), cmd, user, atoi).1
  {
    var limit: int;
    if |cmd.args| != 1 {
      limit := DefaultLimit;
    } else {
      var n := atoi(cmd.args[0]);
      if n.None? {
        return Some(LimitNotInteger);
      }
      limit := n.value;
    }
    err := s.GetPostsForUser(user.id, Int32(limit));
  }

  method InvokeUserHandler(h: UserHandler, s: Store, cfg: Config.Config, cmd: Command, user: User, env: Env)
    returns (err: Option<Error>)
    modifies s
    ensures (Snap(s, cfg), err) == UserHandlerSpec(h, old(Snap(s, cfg)), cmd, user, env)
  {
    match h
    case AddFeed => err := HandlerAddFeed(s, cfg, cmd, user);
    case Follow => err := HandlerFollow(s, cfg, cmd, user);
    case Following => err := HandlerList(s, cfg, GetFeedFollowsOp);
    case Unfollow => err := HandlerUnfollow(s, cfg, cmd, user);
    case Browse => err := HandlerBrowse(s, cfg, cmd, user, env.atoi);
  }

  /** The closure returned by `middlewareLoggedIn(h)`, called. */
  method CallLoggedIn(h: UserHandler, s: Store, cfg: Config.Config, cmd: Command, env: Env)
    returns (err: Option<Error>)
    modifies s
    ensures (Snap(s, cfg), err) == LoggedInSpec(h, old(Snap(s, cfg)), cmd, env)
  {
    var user := s.GetUser(cfg.username);
    if user.Failure? {
      return Some(user.error);
    }
    err := InvokeUserHandler(h, s, cfg, cmd, user.value, env);
  }

  /** Calls a handler value. */
  method Invoke(fn: HandlerFn, s: Store, cfg: Config.Config, cmd: Command, env: Env) returns (out: Outcome)
    modifies s, cfg
    ensures Effect(fn, old(Snap(s, cfg)), Snap(s, cfg), cmd, env, out)
  {
    if fn.Agg? {
      out := HandlerAgg(s, cfg, cmd, env);
      return;
    }
    var err: Option<Error>;
    match fn {
      case Login => err := HandlerLogin(s, cfg, cmd);
      case Register => err := HandlerRegister(s, cfg, cmd);
      case Reset => err := HandlerReset(s, cfg);
      case Users => err := HandlerList(s, cfg, GetUsersOp);
      case Feeds => err := HandlerList(s, cfg, GetFeedsOp);
      case LoggedIn(h) => err := CallLoggedIn(h, s, cfg, cmd, env);
    }
    out := Return(err);
  }

  /** The registry `main` builds, in the order of its registrations. */
  const Registry: map<string, Handler> := map[]
    ["login" := Handler(Login, "gator login <user_name>")]
    ["register" := Handler(Register, "gator register <user_name>")]
    ["reset" := Handler(Reset, "gator reset")]
    ["users" := Handler(Users, "gator users")]
    ["agg" := Handler(Agg, "gator agg <duration>")]
    ["addfeed" := Handler(LoggedIn(AddFeed), "gator addfeed <feed> <url>")]
    ["feeds" := Handler(Feeds, "gator feeds")]
    ["follow" := Handler(LoggedIn(UserHandler.Follow), "gator follow <url>")]
    ["following" := Handler(LoggedIn(Following), "gator following")]
    ["unfollow" := Handler(LoggedIn(Unfollow), "gator unfollow <url>")]
    ["browse" := Handler(LoggedIn(Browse), "gator browse <limit>")]

  class Commands {
    var handler: map<string, Handler>

    constructor ()
      ensures handler == map[]
    {
      handler := map[];
    }

    /** `register`: the entry under `name` is replaced, every other entry
        stays. */
    method Register(name: string, f: HandlerFn, d: string)
      modifies this
      ensures handler == old(handler)[name := Handler(f, d)]
    {
      handler := handler[name := Handler(f, d)];
    }

    /** The lines `describe` prints, in no particular order. */
    function Describe(): (lines: set<(string, string)>)
      reads this
      ensures forall n, d :: (n, d) in lines <==> n in handler && handler[n].description == d
    {
      set n | n in handler :: (n, handler[n].description)
    }

    /** `run`: `help` is answered by `describe` whatever the registry holds;
        any other name calls its registered handler, and a name that is not
        registered calls a nil function. */
    method Run(s: Store, cfg: Config.Config, cmd: Command, env: Env) returns (out: Outcome)
      modifies s, cfg
      ensures cmd.name == "help" ==> out == Return(None) && Snap(s, cfg) == old(Snap(s, cfg))
      ensures cmd.name != "help" && cmd.name !in handler ==>
        out == Panic(NilFunctionCall) && Snap(s, cfg) == old(Snap(s, cfg))
      ensures cmd.name != "help" && cmd.name in handler ==>
        Effect(handler[cmd.name].handler, old(Snap(s, cfg)), Snap(s, cfg), cmd, env, out)
    {
      if cmd.name == "help" {
        return Return(None);
      }
      if cmd.name !in handler {
        return Panic(NilFunctionCall);
      }
      out := Invoke(handler[cmd.name].handler, s, cfg, cmd, env);
    }
  }

  /** The registrations `main` makes. */
  method Setup() returns (cmds: Commands)
    ensures fresh(cmds) && cmds.handler == Registry
  {
    cmds := new Commands();
    cmds.Register("login", Login, "gator login <user_name>");
    cmds.Register("register", Register, "gator register <user_name>");
    cmds.Register("reset", Reset, "gator reset");
    cmds.Register("users", Users, "gator users");
    cmds.Register("agg", Agg, "gator agg <duration>");
    cmds.Register("addfeed", MiddlewareLoggedIn(AddFeed), "gator addfeed <feed> <url>");
    cmds.Register("feeds", Feeds, "gator feeds");
    cmds.Register("follow", MiddlewareLoggedIn(UserHandler.Follow), "gator follow <url>");
    cmds.Register("following", MiddlewareLoggedIn(Following), "gator following");
    cmds.Register("unfollow", MiddlewareLoggedIn(Unfollow), "gator unfollow <url>");
    cmds.Register("browse", MiddlewareLoggedIn(Browse), "gator browse <limit>");
  }

  // ---------------------------------------------------------------------
  // Properties of the handlers
  // ---------------------------------------------------------------------

  /** The number of arguments a handler insists on, if any. */
  function Arity(fn: HandlerFn): (r: Option<nat>) {
    match fn
      case Login => Some(1)
      case Register => Some(1)
      case Agg => Some(1)
      case LoggedIn(AddFeed) => Some(2)
      case LoggedIn(Follow) => Some(1)
      case LoggedIn(Unfollow) => Some(1)
      case _ => None
  }

  /** A wrong number of arguments is rejected with a usage error before any
      store call; under the middleware the user lookup comes first, and
      its failure is reported instead. Either way nothing changes. */
  lemma WrongArityChangesNothing(fn: HandlerFn, w: World, cmd: Command, env: Env)
    requires !fn.Agg? && Arity(fn).Some? && |cmd.args| != Arity(fn).value
    ensures Spec(fn, w, cmd, env).0 == w
    ensures !fn.LoggedIn? ==> Spec(fn, w, cmd, env).1.value.Usage?
    ensures fn.LoggedIn? ==>
      Spec(fn, w, cmd, env).1.value.Usage? || UserLookup(w.db.users, w.faults, w.username).Failure?
  {
  }

  /** `middlewareLoggedIn`: without a current user nothing is written and
      the lookup's error is returned; with one, the wrapped handler runs
      with exactly that user. */
  lemma MiddlewareResolvesUser(h: UserHandler, w: World, cmd: Command, env: Env)
    ensures UserLookup(w.db.users, w.faults, w.username).Failure? ==>
      LoggedInSpec(h, w, cmd, env) == (w, Some(UserLookup(w.db.users, w.faults, w.username).error))
    ensures UserLookup(w.db.users, w.faults, w.username).Success? ==>
      LoggedInSpec(h, w, cmd, env) == UserHandlerSpec(h, w, cmd, w.db.users[w.username], env)
  {
  }

  /** No handler other than `agg` breaks the constraints of the schema. */
  lemma {:induction false} HandlersKeepSchema(fn: HandlerFn, w: World, cmd: Command, env: Env)
    requires !fn.Agg? && WellFormed(w.db)
    ensures WellFormed(Spec(fn, w, cmd, env).0.db)
  {
    match fn
    case Register => RegisterKeepsSchema(w, cmd);
    case Reset => ClearedKeepsSchema(w.db, w.faults);
    case LoggedIn(h) =>
      var u := UserLookup(w.db.users, w.faults, w.username);
      if u.Success? {
        match h
        case AddFeed => AddFeedKeepsSchema(w, cmd, u.value);
        case Follow => FollowKeepsSchema(w, cmd, u.value);
        case Unfollow => UnfollowKeepsSchema(w, cmd, u.value);
        case _ =>
      }
    case _ =>
  }

  lemma RegisterKeepsSchema(w: World, cmd: Command)
    requires WellFormed(w.db)
    ensures WellFormed(RegisterSpec(w, cmd).0.db)
  {
  }

  lemma AddFeedKeepsSchema(w: World, cmd: Command, user: User)
    requires WellFormed(w.db)
    ensures WellFormed(AddFeedSpec(w, cmd, user).0.db)
  {
    if |cmd.args| == 2 {
      FeedInsertKeepsSchema(w.db, w.faults, cmd.args[0], cmd.args[1], user.id);
      var (t, r) := FeedInsert(w.db, w.faults, cmd.args[0], cmd.args[1], user.id);
      if r.Success? {
        FollowInsertKeepsSchema(t, w.faults, user.id, r.value.id);
      }
    }
  }

  /** `follow` only adds a follow of a feed it found in the table. */
  lemma FollowKeepsSchema(w: World, cmd: Command, user: User)
    requires WellFormed(w.db)
    ensures WellFormed(FollowSpec(w, cmd, user).0.db)
  {
    if |cmd.args| == 1 {
      var r := FeedLookup(w.db.feeds, w.faults, cmd.args[0]);
      if r.Success? {
        FollowInsertKeepsSchema(w.db, w.faults, user.id, r.value.id);
      }
    }
  }

  lemma UnfollowKeepsSchema(w: World, cmd: Command, user: User)
    requires WellFormed(w.db)
    ensures WellFormed(UnfollowSpec(w, cmd, user).0.db)
  {
    if |cmd.args| == 1 {
      var r := FeedLookup(w.db.feeds, w.faults, cmd.args[0]);
      if r.Success? {
        FollowDeleteKeepsSchema(w.db, w.faults, user.id, r.value.id);
      }
    }
  }

  /** A user who registers successfully can then log in. */
  lemma RegisterThenLogin(w: World, name: string)
    requires GetUserOp !in w.faults
    requires RegisterSpec(w, Command("register", [name])).1.None?
    ensures var w' := RegisterSpec(w, Command("register", [name])).0;
      w'.username == name && LoginSpec(w', Command("login", [name])) == (w', None)
  {
  }

  /** Registration does not happen twice: once a name is taken, a second
      registration of it reports that the user exists and changes nothing. */
  lemma RegisterTwice(w: World, name: string)
    requires GetUserOp !in w.faults && CreateUserOp !in w.faults
    ensures var w' := RegisterSpec(w, Command("register", [name])).0;
      name in w'.db.users &&
      RegisterSpec(w', Command("register", [name])) == (w', Some(UserExists))
  {
  }

  /** After `addfeed` succeeds, its author follows the new feed: a `follow`
      of the same URL is a unique violation and leaves the tables as they
      are. */
  lemma AddFeedFollows(w: World, cmd: Command, user: User)
    requires GetFeedByUrlOp !in w.faults && CreateFeedFollowOp !in w.faults
    requires AddFeedSpec(w, cmd, user).1.None?
    ensures var w' := AddFeedSpec(w, cmd, user).0;
      && FeedLookup(w'.db.feeds, w'.faults, cmd.args[1]).Success?
      && Database.Follow.Follow(user.id, FeedLookup(w'.db.feeds, w'.faults, cmd.args[1]).value.id) in w'.db.follows
      && FollowSpec(w', Command("follow", [cmd.args[1]]), user) == (w', Some(PqError(UniqueViolation)))
  {
    var f := Feed(w.db.nextId, cmd.args[0], cmd.args[1], user.id, None);
    var feeds := w.db.feeds + [f];
    assert feeds[|w.db.feeds|] == f;
  }

  /** `unfollow` undoes a successful `follow`. */
  lemma FollowUnfollow(w: World, url: string, user: User)
    requires GetFeedByUrlOp !in w.faults && DeleteFeedFollowOp !in w.faults
    requires FollowSpec(w, Command("follow", [url]), user).1.None?
    ensures var w' := FollowSpec(w, Command("follow", [url]), user).0;
      UnfollowSpec(w', Command("unfollow", [url]), user) == (w, None)
  {
  }

  /** After `reset` nobody can log in, and the id counter keeps counting. */
  lemma ResetForgetsUsers(w: World, name: string)
    requires ResetOp !in w.faults && GetUserOp !in w.faults
    ensures var w' := ResetSpec(w).0;
      w'.db.nextId == w.db.nextId && LoginSpec(w', Command("login", [name])) == (w', Some(NoRows))
  {
  }

  /** `help` is not a registered name, so it can never be shadowed by a
      handler, and every registered name is one `main` registers. */
  lemma RegistryNames()
    ensures "help" !in Registry
    ensures Registry.Keys ==
      {"login", "register", "reset", "users", "agg", "addfeed", "feeds", "follow", "following", "unfollow", "browse"}
    ensures forall n :: n in Registry && Registry[n].handler.LoggedIn? <==>
      n in {"addfeed", "follow", "following", "unfollow", "browse"}
  {
  }
}
