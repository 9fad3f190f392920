/** The earlier command layer in main.go: the same map-based registry
    without descriptions and without `help`, login and register that only
    reject an empty argument list, an `addfeed` that looks the current user
    up itself and follows nothing, a `follow` that does nothing, and an
    `agg` that fetches one fixed feed. The snapshots and the shared
    handlers (`reset`, `users`, `feeds`) come from the newer layer. */
module GatorEarly {
  import opened Common
  import opened Database
  import Config
  import Rss
  import G = Gator
  import Scrape

  datatype HandlerFn = Login | Register | Reset | Users | Agg | AddFeed | Feeds | Follow

  /** The one feed the early `agg` reads. */
  const AggUrl := "https://www.wagslane.dev/index.xml"

  function LoginSpec(w: G.World, cmd: G.Command): (r: (G.World, Option<Error>)) {
    if |cmd.args| == 0 then (w, Some(Usage(G.LoginUsage)))
    else match UserLookup(w.db.users, w.faults, cmd.args[0])
      case Failure(e) => (w, Some(e))
      case Success(_) => G.SetUserEffect(w, cmd.args[0])
  }

  function RegisterSpec(w: G.World, cmd: G.Command): (r: (G.World, Option<Error>)) {
    if |cmd.args| == 0 then (w, Some(Usage(G.RegisterUsage)))
    else if UserLookup(w.db.users, w.faults, cmd.args[0]).Success? then (w, Some(UserExists))
    else match UserInsert(w.db, w.faults, cmd.args[0])
      case (t, Failure(e)) => (w.(db := t), Some(e))
      case (t, Success(_)) => G.SetUserEffect(w.(db := t), cmd.args[0])
  }

  function AddFeedSpec(w: G.World, cmd: G.Command): (r: (G.World, Option<Error>)) {
    if |cmd.args| < 2 then (w, Some(Usage(G.AddFeedUsage)))
    else match UserLookup(w.db.users, w.faults, w.username)
      case Failure(e) => (w, Some(e))
      case Success(user) =>
        match FeedInsert(w.db, w.faults, cmd.args[0], cmd.args[1], user.id)
          case (t, Failure(e)) => (w.(db := t), Some(e))
          case (t, Success(_)) => (w.(db := t), None)
  }

  /** Every handler but `agg`, which reads the network. */
  function Spec(fn: HandlerFn, w: G.World, cmd: G.Command): (r: (G.World, Option<Error>))
    requires !fn.Agg?
  {
    match fn
      case Login => LoginSpec(w, cmd)
      case Register => RegisterSpec(w, cmd)
      case Reset => G.ResetSpec(w)
      case Users => G.ListSpec(w, GetUsersOp)
      case Feeds => G.ListSpec(w, GetFeedsOp)
      case AddFeed => AddFeedSpec(w, cmd)
      case Follow => (w, None)
  }

  /** `agg`: one fetch of `AggUrl`; the tables are not touched, the fetch
      error is returned, and an item without a description panics. */
  ghost predicate AggEffect(before: G.World, after: G.World, fetch: string -> Result<Rss.Channel>, out: Outcome) {
    && after == before
    && (fetch(AggUrl).Failure? ==> out == Return(Some(fetch(AggUrl).error)))
    && (fetch(AggUrl).Success? && Rss.Described(fetch(AggUrl).value.items) ==> out == Return(None))
    && (fetch(AggUrl).Success? && !Rss.Described(fetch(AggUrl).value.items) ==> out == Panic(NilDereference))
  }

  ghost predicate Effect(fn: HandlerFn, before: G.World, after: G.World, cmd: G.Command,
                         fetch: string -> Result<Rss.Channel>, out: Outcome) {
    if fn.Agg? then AggEffect(before, after, fetch, out)
    else out.Return? && (after, out.err) == Spec(fn, before, cmd)
  }

  method HandlerLogin(s: Store, cfg: Config.Config, cmd: G.Command) returns (err: Option<Error>)
    modifies cfg
    ensures (G.Snap(s, cfg), err) == LoginSpec(old(G.Snap(s, cfg)), cmd)
  {
    if |cmd.args| == 0 {
      return Some(Usage(G.LoginUsage));
    }
    var name := cmd.args[0];
    var u := s.GetUser(name);
    if u.Failure? {
      return Some(u.error);
    }
    err := cfg.SetUser(name);
  }

  method HandlerRegister(s: Store, cfg: Config.Config, cmd: G.Command) returns (err: Option<Error>)
    modifies s, cfg
    ensures (G.Snap(s, cfg), err) == RegisterSpec(old(G.Snap(s, cfg)), cmd)
  {
    if |cmd.args| == 0 {
      return Some(Usage(G.RegisterUsage));
    }
    var name := cmd.args[0];
    var existing := s.GetUser(name);
    if existing.Success? {
      return Some(UserExists);
    }
    var user := s.CreateUser(name);
    if user.Failure? {
      return Some(user.error);
    }
    err := cfg.SetUser(name);
  }

  method HandlerAddFeed(s: Store, cfg: Config.Config, cmd: G.Command) returns (err: Option<Error>)
    modifies s
    ensures (G.Snap(s, cfg), err) == AddFeedSpec(old(G.Snap(s, cfg)), cmd)
  {
    if |cmd.args| < 2 {
      return Some(Usage(G.AddFeedUsage));
    }
    var user := s.GetUser(cfg.username);
    if user.Failure? {
      return Some(user.error);
    }
    var feed := s.CreateFeed(cmd.args[0], cmd.args[1], user.value.id);
    if feed.Failure? {
      return Some(feed.error);
    }
    err := None;
  }

  method HandlerAgg(fetch: string -> Result<Rss.Channel>, unescape: string -> string) returns (out: Outcome)
    ensures fetch(AggUrl).Failure? ==> out == Return(Some(fetch(AggUrl).error))
    ensures fetch(AggUrl).Success? && Rss.Described(fetch(AggUrl).value.items) ==> out == Return(None)
    ensures fetch(AggUrl).Success? && !Rss.Described(fetch(AggUrl).value.items) ==> out == Panic(NilDereference)
  {
    var _, o := Rss.FetchFeed(fetch(AggUrl), unescape);
    out := o;
  }

  method Invoke(fn: HandlerFn, s: Store, cfg: Config.Config, cmd: G.Command,
                fetch: string -> Result<Rss.Channel>, unescape: string -> string) returns (out: Outcome)
    modifies s, cfg
    ensures Effect(fn, old(G.Snap(s, cfg)), G.Snap(s, cfg), cmd, fetch, out)
  {
    if fn.Agg? {
      out := HandlerAgg(fetch, unescape);
      return;
    }
    var err: Option<Error>;
    match fn {
      case Login => err := HandlerLogin(s, cfg, cmd);
      case Register => err := HandlerRegister(s, cfg, cmd);
      case Reset => err := G.HandlerReset(s, cfg);
      case Users => err := G.HandlerList(s, cfg, GetUsersOp);
      case Feeds => err := G.HandlerList(s, cfg, GetFeedsOp);
      case AddFeed => err := HandlerAddFeed(s, cfg, cmd);
      case Follow => err := None;
    }
    out := Return(err);
  }

  /** The registry `main` builds. */
  const Registry: map<string, HandlerFn> := map[]
    ["login" := Login]
    ["register" := Register]
    ["reset" := Reset]
    ["users" := Users]
    ["agg" := Agg]
    ["addfeed" := AddFeed]
    ["feeds" := Feeds]
    ["follow" := HandlerFn.Follow]

  class Commands {
    var handler: map<string, HandlerFn>

    constructor ()
      ensures handler == map[]
    {
      handler := map[];
    }

    method Register(name: string, f: HandlerFn)
      modifies this
      ensures handler == old(handler)[name := f]
    {
      handler := handler[name := f];
    }

    /** `run`: straight to the map; `help` is an ordinary, unregistered
        name, and an unregistered name calls a nil function. */
    method Run(s: Store, cfg: Config.Config, cmd: G.Command,
               fetch: string -> Result<Rss.Channel>, unescape: string -> string) returns (out: Outcome)
      modifies s, cfg
      ensures cmd.name !in handler ==> out == Panic(NilFunctionCall) && G.Snap(s, cfg) == old(G.Snap(s, cfg))
      ensures cmd.name in handler ==> Effect(handler[cmd.name], old(G.Snap(s, cfg)), G.Snap(s, cfg), cmd, fetch, out)
    {
      if cmd.name !in handler {
        return Panic(NilFunctionCall);
      }
      out := Invoke(handler[cmd.name], s, cfg, cmd, fetch, unescape);
    }
  }

  method Setup() returns (cmds: Commands)
    ensures fresh(cmds) && cmds.handler == Registry
  {
    cmds := new Commands();
    cmds.Register("login", Login);
    cmds.Register("register", Register);
    cmds.Register("reset", Reset);
    cmds.Register("users", Users);
    cmds.Register("agg", Agg);
    cmds.Register("addfeed", AddFeed);
    cmds.Register("feeds", Feeds);
    cmds.Register("follow", HandlerFn.Follow);
  }

  // ---------------------------------------------------------------------
  // The early layer against the newer one
  // ---------------------------------------------------------------------

  /** Early login and register use the first argument and ignore the rest:
      with at least one argument they behave as the newer handlers do on
      that argument alone; only an empty list is rejected. */
  lemma LooserChecks(w: G.World, cmd: G.Command)
    ensures |cmd.args| == 0 ==> LoginSpec(w, cmd) == G.LoginSpec(w, cmd) && RegisterSpec(w, cmd) == G.RegisterSpec(w, cmd)
    ensures |cmd.args| >= 1 ==>
      && LoginSpec(w, cmd) == G.LoginSpec(w, G.Command(cmd.name, [cmd.args[0]]))
      && RegisterSpec(w, cmd) == G.RegisterSpec(w, G.Command(cmd.name, [cmd.args[0]]))
  {
  }

  /** An existing user is reported and neither the tables nor the current
      user change. */
  lemma RegisterExisting(w: G.World, cmd: G.Command)
    requires |cmd.args| >= 1 && GetUserOp !in w.faults && cmd.args[0] in w.db.users
    ensures RegisterSpec(w, cmd) == (w, Some(UserExists))
  {
  }

  /** Early `addfeed` never creates a follow, and without a current user it
      creates no feed either. */
  lemma AddFeedNeverFollows(w: G.World, cmd: G.Command)
    ensures AddFeedSpec(w, cmd).0.db.follows == w.db.follows
    ensures AddFeedSpec(w, cmd).0.username == w.username
    ensures UserLookup(w.db.users, w.faults, w.username).Failure? ==> AddFeedSpec(w, cmd).0 == w
  {
  }

  /** With the logged-in user and exactly two arguments, early `addfeed`
      writes the same feed as the newer one; the newer one then also
      follows it. */
  lemma AddFeedAgainstNewer(w: G.World, cmd: G.Command, env: Scrape.Env)
    requires |cmd.args| == 2 && UserLookup(w.db.users, w.faults, w.username).Success?
    requires WellFormed(w.db) && AddFeedSpec(w, cmd).1.None? && CreateFeedFollowOp !in w.faults
    ensures var newer := G.LoggedInSpec(G.AddFeed, w, cmd, env);
      && newer.1.None?
      && newer.0 == AddFeedSpec(w, cmd).0.(db := AddFeedSpec(w, cmd).0.db.(follows :=
           w.db.follows + {Database.Follow.Follow(w.db.users[w.username].id, w.db.nextId)}))
  {
  }

  /** Early `follow` does nothing and never fails. */
  lemma FollowIsNoop(w: G.World, cmd: G.Command)
    ensures Spec(HandlerFn.Follow, w, cmd) == (w, None)
  {
  }

  /** Every name the newer layer added (`following`, `unfollow`, `browse`)
      and `help` are unregistered here, so running them panics. */
  lemma RegistryNames()
    ensures Registry.Keys == {"login", "register", "reset", "users", "agg", "addfeed", "feeds", "follow"}
    ensures forall n :: n in G.Registry && n !in Registry ==> n in {"following", "unfollow", "browse"}
    ensures "help" !in Registry
  {
  }
}
