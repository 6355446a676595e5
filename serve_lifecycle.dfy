/**
 * The `serve` command as a whole: create the temp site directory, load the
 * configuration, fire `startup`, then inside the outer try build, construct
 * the preview server, register watches (live mode), fire `serve`, run the
 * serve loop; the finally clause of that try fires `shutdown` and then,
 * unless it raises, removes the directory if it still exists.
 *
 * Everything the command asks of the outside world is an oracle in `Env`.
 * `Lifecycle` is the reference definition of the run as a value; `Serve` is
 * the command itself, step by step over the mutable configuration.
 */
module ServeLifecycle {
  import opened Wrappers
  import opened ServeHelpers
  import opened ServeTrace
  import opened ServeState

  /** The arguments of serve() that this model uses. */
  datatype Args = Args(livereload: string, watchTheme: bool, watch: seq<string>)

  /** What each call into the outside world returns (None: returns normally; Some(e): raises e). */
  datatype Env = Env(
    tempDir: string,                        // tempfile.mkdtemp
    load: Result<LoadedConfig, Exc>,        // load_config, validated
    startup: Option<Exc>,                   // the `startup` plugin event
    build: Option<Exc>,                     // build()
    constructed: Handle,                    // the new LiveReloadServer
    construct: Option<Exc>,                 // LiveReloadServer(...), e.g. the port is taken
    serveEvent: Result<Handle, Exc>,        // the `serve` plugin event
    serve: Option<Exc>,                     // server.serve()
    shutdownEvent: Option<Exc>,             // the `shutdown` plugin event
    siteDirPresent: bool)                   // isdir(site_dir) at teardown

  /** A stretch of the run: what it did, which server it leaves current, and what it raised. */
  datatype Stage = Stage(actions: seq<Action>, server: Handle, raised: Option<Exc>)

  datatype Session = Session(trace: seq<Action>, outcome: Outcome)

  /** server.watch(p) on `server` for each path p, in order. */
  function WatchAll(paths: seq<string>, server: Handle): seq<Action> {
    seq(|paths|, i requires 0 <= i < |paths| => Watch(paths[i], server))
  }

  /** Live mode only: core watches, the `serve` event, then the merged watch list on its result. */
  function Registration(args: Args, data: ConfigData, env: Env): Stage {
    var s0 := env.constructed;
    if !LiveServer(args.livereload) then Stage([], s0, None)
    else
      var core := [Watch(data.docsDir, s0), Watch(data.configFilePath, s0)]
        + (if args.watchTheme then WatchAll(data.themeDirs, s0) else [])
        + [ServeEvent(s0)];
      match env.serveEvent
      case Failure(e) => Stage(core, s0, Some(e))
      case Success(s1) => Stage(core + WatchAll(MergeWatch(data.watch, args.watch), s1), s1, None)
  }

  /** The inner try: serve, always shut the server down, swallow a keyboard interrupt. */
  function ServeLoop(server: Handle, result: Option<Exc>): Stage {
    Stage([ServerServe(server), ServerShutdown(server)], server,
      if result == Some(KeyboardInterrupt) then None else result)
  }

  /** The body of the outer try once the server is constructed: registration, then the serve loop. */
  function Served(args: Args, data: ConfigData, env: Env): Stage {
    var registered := Registration(args, data, env);
    if registered.raised.Some? then registered
    else
      var loop := ServeLoop(registered.server, env.serve);
      Stage(registered.actions + loop.actions, loop.server, loop.raised)
  }

  /**
   * The body of the outer try: build, construct the server (mounted at the
   * path of the configured site URL), then Served.
   */
  function Body(args: Args, data: LoadedConfig, env: Env): Stage {
    var build := Build(RewrittenSiteUrl(data.devAddr, data.siteUrl), LiveServer(args.livereload), Dirty(args.livereload));
    if env.build.Some? then Stage([build], env.constructed, env.build)
    else
      var construct := Construct(env.constructed, env.tempDir, MountPath(data.siteUrl));
      if env.construct.Some? then Stage([build, construct], env.constructed, env.construct)
      else
        var served := Served(args, data, env);
        Stage([build, construct] + served.actions, served.server, served.raised)
  }

  /** The except clauses of the outer try, in order: TemplateError re-raised, any other OSError becomes Abort. */
  function Handled(e: Exc): Exc {
    if e.TemplateError? then e
    else if IsOSError(e) then Abort(e.typeName + ": " + e.message)
    else e
  }

  /** What the except clauses leave pending for the finally clause. */
  function Pending(raised: Option<Exc>): Option<Exc> {
    if raised.Some? then Some(Handled(raised.value)) else None
  }

  /** The finally clause of the outer try, given what the body left pending. */
  function Teardown(env: Env, pending: Option<Exc>): Session {
    var removal := if env.shutdownEvent.None? && env.siteDirPresent then [RemoveTemp(env.tempDir)] else [];
    var outcome :=
      if env.shutdownEvent.Some? then Raise(env.shutdownEvent.value)
      else if pending.Some? then Raise(pending.value)
      else Ok;
    Session([ShutdownEvent] + removal, outcome)
  }

  /** The whole run of serve(). */
  function Lifecycle(args: Args, env: Env): Session {
    var created := [CreateTemp(env.tempDir)];
    match env.load
    case Failure(e) => Session(created, Raise(e))
    case Success(data) =>
      var started := [CreateTemp(env.tempDir), Startup(Dirty(args.livereload))];
      if env.startup.Some? then Session(started, Raise(env.startup.value))
      else
        var body := Body(args, data, env);
        var teardown := Teardown(env, Pending(body.raised));
        Session(started + body.actions + teardown.trace, teardown.outcome)
  }

  /** The loaded values a configuration object still carries after builder ran. */
  ghost predicate Carries(config: Config, data: ConfigData, args: Args)
    reads config, config.watch
  {
    && config.docsDir == data.docsDir
    && config.configFilePath == data.configFilePath
    && config.themeDirs == data.themeDirs
    && config.watch != null
    && config.watch.items == MergeWatch(data.watch, args.watch)
  }

  /** Lines 97-110: watches on the constructed server, the `serve` event, watches on its result. */
  method RegisterWatches(config: Config, args: Args, env: Env, ghost data: ConfigData)
      returns (actions: seq<Action>, server: Handle, raised: Option<Exc>)
    requires Carries(config, data, args)
    ensures Stage(actions, server, raised) == Registration(args, data, env)
  {
    server := env.constructed;
    actions := [];
    raised := None;
    if LiveServer(args.livereload) {
      actions := [Watch(config.docsDir, server), Watch(config.configFilePath, server)];
      if args.watchTheme {
        var dirs := config.themeDirs;
        ghost var before := actions;
        var i := 0;
        while i < |dirs|
          invariant 0 <= i <= |dirs|
          invariant actions == before + WatchAll(dirs[..i], server)
        {
          assert WatchAll(dirs[..i + 1], server) == WatchAll(dirs[..i], server) + [Watch(dirs[i], server)];
          actions := actions + [Watch(dirs[i], server)];
          i := i + 1;
        }
        assert dirs[..i] == dirs;
      }
      actions := actions + [ServeEvent(server)];
      match env.serveEvent
      case Failure(e) =>
        raised := Some(e);
      case Success(replacement) =>
        server := replacement;
        var items := config.watch.items;
        ghost var before := actions;
        var j := 0;
        while j < |items|
          invariant 0 <= j <= |items|
          invariant actions == before + WatchAll(items[..j], server)
        {
          assert WatchAll(items[..j + 1], server) == WatchAll(items[..j], server) + [Watch(items[j], server)];
          actions := actions + [Watch(items[j], server)];
          j := j + 1;
        }
        assert items[..j] == items;
    }
  }

  /** Lines 97-118: register the watches, then the inner try around server.serve(). */
  method RunServer(config: Config, args: Args, env: Env, ghost data: ConfigData)
      returns (actions: seq<Action>, server: Handle, raised: Option<Exc>)
    requires Carries(config, data, args)
    ensures Stage(actions, server, raised) == Served(args, data, env)
  {
    actions, server, raised := RegisterWatches(config, args, env, data);
    if raised == None {
      // inner try, with server.shutdown() in its finally
      actions := actions + [ServerServe(server), ServerShutdown(server)];
      if env.serve != Some(KeyboardInterrupt) {
        raised := env.serve;
      }
    }
  }

  /** Lines 80-118, the body of the outer try, on the configuration object. */
  method TryBody(config: Config, cli: WatchList, args: Args, env: Env, ghost data: LoadedConfig)
      returns (actions: seq<Action>, raised: Option<Exc>)
    requires config.watch != cli
    requires config.devAddr == data.devAddr && config.siteUrl == data.siteUrl
    requires config.docsDir == data.docsDir && config.configFilePath == data.configFilePath
    requires config.themeDirs == data.themeDirs && config.WatchValue() == data.watch
    requires cli.items == args.watch
    modifies config, config.watch
    ensures actions == Body(args, data, env).actions && raised == Body(args, data, env).raised
  {
    var build;
    build, raised := Builder(config, cli, args.livereload, env.build);
    if raised.Some? {
      actions := [build];
      return;
    }
    var mount := MountPath(config.siteUrl);
    RewriteKeepsMountPath(data.devAddr, data.siteUrl);
    var construct := Construct(env.constructed, env.tempDir, mount);
    raised := env.construct;
    if raised.Some? {
      actions := [build, construct];
      return;
    }
    var served, _, servedRaised := RunServer(config, args, env, data);
    actions := [build, construct] + served;
    raised := servedRaised;
  }

  /** Lines 79-128: the outer try, its except clauses and its finally clause. */
  method OuterTry(config: Config, cli: WatchList, args: Args, env: Env, ghost data: LoadedConfig)
      returns (actions: seq<Action>, outcome: Outcome)
    requires config.watch != cli
    requires config.devAddr == data.devAddr && config.siteUrl == data.siteUrl
    requires config.docsDir == data.docsDir && config.configFilePath == data.configFilePath
    requires config.themeDirs == data.themeDirs && config.WatchValue() == data.watch
    requires cli.items == args.watch
    modifies config, config.watch
    ensures var body := Body(args, data, env);
      var teardown := Teardown(env, Pending(body.raised));
      actions == body.actions + teardown.trace && outcome == teardown.outcome
  {
    var raised;
    actions, raised := TryBody(config, cli, args, env, data);

    // except clauses
    var pending := Pending(raised);

    // finally clause
    actions := actions + [ShutdownEvent];
    if env.shutdownEvent.Some? {
      outcome := Raise(env.shutdownEvent.value);
      return;
    }
    if env.siteDirPresent {
      actions := actions + [RemoveTemp(env.tempDir)];
    }
    outcome := if pending.Some? then Raise(pending.value) else Ok;
  }

  /** serve(): the temp directory, the configuration and `startup` outside the try, then the try itself. */
  method Serve(args: Args, env: Env) returns (trace: seq<Action>, outcome: Outcome)
    ensures Session(trace, outcome) == Lifecycle(args, env)
  {
    var siteDir := env.tempDir;
    trace := [CreateTemp(siteDir)];
    if env.load.Failure? {
      outcome := Raise(env.load.error);
      return;
    }
    var config := new Config(env.load.value);
    var cli := new WatchList(args.watch);
    trace := trace + [Startup(Dirty(args.livereload))];
    if env.startup.Some? {
      outcome := Raise(env.startup.value);
      return;
    }
    assert trace == [CreateTemp(siteDir), Startup(Dirty(args.livereload))];
    var actions;
    actions, outcome := OuterTry(config, cli, args, env, env.load.value);
    trace := trace + actions;
  }
}
