/**
 * What a run of `serve` guarantees, stated over the reference definition
 * `Lifecycle` that the command `Serve` is proved to follow.
 */
module LifecycleProperties {
  import opened Wrappers
  import opened Urls
  import opened ServeHelpers
  import opened ServeTrace
  import opened ServeState
  import opened ServeLifecycle

  /** Control reached the outer try: config loaded and `startup` returned. */
  predicate EntersTry(env: Env) {
    env.load.Success? && env.startup.None?
  }

  /** The `serve` event, when the mode fires it, returned a server. */
  predicate Registered(args: Args, env: Env) {
    LiveServer(args.livereload) ==> env.serveEvent.Success?
  }

  /** Control reached server.serve(). */
  predicate ReachesServe(args: Args, env: Env) {
    EntersTry(env) && env.build.None? && env.construct.None? && Registered(args, env)
  }

  /** The server that is served: the one the `serve` event returned in live mode, else the constructed one. */
  function ServedServer(args: Args, env: Env): Handle {
    if LiveServer(args.livereload) && env.serveEvent.Success? then env.serveEvent.value else env.constructed
  }

  /** Actions that only the body of the outer try performs. */
  predicate InBody(a: Action) {
    a.Build? || a.Construct? || a.Watch? || a.ServeEvent? || a.ServerServe? || a.ServerShutdown?
  }

  // ---------------------------------------------------------------------
  // The body of the outer try

  /** Registration only watches and fires the `serve` event. */
  lemma RegistrationKinds(args: Args, data: ConfigData, env: Env)
    ensures var r := Registration(args, data, env).actions;
      forall i :: 0 <= i < |r| ==> r[i].Watch? || r[i].ServeEvent?
  {
  }

  /** Once the server is constructed: registration, then the serve loop on the served server. */
  lemma ServedShape(args: Args, data: ConfigData, env: Env)
    ensures var t := Served(args, data, env).actions;
      var s := ServedServer(args, env);
      && (forall i :: 0 <= i < |t| ==> t[i].Watch? || t[i].ServeEvent? || t[i].ServerServe? || t[i].ServerShutdown?)
      && (Registered(args, env) ==>
            && |t| >= 2 && t[|t| - 2] == ServerServe(s) && t[|t| - 1] == ServerShutdown(s)
            && forall i :: 0 <= i < |t| - 2 ==> !t[i].ServerServe? && !t[i].ServerShutdown?)
      && (!Registered(args, env) ==> forall i :: 0 <= i < |t| ==> !t[i].ServerServe? && !t[i].ServerShutdown?)
  {
    RegistrationKinds(args, data, env);
  }

  /** The body starts with the build and, if it returned, the construction of the server. */
  lemma BodyStart(args: Args, data: LoadedConfig, env: Env)
    ensures var t := Body(args, data, env).actions;
      && |t| >= 1
      && t[0] == Build(RewrittenSiteUrl(data.devAddr, data.siteUrl), LiveServer(args.livereload), Dirty(args.livereload))
      && (env.build.Some? <==> |t| == 1)
      && (env.build.None? ==> t[1] == Construct(env.constructed, env.tempDir, MountPath(data.siteUrl)))
      && (env.build.None? && env.construct.Some? ==> |t| == 2)
      && (env.build.None? && env.construct.None? ==> t[2..] == Served(args, data, env).actions)
  {
  }

  /** Only body actions; the build comes first and only once, the construction second and only once. */
  lemma BodyMembers(args: Args, data: LoadedConfig, env: Env)
    ensures var t := Body(args, data, env).actions;
      forall i :: 0 <= i < |t| ==>
        && InBody(t[i])
        && (t[i].Build? <==> i == 0)
        && (t[i].Construct? <==> i == 1)
  {
    BodyStart(args, data, env);
    if env.build.None? && env.construct.None? {
      var t := Body(args, data, env).actions;
      var served := Served(args, data, env).actions;
      ServedShape(args, data, env);
      forall i | 2 <= i < |t|
        ensures t[i] == served[i - 2]
      {
      }
    }
  }

  /** Control reaches server.serve() within the body. */
  predicate BodyServes(args: Args, env: Env) {
    env.build.None? && env.construct.None? && Registered(args, env)
  }

  /** The serve loop runs exactly when control reaches it, once, and ends the body with the shutdown of that server. */
  lemma BodyServeLoop(args: Args, data: LoadedConfig, env: Env)
    ensures var t := Body(args, data, env).actions;
      var s := ServedServer(args, env);
      && (BodyServes(args, env) ==>
            && |t| >= 2 && t[|t| - 2] == ServerServe(s) && t[|t| - 1] == ServerShutdown(s)
            && forall i :: 0 <= i < |t| - 2 ==> !t[i].ServerServe? && !t[i].ServerShutdown?)
      && (!BodyServes(args, env) ==> forall i :: 0 <= i < |t| ==> !t[i].ServerServe? && !t[i].ServerShutdown?)
  {
    BodyStart(args, data, env);
    if env.build.None? && env.construct.None? {
      var t := Body(args, data, env).actions;
      var served := Served(args, data, env).actions;
      ServedShape(args, data, env);
      forall i | 2 <= i < |t|
        ensures t[i] == served[i - 2]
      {
      }
    }
  }

  /** Without live reload the body is the build, the construction and the serve loop on the constructed server. */
  lemma StaticBody(args: Args, data: LoadedConfig, env: Env)
    requires !LiveServer(args.livereload)
    ensures var t := Body(args, data, env).actions;
      var s := env.constructed;
      && (env.build.None? && env.construct.None? ==> t[2..] == [ServerServe(s), ServerShutdown(s)])
      && forall i :: 0 <= i < |t| ==> !t[i].Watch? && !t[i].ServeEvent?
  {
    BodyStart(args, data, env);
  }

  /**
   * In live mode, once the server is constructed (BodyStart: the body is the
   * build, the construction, then Served): the docs directory, the config
   * file and, exactly when asked, the theme directories are watched on it,
   * in that order; then the `serve` event fires on it; if the event returns
   * a server, every path of the merged watch list is watched on that server,
   * in order, and it is served.
   */
  lemma LiveRegistration(args: Args, data: ConfigData, env: Env)
    requires LiveServer(args.livereload)
    ensures var t := Served(args, data, env).actions;
      var s0 := env.constructed;
      var theme := if args.watchTheme then data.themeDirs else [];
      var k := 2 + |theme|;
      && |t| > k
      && t[..k] == WatchAll([data.docsDir, data.configFilePath] + theme, s0)
      && t[k] == ServeEvent(s0)
      && (env.serveEvent.Failure? ==> |t| == k + 1)
      && (env.serveEvent.Success? ==>
            var merged := MergeWatch(data.watch, args.watch);
            var s1 := env.serveEvent.value;
            && |t| == k + 3 + |merged|
            && t[k + 1..k + 1 + |merged|] == WatchAll(merged, s1)
            && t[k + 1 + |merged|..] == [ServerServe(s1), ServerShutdown(s1)])
  {
    var t := Served(args, data, env).actions;
    var s0 := env.constructed;
    var theme := if args.watchTheme then data.themeDirs else [];
    var core := [Watch(data.docsDir, s0), Watch(data.configFilePath, s0)] + WatchAll(theme, s0);
    assert WatchAll([data.docsDir, data.configFilePath] + theme, s0) == core;
    assert t[..2 + |theme|] == core;
  }

  /** How the body ends: what it raises, if anything. */
  lemma BodyRaises(args: Args, data: LoadedConfig, env: Env)
    ensures Body(args, data, env).raised ==
      if env.build.Some? then env.build
      else if env.construct.Some? then env.construct
      else if !Registered(args, env) then Some(env.serveEvent.error)
      else if env.serve == Some(KeyboardInterrupt) then None
      else env.serve
  {
  }

  // ---------------------------------------------------------------------
  // The whole run

  /** A run that enters the try: temp directory, `startup`, the body, then the finally clause. */
  lemma TraceShape(args: Args, env: Env)
    requires EntersTry(env)
    ensures var body := Body(args, env.load.value, env);
      var teardown := Teardown(env, Pending(body.raised));
      && Lifecycle(args, env).trace == [CreateTemp(env.tempDir), Startup(Dirty(args.livereload))] + body.actions + teardown.trace
      && Lifecycle(args, env).outcome == teardown.outcome
  {
  }

  /** One position of a run that enters the try. */
  lemma TraceAt(args: Args, env: Env, i: int)
    requires EntersTry(env)
    requires 0 <= i < |Lifecycle(args, env).trace|
    ensures var t := Lifecycle(args, env).trace;
      var body := Body(args, env.load.value, env);
      && (i == 0 ==> t[i] == CreateTemp(env.tempDir))
      && (i == 1 ==> t[i] == Startup(Dirty(args.livereload)))
      && (2 <= i < 2 + |body.actions| ==> t[i] == body.actions[i - 2])
      && (2 + |body.actions| <= i ==> t[i] == Teardown(env, Pending(body.raised)).trace[i - 2 - |body.actions|])
  {
    TraceShape(args, env);
  }

  /** Where the opening actions can sit in a run whose body builds first and constructs second. */
  lemma OpeningInRun(dir: string, dirty: bool, body: seq<Action>, env: Env, pending: Option<Exc>)
    requires forall i :: 0 <= i < |body| ==>
      InBody(body[i]) && (body[i].Build? <==> i == 0) && (body[i].Construct? <==> i == 1)
    ensures var t := [CreateTemp(dir), Startup(dirty)] + body + Teardown(env, pending).trace;
      forall i :: 0 <= i < |t| ==>
        && (t[i].CreateTemp? ==> i == 0)
        && (t[i].Startup? ==> i == 1)
        && (t[i].Build? ==> i == 2)
        && (t[i].Construct? ==> i == 3 && t[i] == body[1])
  {
    RunAt(dir, dirty, body, env, pending);
  }

  /**
   * The temp directory is created first and only once, `startup` fires
   * second, the build is third, and the server is constructed fourth, on
   * the temp directory, only after a build that returned.
   */
  lemma TraceOrder(args: Args, env: Env)
    ensures var t := Lifecycle(args, env).trace;
      && |t| >= 1 && t[0] == CreateTemp(env.tempDir)
      && (|t| > 1 ==> t[1] == Startup(Dirty(args.livereload)))
      && (forall i :: 0 <= i < |t| && t[i].CreateTemp? ==> i == 0)
      && (forall i :: 0 <= i < |t| && t[i].Startup? ==> i == 1)
      && (forall i :: 0 <= i < |t| && t[i].Build? ==> i == 2)
      && (forall i :: 0 <= i < |t| && t[i].Construct? ==> i == 3 && env.build.None? && t[i].root == env.tempDir)
  {
    if EntersTry(env) {
      var body := Body(args, env.load.value, env);
      TraceShape(args, env);
      BodyStart(args, env.load.value, env);
      BodyMembers(args, env.load.value, env);
      OpeningInRun(env.tempDir, Dirty(args.livereload), body.actions, env, Pending(body.raised));
    }
  }

  // ---------------------------------------------------------------------
  // The finally clause

  /**
   * When load_config or the `startup` event raises, serve() stops before its
   * try: that exception propagates, the `shutdown` event never fires and the
   * temp directory is never removed.
   */
  lemma EarlyFailureLeaksTempDir(args: Args, env: Env)
    requires !EntersTry(env)
    ensures var run := Lifecycle(args, env);
      && run.outcome == Raise(if env.load.Failure? then env.load.error else env.startup.value)
      && run.trace[0] == CreateTemp(env.tempDir)
      && forall i :: 0 <= i < |run.trace| ==> run.trace[i] != ShutdownEvent && !run.trace[i].RemoveTemp?
  {
  }

  /** Where the finally clause starts in a trace of `length` actions: one or two from the end. */
  function FinallyAt(env: Env, length: int): int {
    if env.shutdownEvent.None? && env.siteDirPresent then length - 2 else length - 1
  }

  /** A run that entered the try ends with the finally clause, after the body. */
  lemma EndsWithFinally(dir: string, dirty: bool, body: seq<Action>, env: Env, pending: Option<Exc>)
    requires forall i :: 0 <= i < |body| ==> InBody(body[i])
    ensures var t := [CreateTemp(dir), Startup(dirty)] + body + Teardown(env, pending).trace;
      var k := FinallyAt(env, |t|);
      && 0 <= k < |t| && t[k] == ShutdownEvent
      && (k == |t| - 2 ==> t[k + 1] == RemoveTemp(env.tempDir))
      && (forall i :: 0 <= i < |t| && t[i] == ShutdownEvent ==> i == k)
      && (forall i :: 0 <= i < |t| && t[i].RemoveTemp? ==> k == |t| - 2 && i == |t| - 1)
  {
    var pre := [CreateTemp(dir), Startup(dirty)] + body;
    forall i | 0 <= i < |pre|
      ensures pre[i] != ShutdownEvent && !pre[i].RemoveTemp?
    {
      if i >= 2 {
        assert pre[i] == body[i - 2];
      }
    }
  }

  /**
   * Once the try is entered, the `shutdown` event fires exactly once, after
   * everything else but the removal; the temp directory is removed, last,
   * exactly when that event returned and the directory still exists.
   */
  lemma FinallyRuns(args: Args, env: Env)
    requires EntersTry(env)
    ensures var t := Lifecycle(args, env).trace;
      var k := FinallyAt(env, |t|);
      && 0 <= k < |t| && t[k] == ShutdownEvent
      && (env.shutdownEvent.None? && env.siteDirPresent ==> k == |t| - 2 && t[k + 1] == RemoveTemp(env.tempDir))
      && (forall i :: 0 <= i < |t| && t[i] == ShutdownEvent ==> i == k)
      && (forall i :: 0 <= i < |t| && t[i].RemoveTemp? ==> env.shutdownEvent.None? && env.siteDirPresent && i == |t| - 1)
  {
    var body := Body(args, env.load.value, env);
    TraceShape(args, env);
    BodyMembers(args, env.load.value, env);
    EndsWithFinally(env.tempDir, Dirty(args.livereload), body.actions, env, Pending(body.raised));
  }

  /** What a run raises once the try is entered: the `shutdown` event's exception replaces any pending one. */
  lemma ShutdownEventRaisesLast(args: Args, env: Env)
    requires EntersTry(env) && env.shutdownEvent.Some?
    ensures Lifecycle(args, env).outcome == Raise(env.shutdownEvent.value)
  {
  }

  // ---------------------------------------------------------------------
  // The serve loop and the except clauses

  /** A body whose only serve and shutdown of a server are its last two actions keeps them paired in the run. */
  lemma PairBeforeFinally(dir: string, dirty: bool, body: seq<Action>, server: Handle, env: Env, pending: Option<Exc>)
    requires |body| >= 2 && body[|body| - 2] == ServerServe(server) && body[|body| - 1] == ServerShutdown(server)
    requires forall i :: 0 <= i < |body| - 2 ==> !body[i].ServerServe? && !body[i].ServerShutdown?
    ensures var t := [CreateTemp(dir), Startup(dirty)] + body + Teardown(env, pending).trace;
      var k := FinallyAt(env, |t|) - 2;
      && 0 <= k
      && t[k] == ServerServe(server) && t[k + 1] == ServerShutdown(server) && t[k + 2] == ShutdownEvent
      && forall j :: 0 <= j < |t| && (t[j].ServerServe? || t[j].ServerShutdown?) ==> j == k || j == k + 1
  {
  }

  /** A body without serve or shutdown of a server leaves none in the run. */
  lemma NoServeInRun(dir: string, dirty: bool, body: seq<Action>, env: Env, pending: Option<Exc>)
    requires forall i :: 0 <= i < |body| ==> !body[i].ServerServe? && !body[i].ServerShutdown?
    ensures var t := [CreateTemp(dir), Startup(dirty)] + body + Teardown(env, pending).trace;
      forall j :: 0 <= j < |t| ==> !t[j].ServerServe? && !t[j].ServerShutdown?
  {
  }

  /**
   * When control reaches server.serve(), it runs once, on the served server;
   * server.shutdown() of that server follows at once, and the `shutdown`
   * event right after.
   */
  lemma ServeThenShutdown(args: Args, env: Env)
    requires ReachesServe(args, env)
    ensures var t := Lifecycle(args, env).trace;
      var k := FinallyAt(env, |t|) - 2;
      && 0 <= k
      && t[k] == ServerServe(ServedServer(args, env))
      && t[k + 1] == ServerShutdown(ServedServer(args, env))
      && t[k + 2] == ShutdownEvent
      && forall j :: 0 <= j < |t| && (t[j].ServerServe? || t[j].ServerShutdown?) ==> j == k || j == k + 1
  {
    var body := Body(args, env.load.value, env);
    TraceShape(args, env);
    BodyServeLoop(args, env.load.value, env);
    PairBeforeFinally(env.tempDir, Dirty(args.livereload), body.actions, ServedServer(args, env), env, Pending(body.raised));
  }

  /** When control does not reach server.serve(), no server is served or shut down. */
  lemma NoServeUnlessReached(args: Args, env: Env)
    requires !ReachesServe(args, env)
    ensures var t := Lifecycle(args, env).trace;
      forall j :: 0 <= j < |t| ==> !t[j].ServerServe? && !t[j].ServerShutdown?
  {
    if EntersTry(env) {
      var body := Body(args, env.load.value, env);
      TraceShape(args, env);
      BodyServeLoop(args, env.load.value, env);
      NoServeInRun(env.tempDir, Dirty(args.livereload), body.actions, env, Pending(body.raised));
    }
  }

  /** The run ends normally exactly when server.serve() is reached and returns or is interrupted, and `shutdown` returns. */
  lemma CleanExit(args: Args, env: Env)
    ensures Lifecycle(args, env).outcome == Ok <==>
      && ReachesServe(args, env)
      && (env.serve.None? || env.serve == Some(KeyboardInterrupt))
      && env.shutdownEvent.None?
  {
    if EntersTry(env) {
      BodyRaises(args, env.load.value, env);
    }
  }

  /** A keyboard interrupt during the initial build is not caught: it propagates after the finally clause. */
  lemma BuildInterruptEscapes(args: Args, env: Env)
    requires EntersTry(env) && env.build == Some(KeyboardInterrupt) && env.shutdownEvent.None?
    ensures Lifecycle(args, env).outcome == Raise(KeyboardInterrupt)
    ensures forall i :: 0 <= i < |Lifecycle(args, env).trace| ==> !Lifecycle(args, env).trace[i].Construct?
  {
    TraceOrder(args, env);
  }

  /**
   * The except clauses: what the body raises leaves the run as a
   * TemplateError unchanged, as Abort with type name and message for any
   * other OSError, and unchanged for anything else.
   */
  lemma ExceptClauses(args: Args, env: Env, e: Exc)
    requires EntersTry(env) && env.shutdownEvent.None?
    requires Body(args, env.load.value, env).raised == Some(e)
    ensures e.TemplateError? ==> Lifecycle(args, env).outcome == Raise(e)
    ensures e.OSError? ==> Lifecycle(args, env).outcome == Raise(Abort(e.typeName + ": " + e.message))
    ensures !IsOSError(e) ==> Lifecycle(args, env).outcome == Raise(e)
  {
  }

  lemma PortInUseMessage()
    ensures "OSError" + ": " + "[Errno 98] Address already in use" == "OSError: [Errno 98] Address already in use"
  {
  }

  /** The dev address is taken: constructing the server raises an OSError, and the run aborts with its message. */
  lemma PortInUseAborts(args: Args, env: Env)
    requires EntersTry(env) && env.build.None? && env.shutdownEvent.None?
    requires env.construct == Some(OSError("OSError", "[Errno 98] Address already in use"))
    ensures Lifecycle(args, env).outcome == Raise(Abort("OSError: [Errno 98] Address already in use"))
  {
    BodyRaises(args, env.load.value, env);
    ExceptClauses(args, env, env.construct.value);
    PortInUseMessage();
  }

  // ---------------------------------------------------------------------
  // Watches, the site URL, and whole runs

  /** A run that entered the try, position by position: the body after two actions, then the finally clause. */
  lemma RunAt(dir: string, dirty: bool, body: seq<Action>, env: Env, pending: Option<Exc>)
    ensures var t := [CreateTemp(dir), Startup(dirty)] + body + Teardown(env, pending).trace;
      && (forall j :: 2 <= j < 2 + |body| ==> t[j] == body[j - 2])
      && (forall j :: 2 + |body| <= j < |t| ==> t[j] == ShutdownEvent || t[j].RemoveTemp?)
  {
  }

  /** Without live reload nothing is watched and the `serve` event does not fire. */
  lemma StaticModeWatchesNothing(args: Args, env: Env)
    requires !LiveServer(args.livereload)
    ensures var t := Lifecycle(args, env).trace;
      forall i :: 0 <= i < |t| ==> !t[i].Watch? && !t[i].ServeEvent?
  {
    if EntersTry(env) {
      var body := Body(args, env.load.value, env);
      TraceShape(args, env);
      StaticBody(args, env.load.value, env);
      RunAt(env.tempDir, Dirty(args.livereload), body.actions, env, Pending(body.raised));
    }
  }

  /**
   * The build sees the dev server's address: its site URL reads back with
   * scheme http, the dev address as authority and the configured mount
   * path, and the server is then constructed under that same path.
   */
  lemma BuildSeesDevServer(args: Args, env: Env)
    requires EntersTry(env)
    ensures var t := Lifecycle(args, env).trace;
      var data := env.load.value;
      && |t| > 2 && t[2].Build?
      && t[2].liveServer == LiveServer(args.livereload) && t[2].dirty == Dirty(args.livereload)
      && Split(t[2].siteUrl) == Url(Some("http"), Some(data.devAddr), MountPath(data.siteUrl), None, None)
      && (env.build.None? ==> |t| > 3 && t[3].Construct? && t[3].mountPath == Split(t[2].siteUrl).path)
  {
    var data := env.load.value;
    TraceShape(args, env);
    BodyStart(args, data, env);
    TraceAt(args, env, 2);
    if env.build.None? {
      TraceAt(args, env, 3);
    }
    MountPathAbEmpty(data.siteUrl);
    RewrittenSiteUrlSplits(data.devAddr, data.siteUrl);
  }

  /**
   * `mkdocs serve --no-livereload`, stopped with Ctrl-C: the whole run, phase
   * by phase (before the try, build and construction, the serve loop, the
   * finally clause).
   */
  lemma StaticSession(args: Args, env: Env)
    requires !LiveServer(args.livereload) && EntersTry(env)
    requires env.build.None? && env.construct.None? && env.serve == Some(KeyboardInterrupt)
    requires env.shutdownEvent.None? && env.siteDirPresent
    ensures var data := env.load.value;
      var s := env.constructed;
      Lifecycle(args, env) == Session(
        [CreateTemp(env.tempDir), Startup(false)]
        + [Build(RewrittenSiteUrl(data.devAddr, data.siteUrl), false, false), Construct(s, env.tempDir, MountPath(data.siteUrl))]
        + [ServerServe(s), ServerShutdown(s)]
        + [ShutdownEvent, RemoveTemp(env.tempDir)],
        Ok)
  {
  }

  /**
   * `mkdocs serve` with live reload, no theme watching and no extra watch
   * paths, whose `serve` event hands back a server `s1`, stopped with Ctrl-C:
   * the whole run, phase by phase (before the try, build and construction,
   * registration, the serve loop on `s1`, the finally clause).
   */
  lemma LiveSession(args: Args, env: Env)
    requires args.livereload == "livereload" && !args.watchTheme && args.watch == []
    requires EntersTry(env) && env.load.value.watch.None?
    requires env.build.None? && env.construct.None? && env.serveEvent.Success?
    requires env.serve == Some(KeyboardInterrupt) && env.shutdownEvent.None? && env.siteDirPresent
    ensures var data := env.load.value;
      var s0 := env.constructed;
      var s1 := env.serveEvent.value;
      Lifecycle(args, env) == Session(
        [CreateTemp(env.tempDir), Startup(false)]
        + [Build(RewrittenSiteUrl(data.devAddr, data.siteUrl), true, false), Construct(s0, env.tempDir, MountPath(data.siteUrl))]
        + [Watch(data.docsDir, s0), Watch(data.configFilePath, s0), ServeEvent(s0)]
        + [ServerServe(s1), ServerShutdown(s1)]
        + [ShutdownEvent, RemoveTemp(env.tempDir)],
        Ok)
  {
    var data := env.load.value;
    var s0 := env.constructed;
    var registered := [Watch(data.docsDir, s0), Watch(data.configFilePath, s0), ServeEvent(s0)];
    assert MergeWatch(data.watch, args.watch) == [];
    assert Registration(args, data, env).actions == registered;
  }
}
