# mkdocs `serve`: a verified model of the preview-server lifecycle

`mkdocs serve` is the development preview of an MkDocs site. It does the
following, in order:

1. It creates a temporary site directory.
2. It loads the configuration and fires the `startup` plugin event.
3. Inside a `try`, it builds the site into that directory.
4. It constructs a live-reload server mounted at the path of `site_url`.
5. In live mode, it registers watches. The `serve` plugin event comes in the middle of this and may hand back a different server.
6. It runs the blocking serve loop.
7. Once inside the `try`, its `finally` clause fires the `shutdown` plugin event and then, unless that raises, removes the directory if it still exists. A failing configuration load or `startup` event, before the `try`, leaves the directory behind.

This project models that command in Dafny, in six modules:

- `Wrappers` (`wrappers.dfy`): the `Option` and `Result` types.
- `Urls` (`urls.dfy`): a URI reference with the five components of RFC 3986.
  - It is split by the regular expression of Appendix B of RFC 3986 and recomposed as in section 5.3.
  - Both round trips are proved. Every string splits into a well-formed URL.
  - The command only uses this for `urlsplit(...).path`.
- `ServeHelpers` (`serve_helpers.dfy`): the pure parts of the command, as functions with lemmas.
  - The two mode flags derived from `livereload`.
  - `mount_path`.
  - The rewrite of `site_url` to the dev address.
  - The merge of the command-line watch paths.
  - The rule of the error-page handler.
- `ServeTrace` (`serve_trace.dfy`): the vocabulary of a run.
  - Exceptions. `TemplateError` counts as an OSError.
  - The actions a run performs: temp directory, plugin events, build, server calls.
  - How a run ends: `Ok` or `Raise(e)`.
- `ServeState` (`serve_state.dfy`): the state the command changes in place, and `builder`.
  - The configuration object is a class. Its `watch` entry is a shared, mutable `WatchList`, so aliasing is modelled.
  - `Builder` merges the watch list, rewrites `site_url` and runs the build.
  - `RebuildDoublesWatch` shows what a second `builder` call on the same configuration does.
  - `LoadedConfig` is a configuration that passed load-time validation:
    - `dev_addr` is a host:port authority;
    - `site_url` is unset, empty, or absolute with a host.
- `ServeLifecycle` (`serve_lifecycle.dfy`): the command itself.
  - `Env` holds what each outside call returns or raises.
  - `Lifecycle` is the reference definition of a whole run, as a trace of actions plus an outcome.
  - `Serve` is `serve()` written as methods that mirror its nesting, and is proved to produce exactly `Lifecycle`. Those methods are:
    - `Serve`: the temp directory, config load and `startup`;
    - `OuterTry`: the outer `try`, its `except` clauses and its `finally` clause;
    - `TryBody`: the body of the outer `try`;
    - `RunServer`: registration plus the inner `try` around `server.serve()`;
    - `RegisterWatches`: the two watch loops.
- `LifecycleProperties` (`lifecycle_properties.dfy`): what a run guarantees, proved about `Lifecycle`.
  - Ordering, and the watch registration order.
  - The pairing of `server.serve()` and `server.shutdown()`.
  - That `shutdown` fires exactly once after the try is entered, and when the temp directory is removed.
  - The `except` clauses, and when a run ends cleanly.
  - The address the build sees.
  - Two complete example sessions.

All source paths below are in the mkdocs repository.

## Model

| member | source | states |
|---|---|---|
| ServeHelpers.ModeFlags | mkdocs/mkdocs/commands/serve.py:57-58 | `dirty` holds iff the mode is `"dirty"`; `live_server` iff it is `"dirty"` or `"livereload"`; `dirty` implies `live_server`; any other mode disables both |
| ServeHelpers.SiteUrlOrRoot | mkdocs/mkdocs/commands/serve.py:44 | `site_url or '/'`: the result is never empty, and is the configured URL whenever that is set and non-empty |
| ServeHelpers.MountPath | mkdocs/mkdocs/commands/serve.py:43-44 | the mount path is a path component (no `?` or `#`), and is `/` when `site_url` is unset or empty |
| ServeHelpers.LiveServer | mkdocs/mkdocs/commands/serve.py:57 | defines `live_server`: the mode is `"dirty"` or `"livereload"` (its properties are ModeFlags) |
| ServeHelpers.Dirty | mkdocs/mkdocs/commands/serve.py:58 | defines `dirty`: the mode is `"dirty"` (its properties are ModeFlags) |
| Urls.Split | mkdocs/mkdocs/commands/serve.py:44 | defines the stand-in for `urlsplit`: the five components of Appendix B of RFC 3986, stage by stage (its properties are SplitRecompose, RecomposeSplit, SplitWellFormed) |
| ServeHelpers.RewrittenSiteUrl | mkdocs/mkdocs/commands/serve.py:72 | defines the rewritten `site_url`: `"http://"` + dev address + mount path (its properties are RewrittenSiteUrlSplits and MountPathIdempotent) |
| ServeHelpers.ValidSiteUrl | mkdocs/mkdocs/commands/serve.py:76 | defines what validation is taken to guarantee of `site_url`: unset, empty, or with a non-empty scheme and host; `ServeState.Validated` adds a host:port `dev_addr`, and `LoadedConfig` is the configuration type `load_config` returns |
| ServeState.Validated | mkdocs/mkdocs/commands/serve.py:76 | defines a validated configuration: a host:port `dev_addr` and a valid `site_url` |
| ServeHelpers.MergeWatch | mkdocs/mkdocs/commands/serve.py:66-69 | defines the merged watch list as a value: the command-line list when unset, else the configured entries followed by it (its properties are MergeWatchAppends and MergeWatchNotIdempotent; Builder does it in place) |
| ServeHelpers.Join | mkdocs/mkdocs/commands/serve.py:90 | defines `os.path.join` of a directory and a relative name: a `/` is inserted unless the directory is empty or already ends with one |
| ServeHelpers.ErrorPagePath | mkdocs/mkdocs/commands/serve.py:90 | defines the page file of an error code: `<site_dir>/404.html` or `<site_dir>/500.html` |
| Urls.FirstOf | mkdocs/mkdocs/commands/serve.py:44 | the index of the first stop character, or the length: everything before it is stop-free |
| Urls.SplitRecompose | mkdocs/mkdocs/commands/serve.py:44 | splitting a recomposed well-formed URL gives the URL back |
| Urls.RecomposeSplit | mkdocs/mkdocs/commands/serve.py:44 | recomposing the split of any string gives the string back |
| Urls.SplitWellFormed | mkdocs/mkdocs/commands/serve.py:44 | every string splits into a well-formed URL, so the mount path never holds `?` or `#` |
| ServeHelpers.MountPathAbEmpty | mkdocs/mkdocs/commands/serve.py:43-44 | for an unset or empty `site_url`, or one with a host, the mount path is empty or starts with `/` |
| ServeHelpers.HttpUrl | mkdocs/mkdocs/commands/serve.py:72 | `"http://" + authority + path` splits back into scheme `http`, that authority and that path |
| ServeHelpers.RewrittenSiteUrlSplits | mkdocs/mkdocs/commands/serve.py:72 | the rewritten `site_url` reads back as scheme `http`, the dev address as host, and the original mount path |
| ServeHelpers.MountPathIdempotent | mkdocs/mkdocs/commands/serve.py:72 | for a host:port address and a path-abempty mount path, the mount path after the rewrite equals the one before |
| ServeHelpers.RewriteKeepsMountPath | mkdocs/mkdocs/commands/serve.py:72-85 | for a validated address and `site_url`, the mount path the server gets at line 85 (after the rewrite) equals the path of the configured `site_url` |
| ServeHelpers.RelativeSiteUrlMoves | mkdocs/mkdocs/commands/serve.py:72-85 | for every host:port address, the relative `site_url` `"docs/"` mounts at `docs/`, but after the rewrite it mounts at `/`: idempotence needs a path-abempty mount path (MountPathIdempotent), which validation guarantees, and a rootless relative path such as `docs/` breaks it |
| ServeHelpers.DefaultSiteUrl | mkdocs/mkdocs/commands/serve.py:44-72 | with no `site_url`, the mount path is `/` and the default address gives `http://127.0.0.1:8000/` |
| ServeHelpers.SubPathSiteUrl | mkdocs/mkdocs/commands/serve.py:44-72 | `http://example.com/docs/` mounts at `/docs/` and is rewritten to `http://<dev_addr>/docs/` |
| ServeHelpers.MergeWatchAppends | mkdocs/mkdocs/commands/serve.py:66-69 | an unset watch list becomes the command-line list; a set one keeps its entries first, then the command-line entries in order, and grows by their number |
| ServeHelpers.MergeWatchNotIdempotent | mkdocs/mkdocs/commands/serve.py:66-69 | merging non-empty command-line paths a second time appends them again |
| ServeHelpers.ErrorPage | mkdocs/mkdocs/commands/serve.py:88-93 | a page is returned iff the code is 404 or 500 and `<site_dir>/<code>.html` exists; it is that file's contents |
| ServeHelpers.ErrorPageLookedUpPerRequest | mkdocs/mkdocs/commands/serve.py:88-93 | the file is looked up per request: absent before gives the default page, present later gives its contents |
| ServeHelpers.ErrorPageReadsOnlyItsPage | mkdocs/mkdocs/commands/serve.py:88-93 | two file systems that agree on the one page file give the same answer |
| ServeState.WatchList.Extend | mkdocs/mkdocs/commands/serve.py:69 | `list.extend`: the new items are the old ones followed by the argument |
| ServeState.Config.constructor | mkdocs/mkdocs/commands/serve.py:76 | the configuration object holds the loaded values; a set watch list is a fresh list object |
| ServeState.Builder | mkdocs/mkdocs/commands/serve.py:60-74 | an unset watch entry becomes the command-line list object itself; a set one is extended in place; `site_url` becomes `http://` + dev address + mount path; the build runs with both mode flags |
| ServeState.RebuildDoublesWatch | mkdocs/mkdocs/commands/serve.py:60-74 | two `builder` runs on a configuration whose watch was unset leave `paths + paths` in it, and in the command-line list too, through the shared reference |
| ServeLifecycle.Registration | mkdocs/mkdocs/commands/serve.py:97-110 | defines registration: nothing without live reload; else watches on the constructed server of the docs dir, the config file and (iff `watch_theme`) the theme dirs, then the `serve` event, then on its result every merged watch path, or the event's exception |
| ServeLifecycle.ServeLoop | mkdocs/mkdocs/commands/serve.py:112-118 | defines the inner try: `serve()` then `shutdown()` of the server, raising what `serve()` raised unless it is a keyboard interrupt |
| ServeLifecycle.Served | mkdocs/mkdocs/commands/serve.py:97-118 | defines what follows construction: registration, then, unless it raised, the inner try on the server it leaves current |
| ServeLifecycle.Body | mkdocs/mkdocs/commands/serve.py:80-118 | defines the body of the outer try: the build on the rewritten URL, stopping if it raises; the construction on the temp directory at the configured mount path, stopping if it raises; then Served |
| ServeLifecycle.Handled | mkdocs/mkdocs/commands/serve.py:119-124 | defines the except clauses on one exception: a TemplateError unchanged, any other OSError to `Abort("<type>: <message>")`, anything else unchanged |
| ServeLifecycle.Pending | mkdocs/mkdocs/commands/serve.py:119-124 | defines what the except clauses leave for the finally clause: the handled exception of the body, or nothing |
| ServeLifecycle.Teardown | mkdocs/mkdocs/commands/serve.py:125-128 | defines the finally clause: the `shutdown` event, then removal iff it returned and the directory exists; its exception wins over a pending one |
| ServeLifecycle.Lifecycle | mkdocs/mkdocs/commands/serve.py:41-128 | defines a whole run: create the temp directory; a failing config load or `startup` ends it there; else the body, then the finally clause on what it left pending |
| ServeLifecycle.RegisterWatches | mkdocs/mkdocs/commands/serve.py:97-110 | the watch loops and the `serve` event produce exactly `Registration` |
| ServeLifecycle.RunServer | mkdocs/mkdocs/commands/serve.py:97-118 | registration, then `serve()` and `shutdown()` on the current server with a keyboard interrupt swallowed, produce exactly `Served` |
| ServeLifecycle.TryBody | mkdocs/mkdocs/commands/serve.py:80-118 | the body of the outer `try` produces exactly `Body`, including the mount path taken after the rewrite |
| ServeLifecycle.OuterTry | mkdocs/mkdocs/commands/serve.py:79-128 | the body, the `except` clauses and the `finally` clause produce the body's actions then `Teardown` |
| ServeLifecycle.Serve | mkdocs/mkdocs/commands/serve.py:41-128 | the command produces exactly the trace and outcome of `Lifecycle` |
| LifecycleProperties.RegistrationKinds | mkdocs/mkdocs/commands/serve.py:97-110 | registration only watches paths and fires the `serve` event |
| LifecycleProperties.ServedShape | mkdocs/mkdocs/commands/serve.py:97-118 | after construction, the run ends with `serve()` then `shutdown()` of the served server, and nowhere else, iff registration succeeded |
| LifecycleProperties.LiveRegistration | mkdocs/mkdocs/commands/serve.py:97-110 | in live mode: docs dir, config file, theme dirs (iff `watch_theme`) on the constructed server, then the `serve` event, then every merged watch path in order on the server it returned |
| LifecycleProperties.StaticBody | mkdocs/mkdocs/commands/serve.py:97-118 | without live reload, the constructed server is served and shut down with no watch and no `serve` event |
| LifecycleProperties.BodyStart | mkdocs/mkdocs/commands/serve.py:80-86 | the body starts with the build on the rewritten URL; the server is constructed on the temp directory at the configured mount path iff the build returned |
| LifecycleProperties.BodyMembers | mkdocs/mkdocs/commands/serve.py:80-118 | the body holds only body actions, with the build only first and the construction only second |
| LifecycleProperties.BodyServeLoop | mkdocs/mkdocs/commands/serve.py:112-118 | `serve()` and `shutdown()` of the served server end the body iff control reaches `serve()`, and appear nowhere else |
| LifecycleProperties.BodyRaises | mkdocs/mkdocs/commands/serve.py:80-118 | what the body raises: the build's, the construction's, or the `serve` event's exception, else `serve()`'s unless it is a keyboard interrupt |
| LifecycleProperties.TraceShape | mkdocs/mkdocs/commands/serve.py:41-128 | a run that enters the try is the temp directory, `startup`, the body, then the `finally` clause |
| LifecycleProperties.TraceAt | mkdocs/mkdocs/commands/serve.py:41-128 | the same, position by position |
| LifecycleProperties.TraceOrder | mkdocs/mkdocs/commands/serve.py:41-85 | the temp directory is created first and once; `startup` fires second; the build is third; the server is constructed fourth, on the temp directory, only after a build that returned |
| LifecycleProperties.EarlyFailureLeaksTempDir | mkdocs/mkdocs/commands/serve.py:41-77 | if loading the configuration or `startup` fails, that exception propagates, `shutdown` never fires and the temp directory is never removed |
| LifecycleProperties.EndsWithFinally | mkdocs/mkdocs/commands/serve.py:125-128 | after a body of body actions, the `shutdown` event sits only at the start of the `finally` clause, and removal only after it, last |
| LifecycleProperties.FinallyRuns | mkdocs/mkdocs/commands/serve.py:79-128 | once the try is entered, `shutdown` fires exactly once after the body; the directory is removed, last, iff the event returned and the directory exists |
| LifecycleProperties.ShutdownEventRaisesLast | mkdocs/mkdocs/commands/serve.py:125-126 | an exception from the `shutdown` event replaces anything pending |
| LifecycleProperties.PairBeforeFinally | mkdocs/mkdocs/commands/serve.py:112-126 | a body ending in the serve/shutdown pair keeps that pair just before the `shutdown` event, and only there |
| LifecycleProperties.NoServeInRun | mkdocs/mkdocs/commands/serve.py:79-128 | a body with no serve or shutdown of a server leaves none in the run |
| LifecycleProperties.ServeThenShutdown | mkdocs/mkdocs/commands/serve.py:112-126 | when control reaches `serve()`, it runs once on the served server, `shutdown()` of it follows at once, then the `shutdown` event, whatever `serve()` did |
| LifecycleProperties.NoServeUnlessReached | mkdocs/mkdocs/commands/serve.py:112-118 | when control does not reach `serve()`, no server is served or shut down |
| LifecycleProperties.CleanExit | mkdocs/mkdocs/commands/serve.py:112-128 | the run ends normally iff `serve()` is reached and returns or is interrupted, and `shutdown` returns |
| LifecycleProperties.BuildInterruptEscapes | mkdocs/mkdocs/commands/serve.py:79-128 | a keyboard interrupt in the first build is not caught: the server is never constructed and the interrupt propagates after the `finally` clause |
| LifecycleProperties.ExceptClauses | mkdocs/mkdocs/commands/serve.py:119-124 | a TemplateError leaves unchanged; any other OSError becomes `Abort("<type>: <message>")`; anything else leaves unchanged |
| LifecycleProperties.PortInUseAborts | mkdocs/mkdocs/commands/serve.py:84-124 | a server that cannot bind its port aborts the run with `OSError: [Errno 98] Address already in use` |
| LifecycleProperties.RunAt | mkdocs/mkdocs/commands/serve.py:79-128 | in a run that enters the try, the body fills the positions after `startup`, and only `finally` actions follow it |
| LifecycleProperties.StaticModeWatchesNothing | mkdocs/mkdocs/commands/serve.py:97-110 | without live reload, a run never watches and never fires the `serve` event |
| LifecycleProperties.BuildSeesDevServer | mkdocs/mkdocs/commands/serve.py:72-85 | the build gets both mode flags and a `site_url` that reads back as `http`, the dev address and the configured mount path; the server is mounted at that same path |
| LifecycleProperties.StaticSession | mkdocs/mkdocs/commands/serve.py:41-128 | the whole run of `--no-livereload` stopped with Ctrl-C: eight actions, ending normally |
| LifecycleProperties.LiveSession | mkdocs/mkdocs/commands/serve.py:41-128 | the whole run with live reload and no extra watches, stopped with Ctrl-C: core watches on the constructed server, then serve and shutdown of the server the `serve` event returned |

## Left out

- `urllib.parse.urlsplit` is not modelled. Its place is taken by the split of Appendix B of RFC 3986.
  - The two agree on the path component for the URLs the command sees.
  - Python-specific quirks are not modelled: whitespace stripping, scheme lower-casing, and the scheme-character rules.
- Configuration loading and validation (`load_config`) are an oracle. It returns a `LoadedConfig` or raises.
  - That `dev_addr` is a host:port pair and `site_url` is unset, empty or absolute is taken from validation, not re-checked.
  - `dev_addr` is an opaque authority string. The split into `host, port` at line 83 is not modelled.
- Plugin dispatch (`run_event`) is an oracle. `startup` and `shutdown` either return or raise.
  - `serve` either returns a server handle or raises.
  - The keyword arguments passed to the events are not modelled.
- `build` is an oracle that returns or raises. Rendering and the incremental ("dirty") rebuild are outside this command.
- `build` (serve.py:74) and the `serve` event (serve.py:107) receive the configuration object itself and are assumed not to change it.
  - So the `site_url` read at line 85 is the one `builder` left. The `docs_dir`, config file, theme dirs and `watch` read at lines 99-109 are the loaded values as `builder` left them.
  - LiveRegistration, Registration, Body and BuildSeesDevServer rest on this.
- The live-reload server's internals are not modelled: HTTP, change detection, and the rebuilds it triggers in background threads.
  - Those rebuilds call `builder()` with no configuration, which reloads it. That path is not modelled.
  - `server.watch`, `server.shutdown`, `tempfile.mkdtemp` and `shutil.rmtree` are assumed not to raise.
  - Installing `error_handler` on the server (line 95) is not a trace event. The handler's rule is `ErrorPage`, over a map from path to bytes that stands for the files at request time.
- Logging and `print()` are not modelled.
- The arguments `serve` passes to `load_config` (serve.py:46-55) are not modelled. In particular `site_dir=site_dir` makes the build write into the temp directory; the `Build` action carries no output directory, so that link is not stated.
- The mutable default `watch=[]` (serve.py:28) is not modelled as one object shared across calls: `Serve` allocates a fresh command-line `WatchList` per run, so a default list that an earlier `serve()` made a configuration's `watch` (line 67) and extended is not carried over.
- `open` and `f.read()` in `error_handler` (serve.py:92-93) are assumed not to fail: `ErrorPage` returns the bytes of any page file present in the map.
- The `finally` clause (serve.py:125-128) removes the temp directory, but two exit paths never reach that removal, and the model follows the code:
  - `EarlyFailureLeaksTempDir`: a failing config load or `startup` event skips removal.
  - `FinallyRuns`: a raising `shutdown` event skips removal.
- An OSError's message is `str(e)` as given by the environment. How Python formats errno and strerror into it is not modelled.
