/**
 * The configuration object that `serve` changes in place, and `builder`,
 * the nested function that merges the watch paths, rewrites `site_url` and
 * runs a build.
 */
module ServeState {
  import opened Wrappers
  import opened ServeHelpers
  import opened ServeTrace

  /** A mutable list of paths, shared by reference like a Python list. */
  class WatchList {
    var items: seq<string>

    constructor (items: seq<string>)
      ensures this.items == items
    {
      this.items := items;
    }

    /** list.extend; `more` is read before the list changes, so a list may extend itself. */
    method Extend(more: seq<string>)
      modifies this
      ensures items == old(items) + more
    {
      items := items + more;
    }
  }

  /** The values load_config produces that the command reads or writes. */
  datatype ConfigData = ConfigData(
    devAddr: string,
    siteUrl: Option<string>,
    docsDir: string,
    configFilePath: string,
    themeDirs: seq<string>,
    watch: Option<seq<string>>)

  /**
   * What load_config's validation guarantees of the values the command
   * relies on: `dev_addr` is a host:port pair and `site_url` is unset,
   * empty or absolute.
   */
  predicate Validated(data: ConfigData) {
    HostPort(data.devAddr) && ValidSiteUrl(data.siteUrl)
  }

  type LoadedConfig = data: ConfigData | Validated(data)
    witness ConfigData("", None, "", "", [], None)

  /** The loaded configuration; `site_url` and `watch` are the entries the command overwrites. */
  class Config {
    const devAddr: string
    const docsDir: string
    const configFilePath: string
    const themeDirs: seq<string>
    var siteUrl: Option<string>
    var watch: WatchList?

    constructor (data: ConfigData)
      ensures devAddr == data.devAddr && docsDir == data.docsDir
      ensures configFilePath == data.configFilePath && themeDirs == data.themeDirs
      ensures siteUrl == data.siteUrl
      ensures data.watch.None? ==> watch == null
      ensures data.watch.Some? ==> watch != null && fresh(watch) && watch.items == data.watch.value
    {
      devAddr, docsDir := data.devAddr, data.docsDir;
      configFilePath, themeDirs := data.configFilePath, data.themeDirs;
      siteUrl := data.siteUrl;
      if data.watch.Some? {
        watch := new WatchList(data.watch.value);
      } else {
        watch := null;
      }
    }

    /** The `watch` entry as a value: None when it is unset. */
    function WatchValue(): Option<seq<string>>
      reads this, watch
    {
      if watch == null then None else Some(watch.items)
    }
  }

  /**
   * builder(config): an unset `watch` becomes the command-line list itself
   * (the same object), a set one is extended by it; `site_url` is pointed at
   * the dev server; then the build runs, with `buildResult` its outcome.
   */
  method Builder(config: Config, cli: WatchList, livereload: string, buildResult: Option<Exc>)
      returns (build: Action, raised: Option<Exc>)
    modifies config, config.watch
    ensures old(config.watch) == null ==> config.watch == cli && cli.items == old(cli.items)
    ensures old(config.watch) != null ==> config.watch == old(config.watch)
    ensures config.watch != null && config.watch.items == MergeWatch(old(config.WatchValue()), old(cli.items))
    ensures old(config.watch) != cli ==> cli.items == old(cli.items)
    ensures config.siteUrl == Some(RewrittenSiteUrl(config.devAddr, old(config.siteUrl)))
    ensures build == Build(config.siteUrl.value, LiveServer(livereload), Dirty(livereload))
    ensures raised == buildResult
  {
    if config.watch == null {
      config.watch := cli;
    } else {
      config.watch.Extend(cli.items);
    }
    config.siteUrl := Some(RewrittenSiteUrl(config.devAddr, config.siteUrl));
    build := Build(config.siteUrl.value, LiveServer(livereload), Dirty(livereload));
    raised := buildResult;
  }

  /**
   * Running builder twice on one config whose watch was unset: the second
   * run extends the command-line list by itself, through the shared reference.
   */
  method RebuildDoublesWatch(data: ConfigData, paths: seq<string>, livereload: string)
      returns (first: seq<string>, second: seq<string>, cliAfter: seq<string>)
    requires data.watch.None?
    ensures first == paths
    ensures second == paths + paths && cliAfter == second
  {
    var config := new Config(data);
    var cli := new WatchList(paths);
    var _, _ := Builder(config, cli, livereload, None);
    first := config.watch.items;
    var _, _ := Builder(config, cli, livereload, None);
    second := config.watch.items;
    cliAfter := cli.items;
  }
}
