/**
 * The pure helpers of the `serve` command (mkdocs/commands/serve.py): the two
 * mode flags derived from the `livereload` argument, the mount path taken
 * from `site_url`, the rewrite of `site_url` to the local address, the merge
 * of the command-line watch paths into the configured ones, and the rule by
 * which the error-page handler answers.
 */
module ServeHelpers {
  import opened Wrappers
  import opened Urls

  // ---------------------------------------------------------------------
  // Mode flags

  /** True when the preview server rebuilds and reloads on change. */
  function LiveServer(livereload: string): bool {
    livereload == "dirty" || livereload == "livereload"
  }

  /** True when rebuilds are incremental. */
  function Dirty(livereload: string): bool {
    livereload == "dirty"
  }

  lemma ModeFlags(livereload: string)
    ensures Dirty(livereload) <==> livereload == "dirty"
    ensures LiveServer(livereload) <==> livereload == "dirty" || livereload == "livereload"
    ensures Dirty(livereload) ==> LiveServer(livereload)
    ensures livereload != "dirty" && livereload != "livereload" ==> !LiveServer(livereload) && !Dirty(livereload)
  {
  }

  // ---------------------------------------------------------------------
  // Mount path and the site_url rewrite

  /** `site_url or '/'`: both an unset and an empty site_url fall back to the root. */
  function SiteUrlOrRoot(siteUrl: Option<string>): (s: string)
    ensures s != []
    ensures siteUrl.Some? && siteUrl.value != [] ==> s == siteUrl.value
  {
    if siteUrl.None? || siteUrl.value == "" then "/" else siteUrl.value
  }

  lemma SplitRoot()
    ensures Split("/") == Url(None, None, "/", None, None)
  {
    var u := Url(None, None, "/", None, None);
    assert Recompose(u) == "/";
    FirstOfUnique("/", SchemeStops, 0);
    SplitRecompose(u);
  }

  /** The path component of the site URL: what the preview server is mounted under. */
  function MountPath(siteUrl: Option<string>): (p: string)
    ensures NoneOf(p, PathStops)
    ensures siteUrl.None? || siteUrl == Some("") ==> p == "/"
  {
    SplitWellFormed(SiteUrlOrRoot(siteUrl));
    SplitRoot();
    Split(SiteUrlOrRoot(siteUrl)).path
  }

  /** The site URL the build sees: the dev server's address with the original path. */
  function RewrittenSiteUrl(devAddr: string, siteUrl: Option<string>): string {
    "http://" + devAddr + MountPath(siteUrl)
  }

  /** A `host:port` address is a valid authority. */
  predicate HostPort(devAddr: string) {
    NoneOf(devAddr, AuthorityStops)
  }

  /** "http:" + "//" + authority + path, the shape of the rewritten site URL. */
  lemma HttpUrl(authority: string, path: string)
    requires NoneOf(authority, AuthorityStops) && NoneOf(path, PathStops) && AbEmpty(path)
    ensures Split("http://" + authority + path) == Url(Some("http"), Some(authority), path, None, None)
  {
    var u := Url(Some("http"), Some(authority), path, None, None);
    assert SchemePart(u.scheme) == "http:";
    assert AuthorityPart(u.authority) == "//" + authority;
    assert Recompose(u) == "http:" + ("//" + authority) + path;
    assert "http:" + ("//" + authority) + path == "http://" + authority + path;
    assert "http"[0] == 'h' && "http"[1] == 't' && "http"[2] == 't' && "http"[3] == 'p';
    assert NoneOf("http", SchemeStops);
    assert WellFormed(u);
    SplitRecompose(u);
  }

  /** Read back, the rewritten URL has scheme http, the dev address as authority, and the old path. */
  lemma RewrittenSiteUrlSplits(devAddr: string, siteUrl: Option<string>)
    requires HostPort(devAddr) && AbEmpty(MountPath(siteUrl))
    ensures Split(RewrittenSiteUrl(devAddr, siteUrl)) == Url(Some("http"), Some(devAddr), MountPath(siteUrl), None, None)
  {
    HttpUrl(devAddr, MountPath(siteUrl));
  }

  /** Rewriting site_url does not move the mount path. */
  lemma MountPathIdempotent(devAddr: string, siteUrl: Option<string>)
    requires HostPort(devAddr) && AbEmpty(MountPath(siteUrl))
    ensures MountPath(Some(RewrittenSiteUrl(devAddr, siteUrl))) == MountPath(siteUrl)
  {
    RewrittenSiteUrlSplits(devAddr, siteUrl);
  }

  /** The mount path is path-abempty whenever the site URL is unset, empty or carries an authority. */
  lemma MountPathAbEmpty(siteUrl: Option<string>)
    requires siteUrl.None? || siteUrl.value == "" || Split(siteUrl.value).authority.Some?
    ensures AbEmpty(MountPath(siteUrl))
  {
    SplitWellFormed(SiteUrlOrRoot(siteUrl));
  }

  /**
   * What configuration validation guarantees of `site_url`: unset, empty,
   * or an absolute URL with a non-empty scheme and a non-empty host.
   */
  predicate ValidSiteUrl(siteUrl: Option<string>) {
    || siteUrl.None?
    || siteUrl.value == ""
    || (var u := Split(siteUrl.value);
        u.scheme.Some? && u.scheme.value != "" && u.authority.Some? && u.authority.value != "")
  }

  /** For a validated address and site URL, the rewrite keeps the mount path. */
  lemma RewriteKeepsMountPath(devAddr: string, siteUrl: Option<string>)
    requires HostPort(devAddr) && ValidSiteUrl(siteUrl)
    ensures MountPath(Some(RewrittenSiteUrl(devAddr, siteUrl))) == MountPath(siteUrl)
  {
    MountPathAbEmpty(siteUrl);
    MountPathIdempotent(devAddr, siteUrl);
  }

  /** A relative site URL mounts at its own path. */
  lemma RelativeSiteUrlMount()
    ensures MountPath(Some("docs/")) == "docs/"
  {
    var rel := Url(None, None, "docs/", None, None);
    assert "docs/" == ['d', 'o', 'c', 's', '/'];
    FirstOfUnique("docs/", SchemeStops, 4);
    assert Recompose(rel) == "docs/";
    SplitRecompose(rel);
  }

  lemma RelativeSiteUrlRewrite(devAddr: string)
    ensures RewrittenSiteUrl(devAddr, Some("docs/")) == "http://" + (devAddr + "docs") + "/"
  {
    RelativeSiteUrlMount();
    assert "docs/" == "docs" + "/";
    Regroup("http://", devAddr, "docs", "/");
  }

  lemma Regroup(a: string, b: string, c: string, d: string)
    ensures a + b + (c + d) == a + (b + c) + d
  {
  }

  lemma RelativeSiteUrlAuthority(devAddr: string)
    requires HostPort(devAddr)
    ensures NoneOf(devAddr + "docs", AuthorityStops)
  {
    var host := devAddr + "docs";
    assert "docs" == ['d', 'o', 'c', 's'];
    forall k | 0 <= k < |host| ensures host[k] !in AuthorityStops {
      if k >= |devAddr| {
        assert host[k] == "docs"[k - |devAddr|];
      }
    }
  }

  /**
   * Idempotence needs a path-abempty mount path (MountPathIdempotent), which
   * validation guarantees; a rootless relative path breaks it: for every
   * host:port address, "docs/" mounts at "docs/", but its rewrite reads back
   * with the authority address + "docs" and the path "/".
   */
  lemma RelativeSiteUrlMoves(devAddr: string)
    requires HostPort(devAddr)
    ensures MountPath(Some("docs/")) == "docs/"
    ensures MountPath(Some(RewrittenSiteUrl(devAddr, Some("docs/")))) == "/"
  {
    RelativeSiteUrlMount();
    RelativeSiteUrlRewrite(devAddr);
    RelativeSiteUrlAuthority(devAddr);
    assert "/" == ['/'];
    HttpUrl(devAddr + "docs", "/");
  }

  /** With no site URL and the default address, the build sees http://127.0.0.1:8000/. */
  lemma DefaultSiteUrl()
    ensures MountPath(None) == "/"
    ensures RewrittenSiteUrl("127.0.0.1:8000", None) == "http://127.0.0.1:8000/"
  {
  }

  /** A site URL with a sub-path mounts the server under that sub-path. */
  lemma SubPathSiteUrl(devAddr: string)
    ensures MountPath(Some("http://example.com/docs/")) == "/docs/"
    ensures RewrittenSiteUrl(devAddr, Some("http://example.com/docs/")) == "http://" + devAddr + "/docs/"
  {
    var host := "example.com";
    assert host == ['e', 'x', 'a', 'm', 'p', 'l', 'e', '.', 'c', 'o', 'm'];
    assert NoneOf(host, AuthorityStops);
    assert "/docs/" == ['/', 'd', 'o', 'c', 's', '/'];
    assert NoneOf("/docs/", PathStops);
    assert "http://example.com/docs/" == "http://" + host + "/docs/";
    HttpUrl(host, "/docs/");
  }

  // ---------------------------------------------------------------------
  // Watch list merge

  /** The configured watch list with the command-line paths appended; an unset one becomes them. */
  function MergeWatch(configured: Option<seq<string>>, cli: seq<string>): seq<string> {
    match configured
    case None => cli
    case Some(w) => w + cli
  }

  lemma MergeWatchAppends(configured: Option<seq<string>>, cli: seq<string>)
    ensures configured.None? ==> MergeWatch(configured, cli) == cli
    ensures configured.Some? ==>
      var merged := MergeWatch(configured, cli);
      |merged| == |configured.value| + |cli| &&
      merged[..|configured.value|] == configured.value &&
      merged[|configured.value|..] == cli
  {
  }

  /** Merging the same command-line paths a second time appends them again. */
  lemma MergeWatchNotIdempotent(configured: Option<seq<string>>, cli: seq<string>)
    requires cli != []
    ensures |MergeWatch(Some(MergeWatch(configured, cli)), cli)| == |MergeWatch(configured, cli)| + |cli|
    ensures MergeWatch(Some(MergeWatch(configured, cli)), cli) != MergeWatch(configured, cli)
  {
  }

  // ---------------------------------------------------------------------
  // Error pages

  type Bytes = seq<bv8>

  /** The regular files of the local file system, by path, as they are when a request is handled. */
  type Files = map<string, Bytes>

  /** os.path.join of a directory and a relative file name. */
  function Join(dir: string, name: string): string {
    if dir == [] || dir[|dir| - 1] == '/' then dir + name else dir + "/" + name
  }

  function ErrorPagePath(siteDir: string, code: int): string
    requires code == 404 || code == 500
  {
    Join(siteDir, if code == 404 then "404.html" else "500.html")
  }

  /** The bytes the preview server sends for an error `code`, or None to use its default page. */
  function ErrorPage(siteDir: string, files: Files, code: int): (r: Option<Bytes>)
    ensures r.Some? <==> (code == 404 || code == 500) && ErrorPagePath(siteDir, code) in files
    ensures r.Some? ==> r.value == files[ErrorPagePath(siteDir, code)]
  {
    if code == 404 || code == 500 then
      var page := ErrorPagePath(siteDir, code);
      if page in files then Some(files[page]) else None
    else None
  }

  /** The page is looked up when the request comes, so a page built later is found. */
  lemma ErrorPageLookedUpPerRequest(siteDir: string, before: Files, after: Files, code: int)
    requires code == 404 || code == 500
    requires ErrorPagePath(siteDir, code) !in before && ErrorPagePath(siteDir, code) in after
    ensures ErrorPage(siteDir, before, code) == None
    ensures ErrorPage(siteDir, after, code) == Some(after[ErrorPagePath(siteDir, code)])
  {
  }

  /** Only the one page file decides the answer. */
  lemma ErrorPageReadsOnlyItsPage(siteDir: string, files1: Files, files2: Files, code: int)
    requires code == 404 || code == 500 ==>
      var page := ErrorPagePath(siteDir, code);
      (page in files1 <==> page in files2) && (page in files1 ==> files1[page] == files2[page])
    ensures ErrorPage(siteDir, files1, code) == ErrorPage(siteDir, files2, code)
  {
  }
}
