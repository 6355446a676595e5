/**
 * A URI reference split into the five components of section 3 of RFC 3986
 * (scheme, authority, path, query, fragment), with the split given by the
 * regular expression of Appendix B of RFC 3986 and the inverse given by the
 * recomposition of section 5.3.  This is the simplified URL type the `serve`
 * command's `mount_path` uses to find the path component of `site_url`.
 */
module Urls {
  import opened Wrappers

  datatype Url = Url(
    scheme: Option<string>,
    authority: Option<string>,
    path: string,
    query: Option<string>,
    fragment: Option<string>)

  /** Characters that end each component in the Appendix B expression. */
  const SchemeStops: set<char> := {':', '/', '?', '#'}
  const AuthorityStops: set<char> := {'/', '?', '#'}
  const PathStops: set<char> := {'?', '#'}
  const QueryStops: set<char> := {'#'}

  predicate NoneOf(s: string, stops: set<char>) {
    forall k :: 0 <= k < |s| ==> s[k] !in stops
  }

  /** `s` is empty or begins with a character of `stops`. */
  predicate StopsAtStart(s: string, stops: set<char>) {
    s == [] || s[0] in stops
  }

  /** Index of the first character of `s` that is in `stops`, or |s| when there is none. */
  function FirstOf(s: string, stops: set<char>): (i: nat)
    ensures i <= |s|
    ensures NoneOf(s[..i], stops)
    ensures i < |s| ==> s[i] in stops
  {
    if s == [] || s[0] in stops then 0
    else
      var j := FirstOf(s[1..], stops);
      assert s[1..][..j] == s[1..j + 1];
      1 + j
  }

  /** The three properties of FirstOf's contract pin its value down. */
  lemma FirstOfUnique(s: string, stops: set<char>, i: nat)
    requires i <= |s| && NoneOf(s[..i], stops)
    requires i < |s| ==> s[i] in stops
    ensures FirstOf(s, stops) == i
  {
  }

  /** A stop-free prefix followed by a stop (or nothing) is skipped whole. */
  lemma FirstOfBoundary(a: string, b: string, stops: set<char>)
    requires NoneOf(a, stops) && StopsAtStart(b, stops)
    ensures FirstOf(a + b, stops) == |a|
  {
    assert (a + b)[..|a|] == a;
    FirstOfUnique(a + b, stops, |a|);
  }

  /** A stop found inside a prefix is the first stop of the whole string. */
  lemma FirstOfPrefix(s: string, k: nat, stops: set<char>)
    requires k <= |s| && FirstOf(s[..k], stops) < k
    ensures FirstOf(s, stops) == FirstOf(s[..k], stops)
  {
    var i := FirstOf(s[..k], stops);
    assert s[..k][..i] == s[..i];
    assert s[..k][i] == s[i];
    FirstOfUnique(s, stops, i);
  }

  // ---------------------------------------------------------------------
  // Splitting, one component at a time

  /** `^(([^:/?#]+):)?`: a non-empty stop-free prefix followed by ':'. */
  function SplitScheme(s: string): (Option<string>, string) {
    var i := FirstOf(s, SchemeStops);
    if 0 < i < |s| && s[i] == ':' then (Some(s[..i]), s[i + 1..]) else (None, s)
  }

  /** `(//([^/?#]*))?` */
  function SplitAuthority(s: string): (Option<string>, string) {
    if |s| >= 2 && s[0] == '/' && s[1] == '/' then
      var j := 2 + FirstOf(s[2..], AuthorityStops);
      (Some(s[2..j]), s[j..])
    else (None, s)
  }

  /** `([^?#]*)` */
  function SplitPath(s: string): (string, string) {
    var k := FirstOf(s, PathStops);
    (s[..k], s[k..])
  }

  /** `(\?([^#]*))?` */
  function SplitQuery(s: string): (Option<string>, string) {
    if s != [] && s[0] == '?' then
      var m := 1 + FirstOf(s[1..], QueryStops);
      (Some(s[1..m]), s[m..])
    else (None, s)
  }

  /** `(#(.*))?` */
  function SplitFragment(s: string): Option<string> {
    if s != [] && s[0] == '#' then Some(s[1..]) else None
  }

  /** The component split of Appendix B of RFC 3986. */
  function Split(s: string): Url {
    var scheme := SplitScheme(s);
    var authority := SplitAuthority(scheme.1);
    var path := SplitPath(authority.1);
    var query := SplitQuery(path.1);
    Url(scheme.0, authority.0, path.0, query.0, SplitFragment(query.1))
  }

  // ---------------------------------------------------------------------
  // Recomposition (section 5.3 of RFC 3986)

  function SchemePart(scheme: Option<string>): string {
    match scheme
    case Some(c) => c + ":"
    case None => ""
  }

  function AuthorityPart(authority: Option<string>): string {
    match authority
    case Some(a) => "//" + a
    case None => ""
  }

  function QueryPart(query: Option<string>): string {
    match query
    case Some(q) => "?" + q
    case None => ""
  }

  function FragmentPart(fragment: Option<string>): string {
    match fragment
    case Some(f) => "#" + f
    case None => ""
  }

  function Recompose(u: Url): string {
    SchemePart(u.scheme) + AuthorityPart(u.authority) + u.path + QueryPart(u.query) + FragmentPart(u.fragment)
  }

  // ---------------------------------------------------------------------
  // Which component values a string can produce

  /** path-abempty of section 3.3 of RFC 3986: empty or beginning with '/'. */
  predicate AbEmpty(p: string) {
    p == [] || p[0] == '/'
  }

  predicate StartsWithTwoSlashes(p: string) {
    |p| >= 2 && p[0] == '/' && p[1] == '/'
  }

  /** A first segment that contains ':' would be read back as a scheme. */
  predicate LooksLikeScheme(p: string) {
    var i := FirstOf(p, SchemeStops);
    0 < i < |p| && p[i] == ':'
  }

  predicate WellFormed(u: Url) {
    && (u.scheme.Some? ==> u.scheme.value != [] && NoneOf(u.scheme.value, SchemeStops))
    && (u.authority.Some? ==> NoneOf(u.authority.value, AuthorityStops))
    && NoneOf(u.path, PathStops)
    && (u.authority.Some? ==> AbEmpty(u.path))
    && (u.authority.None? ==> !StartsWithTwoSlashes(u.path))
    && (u.scheme.None? && u.authority.None? ==> !LooksLikeScheme(u.path))
    && (u.query.Some? ==> NoneOf(u.query.value, QueryStops))
  }

  // ---------------------------------------------------------------------
  // Round trips

  lemma SplitFragmentPart(f: Option<string>)
    ensures SplitFragment(FragmentPart(f)) == f
  {
    if f.Some? {
      assert FragmentPart(f)[1..] == f.value;
    }
  }

  lemma SplitQueryPart(q: Option<string>, rest: string)
    requires q.Some? ==> NoneOf(q.value, QueryStops)
    requires StopsAtStart(rest, QueryStops)
    ensures SplitQuery(QueryPart(q) + rest) == (q, rest)
  {
    if q.Some? {
      var v := q.value;
      var s := QueryPart(q) + rest;
      assert s == "?" + (v + rest);
      assert s[0] == '?';
      assert s[1..] == v + rest;
      FirstOfBoundary(v, rest, QueryStops);
      var m := 1 + |v|;
      assert s[1..m] == v;
      assert s[m..] == rest;
    } else {
      assert QueryPart(q) + rest == rest;
    }
  }

  lemma SplitPathPart(p: string, rest: string)
    requires NoneOf(p, PathStops) && StopsAtStart(rest, PathStops)
    ensures SplitPath(p + rest) == (p, rest)
  {
    FirstOfBoundary(p, rest, PathStops);
    assert (p + rest)[..|p|] == p;
    assert (p + rest)[|p|..] == rest;
  }

  lemma SplitAuthorityPart(a: Option<string>, rest: string)
    requires a.Some? ==> NoneOf(a.value, AuthorityStops) && StopsAtStart(rest, AuthorityStops)
    requires a.None? ==> !StartsWithTwoSlashes(rest)
    ensures SplitAuthority(AuthorityPart(a) + rest) == (a, rest)
  {
    if a.None? {
      assert AuthorityPart(a) + rest == rest;
    } else {
      var s := AuthorityPart(a) + rest;
      assert s[0] == '/' && s[1] == '/';
      assert s[2..] == a.value + rest;
      FirstOfBoundary(a.value, rest, AuthorityStops);
      assert s[2..2 + |a.value|] == a.value;
      assert s[2 + |a.value|..] == rest;
    }
  }

  lemma SplitSchemePart(c: Option<string>, rest: string)
    requires c.Some? ==> c.value != [] && NoneOf(c.value, SchemeStops)
    requires c.None? ==> !LooksLikeScheme(rest)
    ensures SplitScheme(SchemePart(c) + rest) == (c, rest)
  {
    if c.None? {
      assert SchemePart(c) + rest == rest;
    } else {
      var s := SchemePart(c) + rest;
      assert s == c.value + (":" + rest);
      FirstOfBoundary(c.value, ":" + rest, SchemeStops);
      assert s[|c.value|] == ':';
      assert s[..|c.value|] == c.value;
      assert s[|c.value| + 1..] == rest;
    }
  }

  /** What follows the path of a well-formed URL never extends it. */
  lemma TailStops(u: Url)
    ensures StopsAtStart(QueryPart(u.query) + FragmentPart(u.fragment), PathStops)
    ensures StopsAtStart(FragmentPart(u.fragment), QueryStops)
  {
  }

  /** A path that is not read as a scheme stays so when a query or fragment follows. */
  lemma NoSchemeBeforeTail(p: string, tail: string)
    requires !LooksLikeScheme(p) && StopsAtStart(tail, PathStops)
    ensures !LooksLikeScheme(p + tail)
  {
    var s := p + tail;
    var i := FirstOf(p, SchemeStops);
    assert s[..|p|] == p;
    if i < |p| {
      FirstOfPrefix(s, |p|, SchemeStops);
      assert s[i] == p[i];
    } else {
      assert p[..i] == p;
      FirstOfBoundary(p, tail, SchemeStops);
      assert tail != [] ==> s[|p|] == tail[0];
    }
  }

  /** Without a scheme or authority, a well-formed path does not turn into a scheme. */
  lemma NoSchemeInRelativeReference(u: Url)
    requires WellFormed(u) && u.scheme.None? && u.authority.None?
    ensures !LooksLikeScheme(u.path + QueryPart(u.query) + FragmentPart(u.fragment))
  {
    var tail := QueryPart(u.query) + FragmentPart(u.fragment);
    TailStops(u);
    NoSchemeBeforeTail(u.path, tail);
    assert u.path + tail == u.path + QueryPart(u.query) + FragmentPart(u.fragment);
  }

  /** What follows the scheme of a well-formed URL without one is not read as a scheme. */
  lemma NoSchemeAfterAll(u: Url)
    requires WellFormed(u) && u.scheme.None?
    ensures !LooksLikeScheme(AuthorityPart(u.authority) + (u.path + (QueryPart(u.query) + FragmentPart(u.fragment))))
  {
    var rest := AuthorityPart(u.authority) + (u.path + (QueryPart(u.query) + FragmentPart(u.fragment)));
    if u.authority.None? {
      NoSchemeInRelativeReference(u);
      assert rest == u.path + QueryPart(u.query) + FragmentPart(u.fragment);
    } else {
      assert rest[0] == '/';
      FirstOfUnique(rest, SchemeStops, 0);
    }
  }

  /** What follows the authority of a well-formed URL meets SplitAuthority's needs. */
  lemma AuthorityBoundary(u: Url)
    requires WellFormed(u)
    ensures u.authority.Some? ==> StopsAtStart(u.path + (QueryPart(u.query) + FragmentPart(u.fragment)), AuthorityStops)
    ensures u.authority.None? ==> !StartsWithTwoSlashes(u.path + (QueryPart(u.query) + FragmentPart(u.fragment)))
  {
    var qf := QueryPart(u.query) + FragmentPart(u.fragment);
    var pqf := u.path + qf;
    TailStops(u);
    if u.path == [] {
      assert pqf == qf;
    } else if |u.path| == 1 && qf != [] {
      assert pqf[1] == qf[0];
    }
  }

  /** Splitting a recomposed well-formed URL gives the URL back. */
  lemma {:induction false} SplitRecompose(u: Url)
    requires WellFormed(u)
    ensures Split(Recompose(u)) == u
  {
    var f := FragmentPart(u.fragment);
    var qf := QueryPart(u.query) + f;
    var pqf := u.path + qf;
    var apqf := AuthorityPart(u.authority) + pqf;
    var s := SchemePart(u.scheme) + apqf;
    JoinFive(SchemePart(u.scheme), AuthorityPart(u.authority), u.path, QueryPart(u.query), f);
    assert Recompose(u) == s;
    TailStops(u);
    if u.scheme.None? {
      NoSchemeAfterAll(u);
    }
    SplitSchemePart(u.scheme, apqf);
    AuthorityBoundary(u);
    SplitAuthorityPart(u.authority, pqf);
    SplitPathPart(u.path, qf);
    SplitQueryPart(u.query, f);
    SplitFragmentPart(u.fragment);
  }

  // Each stage of Split cuts its input into a component and a remainder.

  lemma SchemeStage(s: string)
    ensures SchemePart(SplitScheme(s).0) + SplitScheme(s).1 == s
    ensures SplitScheme(s).0.Some? ==> SplitScheme(s).0.value != [] && NoneOf(SplitScheme(s).0.value, SchemeStops)
    ensures SplitScheme(s).0.None? ==> SplitScheme(s).1 == s && !LooksLikeScheme(s)
  {
    var i := FirstOf(s, SchemeStops);
    if 0 < i < |s| && s[i] == ':' {
      assert s[..i] + ":" + s[i + 1..] == s;
    }
  }

  lemma AuthorityStage(s: string)
    ensures AuthorityPart(SplitAuthority(s).0) + SplitAuthority(s).1 == s
    ensures SplitAuthority(s).0.Some? ==>
      NoneOf(SplitAuthority(s).0.value, AuthorityStops) && StopsAtStart(SplitAuthority(s).1, AuthorityStops)
    ensures SplitAuthority(s).0.None? ==> SplitAuthority(s).1 == s && !StartsWithTwoSlashes(s)
  {
    if |s| >= 2 && s[0] == '/' && s[1] == '/' {
      var j := FirstOf(s[2..], AuthorityStops);
      assert s[2..][..j] == s[2..2 + j];
      assert s[2..][j..] == s[2 + j..];
      assert "//" + s[2..2 + j] + s[2 + j..] == s;
    }
  }

  lemma PathStage(s: string)
    ensures SplitPath(s).0 + SplitPath(s).1 == s
    ensures NoneOf(SplitPath(s).0, PathStops) && StopsAtStart(SplitPath(s).1, PathStops)
    ensures SplitPath(s).0 == s[..|SplitPath(s).0|]
  {
    var k := FirstOf(s, PathStops);
    assert s[..k] + s[k..] == s;
  }

  lemma QueryStage(s: string)
    requires StopsAtStart(s, PathStops)
    ensures QueryPart(SplitQuery(s).0) + SplitQuery(s).1 == s
    ensures SplitQuery(s).0.Some? ==> NoneOf(SplitQuery(s).0.value, QueryStops)
    ensures StopsAtStart(SplitQuery(s).1, QueryStops)
  {
    if s != [] && s[0] == '?' {
      var m := FirstOf(s[1..], QueryStops);
      assert s[1..][..m] == s[1..1 + m];
      assert s[1..][m..] == s[1 + m..];
      assert "?" + s[1..1 + m] + s[1 + m..] == s;
    }
  }

  lemma FragmentStage(s: string)
    requires StopsAtStart(s, QueryStops)
    ensures FragmentPart(SplitFragment(s)) == s
  {
    if s != [] {
      assert "#" + s[1..] == s;
    }
  }

  /** Recomposing the split of any string gives the string back. */
  lemma {:induction false} RecomposeSplit(s: string)
    ensures Recompose(Split(s)) == s
  {
    var s1 := SplitScheme(s).1;
    var s2 := SplitAuthority(s1).1;
    var s3 := SplitPath(s2).1;
    var s4 := SplitQuery(s3).1;
    SchemeStage(s);
    AuthorityStage(s1);
    PathStage(s2);
    QueryStage(s3);
    FragmentStage(s4);
    var u := Split(s);
    var sp, ap, qp := SchemePart(u.scheme), AuthorityPart(u.authority), QueryPart(u.query);
    assert qp + FragmentPart(u.fragment) == s3;
    assert u.path + s3 == s2;
    assert ap + s2 == s1;
    assert sp + s1 == s;
    JoinFive(sp, ap, u.path, qp, FragmentPart(u.fragment));
  }

  lemma JoinFive(a: string, b: string, c: string, d: string, e: string)
    ensures a + b + c + d + e == a + (b + (c + (d + e)))
  {
  }

  /** Every string splits into a well-formed URL. */
  lemma {:induction false} SplitWellFormed(s: string)
    ensures WellFormed(Split(s))
  {
    var s1 := SplitScheme(s).1;
    var s2 := SplitAuthority(s1).1;
    var s3 := SplitPath(s2).1;
    SchemeStage(s);
    AuthorityStage(s1);
    PathStage(s2);
    QueryStage(s3);
    var u := Split(s);
    var path := u.path;
    if u.authority.Some? {
      assert path != [] ==> path[0] == s2[0];
      assert path == [] ==> s3 == s2;
    } else {
      if u.scheme.None? {
        assert s2 == s;
        var i := FirstOf(path, SchemeStops);
        if i < |path| {
          FirstOfPrefix(s, |path|, SchemeStops);
        }
      }
    }
  }
}
