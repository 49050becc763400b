/** A URL split into the generic components of section 3 of RFC 3986
    (scheme, authority, path, query, fragment, with the authority split into
    userinfo, host and port), following the decomposition of its Appendix B,
    and the plugin's `buildUrl`, which puts scheme, host, path and query back
    together. */
module Url {
  import opened Values

  datatype UrlParts = UrlParts(
    scheme: Option<string>,
    user: Option<string>,
    host: Option<string>,
    port: Option<string>,
    path: string,
    query: Option<string>,
    fragment: Option<string>)

  /** Length of the longest prefix of `s` with no character of `stop`. */
  function RunNotIn(s: string, stop: set<char>): (n: nat)
    ensures n <= |s| && (forall i :: 0 <= i < n ==> s[i] !in stop)
    ensures n < |s| ==> s[n] in stop
  {
    if s != [] && s[0] !in stop then 1 + RunNotIn(s[1..], stop) else 0
  }

  lemma {:induction false} RunNotInAll(s: string, stop: set<char>)
    requires forall i :: 0 <= i < |s| ==> s[i] !in stop
    ensures RunNotIn(s, stop) == |s|
  {
    if s != [] {
      RunNotInAll(s[1..], stop);
    }
  }

  lemma RunNotInStops(a: string, b: string, stop: set<char>)
    requires forall i :: 0 <= i < |a| ==> a[i] !in stop
    requires b != [] && b[0] in stop
    ensures RunNotIn(a + b, stop) == |a|
  {
    if a != [] {
      assert (a + b)[1..] == a[1..] + b;
      RunNotInStops(a[1..], b, stop);
    }
  }


  predicate AllDigits(s: string) {
    forall i :: 0 <= i < |s| ==> '0' <= s[i] <= '9'
  }

  /** Position of the last `c` in `s`. */
  function LastIndex(s: string, c: char): (r: Option<nat>)
    ensures r.Some? ==> r.value < |s| && s[r.value] == c &&
                        forall j :: r.value < j < |s| ==> s[j] != c
    ensures r.None? ==> c !in s
  {
    if s == [] then None
    else if s[|s| - 1] == c then Some(|s| - 1)
    else LastIndex(s[..|s| - 1], c)
  }

  /** `authority = [ userinfo "@" ] host [ ":" port ]` (section 3.2). */
  function SplitAuthority(a: string): (Option<string>, string, Option<string>) {
    var at := RunNotIn(a, {'@'});
    var user := if at < |a| then Some(a[..at]) else None;
    var hp := if at < |a| then a[at + 1..] else a;
    var colon := LastIndex(hp, ':');
    if colon.Some? && AllDigits(hp[colon.value + 1..]) then
      (user, hp[..colon.value], Some(hp[colon.value + 1..]))
    else
      (user, hp, None)
  }

  /** `(([^:/?#]+):)?`: the scheme and what follows its colon. */
  function SplitScheme(u: string): (Option<string>, string) {
    var n := RunNotIn(u, {':', '/', '?', '#'});
    if 0 < n < |u| && u[n] == ':' then (Some(u[..n]), u[n + 1..]) else (None, u)
  }

  /** `(//([^/?#]*))?`: the authority and what follows it. */
  function SplitAuthorityPart(r: string): (Option<string>, string) {
    if |r| >= 2 && r[0] == '/' && r[1] == '/' then
      var a := RunNotIn(r[2..], {'/', '?', '#'});
      (Some(r[2..2 + a]), r[2 + a..])
    else (None, r)
  }

  /** `([^?#]*)`: the path and what follows it. */
  function SplitPath(r: string): (string, string) {
    var p := RunNotIn(r, {'?', '#'});
    (r[..p], r[p..])
  }

  /** `(\?([^#]*))?(#(.*))?`: the query and the fragment. */
  function SplitQuery(r: string): (Option<string>, Option<string>) {
    var hasQuery := r != [] && r[0] == '?';
    var q := if hasQuery then RunNotIn(r[1..], {'#'}) else 0;
    var query := if hasQuery then Some(r[1..1 + q]) else None;
    var rest := if hasQuery then r[1 + q..] else r;
    (query, if rest != [] then Some(rest[1..]) else None)
  }

  /** The decomposition of Appendix B of RFC 3986:
      `^(([^:/?#]+):)?(//([^/?#]*))?([^?#]*)(\?([^#]*))?(#(.*))?` */
  function ParseUrl(u: string): UrlParts {
    var (scheme, r1) := SplitScheme(u);
    var (authority, r2) := SplitAuthorityPart(r1);
    var (path, r3) := SplitPath(r2);
    var (query, fragment) := SplitQuery(r3);
    if authority.Some? then
      var (user, host, port) := SplitAuthority(authority.value);
      UrlParts(scheme, user, Some(host), port, path, query, fragment)
    else
      UrlParts(scheme, None, None, None, path, query, fragment)
  }

  /** The parser never puts `?` or `#` in a path, nor `#` in a query, and a
      path that follows an authority is empty or starts with `/`. */
  lemma ParsedShape(u: string)
    ensures var p := ParseUrl(u);
            ('?' !in p.path && '#' !in p.path) &&
            (p.query.Some? ==> '#' !in p.query.value) &&
            (p.host.Some? ==> p.path == [] || p.path[0] == '/')
  {
    var (scheme, r1) := SplitScheme(u);
    var (authority, r2) := SplitAuthorityPart(r1);
    var (path, r3) := SplitPath(r2);
    assert authority.Some? ==> r2 == [] || r2[0] in {'/', '?', '#'};
  }

  /** `buildUrl($parts)`: nothing without a (truthy) host; otherwise
      `scheme://host` followed by the path and `?query`, with `https` when
      there is no scheme. Userinfo, port and fragment are dropped. */
  function BuildUrl(parts: UrlParts): (r: Option<string>)
    ensures r.None? <==> parts.host.None? || !Truthy(Str(parts.host.value))
  {
    if parts.host.None? || !Truthy(Str(parts.host.value)) then None
    else
      var scheme := parts.scheme.GetOr("https");
      Some(scheme + "://" + parts.host.value + parts.path + QueryPart(parts.query))
  }

  function QueryPart(query: Option<string>): string {
    if query.Some? then "?" + query.value else ""
  }

  /** A scheme, host, path and query that the decomposition reads back as
      themselves. */
  predicate Rebuildable(scheme: string, host: string, path: string, query: Option<string>) {
    && scheme != [] && (forall i :: 0 <= i < |scheme| ==> scheme[i] !in {':', '/', '?', '#'})
    && host != [] && host != "0" && (forall i :: 0 <= i < |host| ==> host[i] !in {'/', '?', '#', '@', ':'})
    && (path == [] || path[0] == '/') && '?' !in path && '#' !in path
    && (query.Some? ==> '#' !in query.value)
  }

  lemma SchemeBack(scheme: string, rest: string)
    requires scheme != [] && forall i :: 0 <= i < |scheme| ==> scheme[i] !in {':', '/', '?', '#'}
    ensures SplitScheme(scheme + ":" + rest) == (Some(scheme), rest)
  {
    assert scheme + ":" + rest == scheme + (":" + rest);
    RunNotInStops(scheme, ":" + rest, {':', '/', '?', '#'});
    assert (scheme + ":" + rest)[|scheme| + 1..] == rest;
  }

  lemma AuthorityBack(host: string, rest: string)
    requires forall i :: 0 <= i < |host| ==> host[i] !in {'/', '?', '#'}
    requires rest == [] || rest[0] in {'/', '?', '#'}
    ensures SplitAuthorityPart("//" + host + rest) == (Some(host), rest)
  {
    var r := "//" + host + rest;
    assert r[2..] == host + rest;
    if rest == [] {
      assert host + rest == host;
      RunNotInAll(host, {'/', '?', '#'});
    } else {
      RunNotInStops(host, rest, {'/', '?', '#'});
    }
    assert r[2..2 + |host|] == host && r[2 + |host|..] == rest;
  }

  lemma PathBack(path: string, rest: string)
    requires '?' !in path && '#' !in path
    requires rest == [] || rest[0] in {'?', '#'}
    ensures SplitPath(path + rest) == (path, rest)
  {
    if rest == [] {
      assert path + rest == path;
      RunNotInAll(path, {'?', '#'});
    } else {
      RunNotInStops(path, rest, {'?', '#'});
    }
    assert (path + rest)[..|path|] == path && (path + rest)[|path|..] == rest;
  }

  lemma QueryBack(query: Option<string>)
    requires query.Some? ==> '#' !in query.value
    ensures SplitQuery(QueryPart(query)) == (query, None)
  {
    if query.Some? {
      var r := QueryPart(query);
      assert r[1..] == query.value;
      RunNotInAll(query.value, {'#'});
      assert r[1..1 + |query.value|] == query.value;
      assert r[1 + |query.value|..] == [];
    }
  }

  lemma HostBack(host: string)
    requires forall i :: 0 <= i < |host| ==> host[i] !in {'@', ':'}
    ensures SplitAuthority(host) == (None, host, None)
  {
    RunNotInAll(host, {'@'});
    assert LastIndex(host, ':').None?;
  }

  /** Parsing what `BuildUrl` renders gives the scheme, host, path and query
      back, with no userinfo, port or fragment. */
  lemma BuildThenParse(scheme: string, host: string, path: string, query: Option<string>)
    requires Rebuildable(scheme, host, path, query)
    ensures var built := BuildUrl(UrlParts(Some(scheme), None, Some(host), None, path, query, None));
            built.Some? &&
            ParseUrl(built.value) == UrlParts(Some(scheme), None, Some(host), None, path, query, None)
  {
    var qs := QueryPart(query);
    var u := scheme + "://" + host + path + qs;
    assert BuildUrl(UrlParts(Some(scheme), None, Some(host), None, path, query, None)) == Some(u);
    assert u == scheme + ":" + ("//" + host + (path + qs));
    SchemeBack(scheme, "//" + host + (path + qs));
    assert "//" + host + (path + qs) == "//" + host + path + qs;
    AuthorityBack(host, path + qs);
    PathBack(path, qs);
    QueryBack(query);
    HostBack(host);
  }
}
