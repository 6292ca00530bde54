/**
 * backend/wp-content/mu-plugins/rest-host.php: the `rest_url` filter that puts every REST
 * URL WordPress generates on the inbound request's own scheme and host, and the
 * `template_redirect` action that unhooks canonical redirects for REST requests.
 */
module RestHost {

  import opened Wrappers
  import opened Strings
  import opened WordPress

  /** The REST API root, the marker the filter searches the path for. */
  const Marker := "/wp-json/"

  /**
   * `$scheme`: the X-Forwarded-Proto header verbatim when it is non-empty, otherwise
   * 'https' when `$_SERVER['HTTPS']` is exactly 'on' and 'http' when it is not.
   */
  function Scheme(server: map<string, string>): (r: string)
    ensures r != []
    ensures Empty(server, "HTTP_X_FORWARDED_PROTO") ==> r in {"https", "http"}
  {
    if !Empty(server, "HTTP_X_FORWARDED_PROTO") then server["HTTP_X_FORWARDED_PROTO"]
    else if Get(server, "HTTPS") == Some("on") then "https"
    else "http"
  }

  /**
   * `$base`: scheme and inbound host, trailing slashes trimmed, then the REST root. The
   * trim never reaches the scheme's ':', and the base always ends in the REST root.
   */
  function Base(server: map<string, string>): (r: string)
    requires "HTTP_HOST" in server
    ensures StartsWith(r, Scheme(server) + ":")
    ensures |Marker| <= |r| && r[|r| - |Marker|..] == Marker
  {
    var origin := Scheme(server) + "://" + server["HTTP_HOST"];
    assert origin[|Scheme(server)|] == ':';
    assert origin[..|Scheme(server)| + 1] == Scheme(server) + ":";
    TrimTrailingSlashes(origin) + Marker
  }

  /** The REST root holds no control character, so parsing leaves it as it is. */
  lemma MarkerIsClean()
    ensures ReplaceControlChars(Marker) == Marker
  {
    forall i | 0 <= i < |Marker| ensures !IsControl(Marker[i]) {
      assert Marker[i] in "/wp-json";
    }
    ReplaceControlCharsKeeps(Marker);
  }

  /**
   * Whether `(.*)$` can match all of `rest` (PCRE defaults): '.' matches anything but a
   * newline, and '$' matches at the very end or just before a final newline.
   */
  predicate TailMatches(rest: string)
  {
    '\n' !in rest || (|rest| > 0 && rest[|rest| - 1] == '\n' && '\n' !in rest[..|rest| - 1])
  }

  /** The text the group `(.*)` captures from a tail that matches: the tail minus a final newline. */
  function Captured(rest: string): (r: string)
    requires TailMatches(rest)
    ensures |r| <= |rest| <= |r| + 1 && r == rest[..|r|]
    ensures '\n' !in r
    ensures '\n' !in rest ==> r == rest
  {
    if '\n' in rest then rest[..|rest| - 1] else rest
  }

  /** The pattern `#/wp-json/(.*)$#` matches `path` starting at index `i`. */
  predicate MatchesAt(path: string, i: nat)
  {
    OccursAt(path, Marker, i) && TailMatches(path[i + |Marker|..])
  }

  /** The leftmost match of the pattern at or after index `i`, as its captured group. */
  function FirstMatchFrom(path: string, i: nat): (r: Option<string>)
    ensures r.None? ==> forall j :: i <= j ==> !MatchesAt(path, j)
    ensures r.Some? ==>
      exists j :: i <= j && MatchesAt(path, j) && r.value == Captured(path[j + |Marker|..]) &&
        forall k :: i <= k < j ==> !MatchesAt(path, k)
    decreases |path| - i
  {
    if i + |Marker| > |path| then None
    else if MatchesAt(path, i) then Some(Captured(path[i + |Marker|..]))
    else FirstMatchFrom(path, i + 1)
  }

  /**
   * `preg_match('#/wp-json/(.*)$#', $path, $m)`, giving `$m[1]` when it matches: it matches
   * exactly when the pattern matches at some position, and the group never holds a newline.
   */
  function RestRoute(path: string): (r: Option<string>)
    ensures r.Some? <==> exists j: nat :: MatchesAt(path, j)
    ensures r.Some? ==> '\n' !in r.value
  {
    FirstMatchFrom(path, 0)
  }

  /**
   * Where `wp_parse_url` finds the path, in a simplified form: after the first "://" (or a
   * leading "//") the authority runs up to the first '/', '?' or '#'; the path then runs
   * up to the first '?' or '#'. A string with neither is a path already.
   */
  function RawPath(url: string): (r: string)
    ensures '?' !in r && '#' !in r
  {
    var afterAuthority :=
      match After(url, "://")
      case Some(rest) => SuffixFrom(rest, {'/', '?', '#'})
      case None => if StartsWith(url, "//") then SuffixFrom(url[2..], {'/', '?', '#'}) else url;
    PrefixBefore(afterAuthority, {'?', '#'})
  }

  /**
   * The path component `wp_parse_url` reports: like PHP's `parse_url`, it turns every
   * control character of the raw path into '_', so no newline ever reaches the pattern.
   */
  function UrlPath(url: string): (r: string)
    ensures '?' !in r && '#' !in r && '\n' !in r
    ensures forall i :: 0 <= i < |r| ==> !IsControl(r[i])
  {
    var raw := RawPath(url);
    assert forall i :: 0 <= i < |raw| ==> raw[i] != '?' && raw[i] != '#';
    ReplaceControlChars(raw)
  }

  /**
   * The `rest_url` filter: without an inbound Host header the URL is returned unchanged;
   * otherwise the result is `$base` followed by whatever the path holds after its
   * REST-root marker, or `$base` alone when the path is empty or has no marker.
   */
  function RestUrl(url: string, server: map<string, string>): (r: string)
    ensures "HTTP_HOST" !in server ==> r == url
    ensures "HTTP_HOST" in server ==> StartsWith(r, Base(server))
  {
    if "HTTP_HOST" !in server then url
    else
      var path := UrlPath(url);
      if TruthyString(path) && RestRoute(path).Some? then Base(server) + RestRoute(path).value
      else Base(server)
  }

  /**
   * The `template_redirect` action at priority 0: for a REST request, unhook WordPress's
   * `redirect_canonical`; for any other request the hook table stays as it is.
   */
  method SuppressCanonicalRedirect(rt: Request)
    modifies rt`hooks
    ensures IsRestRequest(rt.constants) ==>
      rt.hooks == RemoveAction(old(rt.hooks), "template_redirect", "redirect_canonical")
    ensures !IsRestRequest(rt.constants) ==> rt.hooks == old(rt.hooks)
  {
    if IsRestRequest(rt.constants) {
      rt.hooks := RemoveAction(rt.hooks, "template_redirect", "redirect_canonical");
    }
  }

  /**
   * The simplified `wp_parse_url` reads back the path of an absolute URL: scheme without
   * ':', authority without '/', '?' or '#', a path from '/' on, then a query or fragment.
   * The path comes back with its control characters replaced.
   */
  lemma UrlPathOfAbsolute(scheme: string, authority: string, path: string, tail: string)
    requires ':' !in scheme
    requires '/' !in authority && '?' !in authority && '#' !in authority
    requires path != [] && path[0] == '/' && '?' !in path && '#' !in path
    requires tail == [] || tail[0] == '?' || tail[0] == '#'
    ensures RawPath(scheme + "://" + authority + path + tail) == path
  {
    var url := scheme + "://" + authority + path + tail;
    assert url == scheme + "://" + (authority + (path + tail));
    AfterPastHead(scheme, "://", authority + (path + tail));
    SuffixFromPastHead(authority, path + tail, {'/', '?', '#'});
    PrefixBeforeHead(path, tail, {'?', '#'});
  }

  /**
   * The parsed path holds no newline, so the pattern captures everything after the FIRST
   * occurrence of the marker, and the filter returns the base followed by that remainder.
   */
  lemma RestUrlKeepsRoute(url: string, server: map<string, string>, j: nat)
    requires "HTTP_HOST" in server
    requires OccursAt(UrlPath(url), Marker, j)
    requires forall k :: 0 <= k < j ==> !OccursAt(UrlPath(url), Marker, k)
    ensures RestUrl(url, server) == Base(server) + UrlPath(url)[j + |Marker|..]
  {
    FirstMarkerMatches(UrlPath(url), j);
  }

  /** In a newline-free path the pattern captures everything after the first marker. */
  lemma FirstMarkerMatches(path: string, j: nat)
    requires '\n' !in path
    requires OccursAt(path, Marker, j)
    requires forall k :: 0 <= k < j ==> !OccursAt(path, Marker, k)
    ensures TruthyString(path)
    ensures RestRoute(path) == Some(path[j + |Marker|..])
  {
    assert path[j..j + |Marker|] == Marker;
    AbsentFromSlice(path, j + |Marker|, |path|, '\n');
    assert path[j + |Marker|..] == path[j + |Marker|..|path|];
    assert MatchesAt(path, j);
    assert TruthyString(path) by {
      assert |path| >= |Marker|;
    }
    var m := RestRoute(path).value;
    var j' :| 0 <= j' && MatchesAt(path, j') && m == Captured(path[j' + |Marker|..]) &&
      forall k :: 0 <= k < j' ==> !MatchesAt(path, k);
    assert j' == j;
  }

  /** A path with no marker anywhere gives the base alone: the original path is dropped. */
  lemma RestUrlWithoutRoute(url: string, server: map<string, string>)
    requires "HTTP_HOST" in server
    requires forall j :: !OccursAt(UrlPath(url), Marker, j)
    ensures RestUrl(url, server) == Base(server)
  {
    assert forall j :: !MatchesAt(UrlPath(url), j);
  }

  /**
   * The base carries the inbound Host header verbatim when it is non-empty and does not
   * end in '/': the configured admin origin never enters the rewritten URL.
   */
  lemma BaseCarriesInboundHost(server: map<string, string>)
    requires "HTTP_HOST" in server
    requires server["HTTP_HOST"] != [] && server["HTTP_HOST"][|server["HTTP_HOST"]| - 1] != '/'
    ensures Base(server) == Scheme(server) + "://" + server["HTTP_HOST"] + Marker
  {
    var s := Scheme(server) + "://" + server["HTTP_HOST"];
    assert s[|s| - 1] == server["HTTP_HOST"][|server["HTTP_HOST"]| - 1];
  }

  /**
   * The scheme: a non-empty forwarded proto is used as given, so 'ftp' yields 'ftp';
   * otherwise it is 'https' exactly when HTTPS is 'on', and 'http' in every other case.
   */
  lemma SchemeCases(server: map<string, string>)
    ensures !Empty(server, "HTTP_X_FORWARDED_PROTO") ==> Scheme(server) == server["HTTP_X_FORWARDED_PROTO"]
    ensures Empty(server, "HTTP_X_FORWARDED_PROTO") ==>
      Scheme(server) in {"https", "http"} && (Scheme(server) == "https" <==> Get(server, "HTTPS") == Some("on"))
    ensures Scheme(server["HTTP_X_FORWARDED_PROTO" := "ftp"]) == "ftp"
  {
  }

  /** A URL whose parsed path is the REST root and a route is rewritten to the base and that route. */
  lemma RestUrlOfRoutePath(url: string, server: map<string, string>, route: string)
    requires "HTTP_HOST" in server
    requires UrlPath(url) == Marker + route
    ensures RestUrl(url, server) == Base(server) + route
  {
    var path := Marker + route;
    assert path[..|Marker|] == Marker;
    assert path[|Marker|..] == route;
    assert '\n' !in route by {
      assert forall i :: 0 <= i < |route| ==> route[i] == path[|Marker| + i];
    }
    assert MatchesAt(path, 0);
    assert TruthyString(path);
  }

  /** The parsed path of a REST URL on the admin host: the REST root and the cleaned route. */
  lemma AdminUrlPath(adminHost: string, route: string, query: string)
    requires '/' !in adminHost && '?' !in adminHost && '#' !in adminHost
    requires '?' !in route && '#' !in route
    ensures UrlPath("https://" + adminHost + Marker + route + "?" + query) == Marker + ReplaceControlChars(route)
  {
    AdminUrlRawPath(adminHost, route, query);
    ReplaceControlCharsAppend(Marker, route);
    MarkerIsClean();
  }

  /** The raw path of a REST URL on the admin host: the REST root and the route. */
  lemma AdminUrlRawPath(adminHost: string, route: string, query: string)
    requires '/' !in adminHost && '?' !in adminHost && '#' !in adminHost
    requires '?' !in route && '#' !in route
    ensures RawPath("https://" + adminHost + Marker + route + "?" + query) == Marker + route
  {
    var path := Marker + route;
    AdminUrlShape(adminHost, route, query);
    assert '?' !in path && '#' !in path by {
      assert forall i :: |Marker| <= i < |path| ==> path[i] == route[i - |Marker|];
    }
    UrlPathOfAbsolute("https", adminHost, path, "?" + query);
  }

  /** The same admin URL, grouped as scheme, "://", authority, path and query. */
  lemma AdminUrlShape(adminHost: string, route: string, query: string)
    ensures "https://" + adminHost + Marker + route + "?" + query
            == "https" + "://" + adminHost + (Marker + route) + ("?" + query)
  {
    assert "https://" == "https" + "://";
  }

  /**
   * A REST URL generated on the admin host is moved to the inbound host, with its route
   * kept (control characters turned into '_') and its query string dropped.
   */
  lemma RestUrlMovesToInboundHost(adminHost: string, route: string, query: string, server: map<string, string>)
    requires "HTTP_HOST" in server && server["HTTP_HOST"] != []
    requires server["HTTP_HOST"][|server["HTTP_HOST"]| - 1] != '/'
    requires '/' !in adminHost && '?' !in adminHost && '#' !in adminHost
    requires '?' !in route && '#' !in route
    ensures RestUrl("https://" + adminHost + Marker + route + "?" + query, server)
            == Scheme(server) + "://" + server["HTTP_HOST"] + Marker + ReplaceControlChars(route)
  {
    var url := "https://" + adminHost + Marker + route + "?" + query;
    AdminUrlPath(adminHost, route, query);
    RestUrlOfRoutePath(url, server, ReplaceControlChars(route));
    BaseCarriesInboundHost(server);
  }

  /**
   * Control characters in a route reach the rewritten URL as '_': a newline inside the
   * route does not stop the match, and a final newline is kept as '_' rather than dropped.
   */
  lemma RestUrlControlChars(adminHost: string, query: string, server: map<string, string>)
    requires "HTTP_HOST" in server && server["HTTP_HOST"] != []
    requires server["HTTP_HOST"][|server["HTTP_HOST"]| - 1] != '/'
    requires '/' !in adminHost && '?' !in adminHost && '#' !in adminHost
    ensures RestUrl("https://" + adminHost + Marker + "x\ny" + "?" + query, server)
            == Scheme(server) + "://" + server["HTTP_HOST"] + Marker + "x_y"
    ensures RestUrl("https://" + adminHost + Marker + "x\n" + "?" + query, server)
            == Scheme(server) + "://" + server["HTTP_HOST"] + Marker + "x_"
  {
    NewlinesBecomeUnderscores();
    RestUrlMovesToInboundHost(adminHost, "x\ny", query, server);
    RestUrlMovesToInboundHost(adminHost, "x\n", query, server);
  }

  /** The replacement on the two routes above: each newline becomes '_'. */
  lemma NewlinesBecomeUnderscores()
    ensures ReplaceControlChars("x\ny") == "x_y"
    ensures ReplaceControlChars("x\n") == "x_"
  {
    assert IsControl('\n') && !IsControl('x') && !IsControl('y');
  }

  /** The posts route holds no control character, so parsing leaves it as it is. */
  lemma PostsRouteIsClean()
    ensures ReplaceControlChars("wp/v2/posts") == "wp/v2/posts"
  {
    var route := "wp/v2/posts";
    forall i | 0 <= i < |route| ensures !IsControl(route[i]) {
      assert route[i] in "wp/v2/posts";
    }
    ReplaceControlCharsKeeps(route);
  }

  /**
   * The round trip for the posts route: admin host and query in, inbound host out, for
   * any `$_SERVER` whose host is example.com and whose scheme is https.
   */
  lemma PostsRouteExample(server: map<string, string>)
    requires Get(server, "HTTP_HOST") == Some("example.com") && Scheme(server) == "https"
    ensures RestUrl("https://" + "admin.example.com" + Marker + "wp/v2/posts" + "?" + "page=2", server)
            == "https" + "://" + "example.com" + Marker + "wp/v2/posts"
  {
    assert '/' !in "admin.example.com" && '?' !in "admin.example.com" && '#' !in "admin.example.com";
    assert '?' !in "wp/v2/posts" && '#' !in "wp/v2/posts";
    RestUrlMovesToInboundHost("admin.example.com", "wp/v2/posts", "page=2", server);
    PostsRouteIsClean();
  }

  /**
   * A plain-permalink REST URL (`/?rest_route=...`) has path '/', which holds no marker,
   * so it becomes the bare base and the route in its query is dropped.
   */
  lemma RestRouteQueryGivesBase(adminHost: string, route: string, server: map<string, string>)
    requires "HTTP_HOST" in server
    requires '/' !in adminHost && '?' !in adminHost && '#' !in adminHost
    ensures RestUrl("https://" + adminHost + "/?rest_route=" + route, server) == Base(server)
  {
    var url := "https://" + adminHost + "/?rest_route=" + route;
    assert url == "https" + "://" + adminHost + "/" + ("?rest_route=" + route);
    UrlPathOfAbsolute("https", adminHost, "/", "?rest_route=" + route);
    assert UrlPath(url) == ReplaceControlChars("/");
    ReplaceControlCharsKeeps("/");
  }

  /**
   * The pattern on its own follows PCRE: a final newline is matched by '$' but not
   * captured, while a newline inside the route makes the match fail. The filter never
   * shows the pattern a newline, because `UrlPath` has replaced it by '_'.
   */
  lemma RestRouteNewlines()
    ensures RestRoute("/wp-json/wp/v2/posts\n") == Some("wp/v2/posts")
    ensures RestRoute("/wp-json/a\nb") == None
  {
    var q := "/wp-json/wp/v2/posts\n";
    assert q[..|Marker|] == Marker;
    assert q[|Marker|..] == "wp/v2/posts\n";
    assert "wp/v2/posts\n"[..11] == "wp/v2/posts";
    assert MatchesAt(q, 0);

    var p := "/wp-json/a\nb";
    assert p[|Marker|..] == "a\nb";
    assert !MatchesAt(p, 0);
    assert !OccursAt(p, Marker, 1) by { assert p[1] != Marker[0]; }
    assert !OccursAt(p, Marker, 2) by { assert p[2] != Marker[0]; }
    assert !OccursAt(p, Marker, 3) by { assert p[3] != Marker[0]; }
    assert FirstMatchFrom(p, 4) == None;
    assert FirstMatchFrom(p, 3) == None;
    assert FirstMatchFrom(p, 2) == None;
    assert FirstMatchFrom(p, 1) == None;
  }

  /** The captured route is a stretch of the path, so it holds no character the path lacks. */
  lemma RouteWithinPath(path: string)
    requires RestRoute(path).Some?
    requires '?' !in path && '#' !in path
    requires forall i :: 0 <= i < |path| ==> !IsControl(path[i])
    ensures '?' !in RestRoute(path).value && '#' !in RestRoute(path).value
    ensures forall i :: 0 <= i < |RestRoute(path).value| ==> !IsControl(RestRoute(path).value[i])
  {
    var m := RestRoute(path).value;
    var j :| 0 <= j && MatchesAt(path, j) && m == Captured(path[j + |Marker|..]);
    var rest := path[j + |Marker|..];
    forall i | 0 <= i < |m| ensures m[i] == path[j + |Marker| + i] {
      assert m[i] == rest[i];
    }
  }

  /** What the filter appends to the base: a route free of control characters, '?' and '#'. */
  lemma FilteredRoute(url: string, server: map<string, string>) returns (m: string)
    requires "HTTP_HOST" in server
    ensures RestUrl(url, server) == Base(server) + m
    ensures '?' !in m && '#' !in m
    ensures forall i :: 0 <= i < |m| ==> !IsControl(m[i])
  {
    var path := UrlPath(url);
    if TruthyString(path) && RestRoute(path).Some? {
      m := RestRoute(path).value;
      RouteWithinPath(path);
    } else {
      m := "";
    }
  }

  /** A base followed by a clean route is left as it is by the filter. */
  lemma BaseRouteIsFixed(server: map<string, string>, m: string)
    requires "HTTP_HOST" in server
    requires server["HTTP_HOST"] != []
    requires '/' !in server["HTTP_HOST"] && '?' !in server["HTTP_HOST"] && '#' !in server["HTTP_HOST"]
    requires ':' !in Scheme(server)
    requires '?' !in m && '#' !in m
    requires forall i :: 0 <= i < |m| ==> !IsControl(m[i])
    ensures RestUrl(Base(server) + m, server) == Base(server) + m
  {
    var host := server["HTTP_HOST"];
    BaseCarriesInboundHost(server);
    var origin := Scheme(server) + "://" + host;
    var path2 := Marker + m;
    assert Base(server) + m == origin + path2 + "" by {
      assert (origin + Marker) + m == origin + (Marker + m) + "";
    }
    UrlPathOfAbsolute(Scheme(server), host, path2, "");
    ReplaceControlCharsAppend(Marker, m);
    MarkerIsClean();
    ReplaceControlCharsKeeps(m);
    RestUrlOfRoutePath(Base(server) + m, server, m);
  }

  /**
   * The filter is idempotent: its own output, filtered again under the same `$_SERVER`,
   * comes back unchanged -- given a non-empty host free of '/', '?' and '#' and a scheme
   * without ':', '?' and '#', so that the output parses back into base and route.
   */
  lemma RestUrlIdempotent(url: string, server: map<string, string>)
    requires "HTTP_HOST" in server
    requires server["HTTP_HOST"] != []
    requires '/' !in server["HTTP_HOST"] && '?' !in server["HTTP_HOST"] && '#' !in server["HTTP_HOST"]
    requires ':' !in Scheme(server) && '?' !in Scheme(server) && '#' !in Scheme(server)
    ensures RestUrl(RestUrl(url, server), server) == RestUrl(url, server)
  {
    var m := FilteredRoute(url, server);
    BaseRouteIsFixed(server, m);
  }


}
