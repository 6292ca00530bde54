/**
 * backend/wp-content/mu-plugins/headless-lockdown.php: a `template_redirect` action that
 * lets REST, admin, login, cron, XML-RPC and asset requests through and answers every
 * other front-end request with an uncacheable 404.
 */
module HeadlessLockdown {

  import opened Strings
  import opened WordPress

  /** `$allow`, in the order the loop tries them. */
  const AllowList: seq<string> := ["/wp-login.php", "/wp-admin/", "/wp-cron.php", "/xmlrpc.php"]

  /** The asset trees tested after the loop. */
  const IncludesRoot := "/wp-includes/"
  const ContentRoot := "/wp-content/"

  /** Every prefix that lets a request through, as a set: the reference the decision is checked against. */
  const AllowedPrefixes: set<string> := {
    "/wp-login.php", "/wp-admin/", "/wp-cron.php", "/xmlrpc.php", "/wp-includes/", "/wp-content/"
  }

  /** The effects of a blocked request, in order: `status_header(404)`, `nocache_headers()`, `exit`. */
  const BlockEffects: seq<Effect> := [StatusHeader(404), NoCacheHeaders, Exit]

  /** Whether `uri` starts with some entry of `prefixes`. */
  function StartsWithAny(uri: string, prefixes: seq<string>): (r: bool)
    ensures r <==> exists i :: 0 <= i < |prefixes| && StartsWith(uri, prefixes[i])
  {
    if prefixes == [] then false
    else StartsWith(uri, prefixes[0]) || StartsWithAny(uri, prefixes[1..])
  }

  /** `$_SERVER['REQUEST_URI'] ?? ''`: the raw request URI, query string included. */
  function RequestUri(server: map<string, string>): (r: string)
    ensures "REQUEST_URI" in server ==> r == server["REQUEST_URI"]
    ensures "REQUEST_URI" !in server ==> r == ""
  {
    Get(server, "REQUEST_URI").GetOr("")
  }

  /**
   * The URI test of lines 12-21: an entry of the allow list, or one of the two asset trees.
   * Every allowed URI is an absolute path of at least ten characters.
   */
  predicate PathAllowed(uri: string)
    ensures PathAllowed(uri) ==> |uri| >= 10 && uri[0] == '/'
  {
    assert forall i :: 0 <= i < |AllowList| ==> |AllowList[i]| >= 10 && AllowList[i][0] == '/';
    StartsWithAny(uri, AllowList) || StartsWith(uri, IncludesRoot) || StartsWith(uri, ContentRoot)
  }

  /**
   * The request goes through: a REST request, an admin request, or an allowed URI. Without
   * either flag a request with no REQUEST_URI never passes.
   */
  predicate Allowed(constants: map<string, Value>, isAdmin: bool, server: map<string, string>)
    ensures Allowed(constants, isAdmin, server) ==> IsRestRequest(constants) || isAdmin || "REQUEST_URI" in server
    ensures IsRestRequest(constants) || isAdmin ==> Allowed(constants, isAdmin, server)
  {
    IsRestRequest(constants) || isAdmin || PathAllowed(RequestUri(server))
  }

  /**
   * The action: return early for REST and admin requests and for allowed URIs; otherwise
   * send a 404, send no-cache headers and exit. `is_admin()` is an input.
   */
  method LockDown(rt: Request, isAdmin: bool)
    modifies rt`effects
    ensures Allowed(rt.constants, isAdmin, rt.server) ==> rt.effects == old(rt.effects)
    ensures !Allowed(rt.constants, isAdmin, rt.server) ==> rt.effects == old(rt.effects) + BlockEffects
  {
    if IsRestRequest(rt.constants) {
      return;
    }
    if isAdmin {
      return;
    }
    var uri := RequestUri(rt.server);

    var i := 0;
    while i < |AllowList|
      invariant 0 <= i <= |AllowList|
      invariant forall k :: 0 <= k < i ==> !StartsWith(uri, AllowList[k])
      invariant rt.effects == old(rt.effects)
    {
      if StartsWith(uri, AllowList[i]) {
        return;
      }
      i := i + 1;
    }
    if StartsWith(uri, IncludesRoot) || StartsWith(uri, ContentRoot) {
      return;
    }

    rt.Emit(StatusHeader(404));
    rt.Emit(NoCacheHeaders);
    rt.Emit(Exit);
  }

  /** The loop over a list decides the same as membership of some prefix in the list. */
  lemma {:induction false} StartsWithAnyMembers(uri: string, prefixes: seq<string>)
    ensures StartsWithAny(uri, prefixes) <==> exists p :: p in prefixes && StartsWith(uri, p)
  {
    if StartsWithAny(uri, prefixes) {
      var i :| 0 <= i < |prefixes| && StartsWith(uri, prefixes[i]);
      assert prefixes[i] in prefixes;
    }
  }

  /** The URI test is exactly "starts with one of the six allowed prefixes", case-sensitively. */
  lemma PathAllowedIff(uri: string)
    ensures PathAllowed(uri) <==> exists p :: p in AllowedPrefixes && StartsWith(uri, p)
  {
    StartsWithAnyMembers(uri, AllowList);
    assert forall p :: p in AllowedPrefixes <==> p in AllowList || p == IncludesRoot || p == ContentRoot;
  }

  /** The decision does not depend on the order of the allow list's entries. */
  lemma AllowListOrderFree(uri: string, reordered: seq<string>)
    requires multiset(reordered) == multiset(AllowList)
    ensures StartsWithAny(uri, reordered) == StartsWithAny(uri, AllowList)
  {
    StartsWithAnyMembers(uri, reordered);
    StartsWithAnyMembers(uri, AllowList);
    assert forall p :: p in reordered <==> p in AllowList by {
      forall p ensures p in reordered <==> p in AllowList {
        assert p in reordered <==> p in multiset(reordered);
      }
    }
  }

  /** The set of allowed URIs is closed under extension: a query or a deeper path keeps it allowed. */
  lemma AllowedClosedUnderExtension(uri: string, more: string)
    requires PathAllowed(uri)
    ensures PathAllowed(uri + more)
  {
    PathAllowedIff(uri);
    var p :| p in AllowedPrefixes && StartsWith(uri, p);
    StartsWithExtended(uri, p, more);
    PathAllowedIff(uri + more);
  }

  /**
   * The complete decision: REST and admin requests pass whatever the URI, any other request
   * passes exactly when its URI, '' if missing, starts with one of the six prefixes.
   */
  lemma AllowedIff(constants: map<string, Value>, isAdmin: bool, server: map<string, string>)
    ensures Allowed(constants, isAdmin, server) <==>
      IsRestRequest(constants) || isAdmin ||
      exists p :: p in AllowedPrefixes && StartsWith(RequestUri(server), p)
  {
    PathAllowedIff(RequestUri(server));
  }

  /** No prefix is shorter than one character, so a missing or empty URI is blocked. */
  lemma EmptyUriBlocked(constants: map<string, Value>, isAdmin: bool, server: map<string, string>)
    requires !IsRestRequest(constants) && !isAdmin
    requires "REQUEST_URI" !in server || server["REQUEST_URI"] == ""
    ensures !Allowed(constants, isAdmin, server)
  {
    PathAllowedIff("");
  }

  /**
   * The allow list has no entry for the REST root, so a '/wp-json/' URI gets through only
   * on the REST flag (or the admin flag).
   */
  lemma RestRootNotListed(rest: string)
    ensures !PathAllowed("/wp-json/" + rest)
  {
    var uri := "/wp-json/" + rest;
    assert uri[1] == 'w' && uri[4] == 'j';
    DiffersAt(uri, "/wp-login.php", 4);
    DiffersAt(uri, "/wp-admin/", 4);
    DiffersAt(uri, "/wp-cron.php", 4);
    DiffersAt(uri, "/xmlrpc.php", 1);
    DiffersAt(uri, "/wp-includes/", 4);
    DiffersAt(uri, "/wp-content/", 4);
    PathAllowedIff(uri);
  }

  /**
   * Boundary cases of the prefix test: '/wp-admin' without its slash and the upper-case
   * '/WP-ADMIN/' are blocked, '/wp-admin/' and a login URI with a query pass, and a
   * theme route such as '/blog/some-post' is blocked.
   */
  lemma PrefixBoundaries()
    ensures !PathAllowed("/wp-admin")
    ensures PathAllowed("/wp-admin/")
    ensures !PathAllowed("/WP-ADMIN/")
    ensures PathAllowed("/wp-login.php?action=x")
    ensures !PathAllowed("/blog/some-post")
  {
    PathAllowedIff("/wp-admin");

    assert StartsWith("/wp-admin/", "/wp-admin/");
    assert AllowList[1] == "/wp-admin/";

    var upper := "/WP-ADMIN/";
    DiffersAt(upper, "/wp-admin/", 1);
    PathAllowedIff(upper);

    assert "/wp-login.php?action=x" == "/wp-login.php" + "?action=x";
    assert StartsWith("/wp-login.php", "/wp-login.php");
    assert AllowList[0] == "/wp-login.php";
    AllowedClosedUnderExtension("/wp-login.php", "?action=x");

    var blog := "/blog/some-post";
    DiffersAt(blog, "/wp-login.php", 1);
    DiffersAt(blog, "/wp-admin/", 1);
    DiffersAt(blog, "/wp-cron.php", 1);
    DiffersAt(blog, "/xmlrpc.php", 1);
    DiffersAt(blog, "/wp-includes/", 1);
    DiffersAt(blog, "/wp-content/", 1);
    PathAllowedIff(blog);
  }
}
