/**
 * The three files acting on one request. wp-config-extra.php runs while WordPress boots;
 * at `template_redirect`, priority 0, the lockdown action runs before the canonical-redirect
 * suppressor (must-use plugins load in file-name order, and both register at priority 0);
 * the `rest_url` filter then rewrites the REST URLs WordPress generates.
 */
module Bootstrap {

  import opened Wrappers
  import opened Strings
  import opened WordPress
  import WpConfig
  import RestHost
  import HeadlessLockdown

  /**
   * Both `template_redirect` actions of the plugins: a blocked request ends with the 404
   * effects and `exit`, so the suppressor never runs and the hook table is untouched; an
   * allowed request emits nothing and loses `redirect_canonical` exactly when it is a
   * REST request.
   */
  method TemplateRedirect(rt: Request, isAdmin: bool)
    requires !rt.Exited()
    modifies rt`effects, rt`hooks
    ensures !HeadlessLockdown.Allowed(rt.constants, isAdmin, rt.server) ==>
      rt.effects == old(rt.effects) + HeadlessLockdown.BlockEffects && rt.hooks == old(rt.hooks)
    ensures HeadlessLockdown.Allowed(rt.constants, isAdmin, rt.server) ==> rt.effects == old(rt.effects)
    ensures HeadlessLockdown.Allowed(rt.constants, isAdmin, rt.server) && IsRestRequest(rt.constants) ==>
      rt.hooks == RemoveAction(old(rt.hooks), "template_redirect", "redirect_canonical")
    ensures !IsRestRequest(rt.constants) ==> rt.hooks == old(rt.hooks)
  {
    HeadlessLockdown.LockDown(rt, isAdmin);
    if rt.Exited() {
      return;
    }
    RestHost.SuppressCanonicalRedirect(rt);
  }

  /**
   * Boot with the configuration file, then filter one generated REST URL: the filter sees
   * `$_SERVER` as the proxy block left it.
   */
  method BootAndRewrite(rt: Request, env: map<string, string>, url: string) returns (rewritten: string)
    modifies rt`constants, rt`server
    ensures rt.constants == WpConfig.Configured(old(rt.constants), env)
    ensures rt.server == WpConfig.Forwarded(old(rt.server))
    ensures rewritten == RestHost.RestUrl(url, WpConfig.Forwarded(old(rt.server)))
  {
    WpConfig.LoadConfig(rt, env);
    rewritten := RestHost.RestUrl(url, rt.server);
  }

  /**
   * Behind a proxy that sends X-Forwarded-Host, every REST URL produced after boot starts
   * with the forwarded scheme and host: the inbound origin, never the admin origin of
   * WP_HOME, which the filter does not read.
   */
  lemma ForwardedOriginReachesRestUrl(server: map<string, string>, url: string)
    requires !Empty(server, WpConfig.ForwardedHost)
    requires server[WpConfig.ForwardedHost][|server[WpConfig.ForwardedHost]| - 1] != '/'
    ensures StartsWith(RestHost.RestUrl(url, WpConfig.Forwarded(server)),
      RestHost.Scheme(WpConfig.Forwarded(server)) + "://" + server[WpConfig.ForwardedHost] + RestHost.Marker)
    ensures !Empty(server, WpConfig.ForwardedProto) ==>
      RestHost.Scheme(WpConfig.Forwarded(server)) == server[WpConfig.ForwardedProto]
  {
    var s := WpConfig.Forwarded(server);
    assert Get(s, "HTTP_HOST") == Some(server[WpConfig.ForwardedHost]);
    assert Get(s, WpConfig.ForwardedProto) == Get(server, WpConfig.ForwardedProto);
    RestHost.BaseCarriesInboundHost(s);
  }
}
