/**
 * backend/wp-config-extra.php: constants derived from the environment, each defined only
 * if nothing defined it before, and `$_SERVER` rewritten from the reverse proxy's
 * X-Forwarded-Proto, X-Forwarded-Port and X-Forwarded-Host headers.
 */
module WpConfig {

  import opened Wrappers
  import opened Strings
  import opened WordPress

  const ForwardedProto := "HTTP_X_FORWARDED_PROTO"
  const ForwardedPort := "HTTP_X_FORWARDED_PORT"
  const ForwardedHost := "HTTP_X_FORWARDED_HOST"

  /**
   * `getenv($name) ?: $fallback`: the variable's value unless it is unset, "" or "0". The
   * result comes from one of the two sources, a falsy variable never comes out, and so a
   * truthy fallback makes the result truthy.
   */
  function EnvOr(env: map<string, string>, name: string, fallback: string): (r: string)
    ensures r == fallback || Get(env, name) == Some(r)
    ensures TruthyString(r) || r == fallback
    ensures TruthyString(fallback) ==> TruthyString(r)
    ensures Get(env, name) !in {None, Some(""), Some("0")} ==> r == env[name]
  {
    if name in env && TruthyString(env[name]) then env[name] else fallback
  }

  /**
   * `$env`: the environment type, 'development' when the variable is unset or falsy; it
   * is never "" or "0".
   */
  function EnvironmentType(env: map<string, string>): (r: string)
    ensures TruthyString(r)
    ensures r == "development" || Get(env, "WP_ENVIRONMENT_TYPE") == Some(r)
  {
    EnvOr(env, "WP_ENVIRONMENT_TYPE", "development")
  }

  /**
   * `$admin_origin`: ADMIN_ORIGIN, or else 'https://' followed by ADMIN_HOST, where an
   * unset ADMIN_HOST (getenv's false) concatenates as the empty string.
   */
  function AdminOrigin(env: map<string, string>): (r: string)
    ensures TruthyString(r)
    ensures Get(env, "ADMIN_ORIGIN") == Some(r) || StartsWith(r, "https://")
    ensures Get(env, "ADMIN_ORIGIN") in {None, Some(""), Some("0")} ==>
      r == "https://" + Get(env, "ADMIN_HOST").GetOr("")
  {
    EnvOr(env, "ADMIN_ORIGIN", "https://" + Get(env, "ADMIN_HOST").GetOr(""))
  }

  /**
   * The values lines 3-13 give the constants that were not defined before. Both debug
   * switches follow the environment type this block computed, not a predefined constant.
   */
  function EnvironmentDefaults(env: map<string, string>): (r: map<string, Value>)
    ensures r.Keys == {"WP_ENVIRONMENT_TYPE", "WP_DEBUG", "WP_DEBUG_LOG", "JWT_AUTH_SECRET_KEY", "JWT_AUTH_CORS_ENABLE"}
    ensures r["WP_DEBUG"] == r["WP_DEBUG_LOG"] == Bool(r["WP_ENVIRONMENT_TYPE"] != Str("production"))
    ensures r["WP_ENVIRONMENT_TYPE"].Str? && TruthyString(r["WP_ENVIRONMENT_TYPE"].s)
    ensures r["JWT_AUTH_SECRET_KEY"].Str? && TruthyString(r["JWT_AUTH_SECRET_KEY"].s)
  {
    var isDev := EnvironmentType(env) != "production";
    map[
      "WP_ENVIRONMENT_TYPE" := Str(EnvironmentType(env)),
      "WP_DEBUG" := Bool(isDev),
      "WP_DEBUG_LOG" := Bool(isDev),
      "JWT_AUTH_SECRET_KEY" := Str(EnvOr(env, "JWT_SECRET_KEY", "change-this-secret")),
      "JWT_AUTH_CORS_ENABLE" := Bool(true)
    ]
  }

  /** The values lines 27-32 give the constants that were not defined before. */
  function AdminDefaults(env: map<string, string>): (r: map<string, Value>)
    ensures r.Keys == {"WP_HOME", "WP_SITEURL", "FORCE_SSL_ADMIN"}
    ensures r["WP_HOME"] == r["WP_SITEURL"] == Str(AdminOrigin(env))
    ensures r["FORCE_SSL_ADMIN"] == Bool(true)
  {
    map[
      "WP_HOME" := Str(AdminOrigin(env)),
      "WP_SITEURL" := Str(AdminOrigin(env)),
      "FORCE_SSL_ADMIN" := Bool(true)
    ]
  }

  /** The value each constant of the file receives when it was not defined before. */
  function Defaults(env: map<string, string>): map<string, Value>
  {
    EnvironmentDefaults(env) + AdminDefaults(env)
  }

  const ConfiguredNames: set<string> := {
    "WP_ENVIRONMENT_TYPE", "WP_DEBUG", "WP_DEBUG_LOG", "JWT_AUTH_SECRET_KEY",
    "JWT_AUTH_CORS_ENABLE", "WP_HOME", "WP_SITEURL", "FORCE_SSL_ADMIN"
  }

  /**
   * The constant table after the block runs on `constants`. Define-if-absent is a map
   * union in which the constants that already exist win over the defaults.
   */
  function Configured(constants: map<string, Value>, env: map<string, string>): (r: map<string, Value>)
    ensures r.Keys == constants.Keys + ConfiguredNames
    ensures forall k :: k in constants ==> r[k] == constants[k]
    ensures forall k :: k in ConfiguredNames && k !in constants ==> r[k] == Defaults(env)[k]
  {
    Defaults(env) + constants
  }

  /** The `$_SERVER` entries the proxy headers override: only HTTPS, SERVER_PORT and HTTP_HOST. */
  function ProxyOverrides(server: map<string, string>): (r: map<string, string>)
    ensures r.Keys <= {"HTTPS", "SERVER_PORT", "HTTP_HOST"}
    ensures "HTTPS" in r <==> !Empty(server, ForwardedProto)
    ensures "SERVER_PORT" in r <==> !Empty(server, ForwardedPort)
    ensures "HTTP_HOST" in r <==> !Empty(server, ForwardedHost)
    ensures "HTTPS" in r ==> r["HTTPS"] in {"on", ""}
  {
    (if Empty(server, ForwardedProto) then map[]
     else map["HTTPS" := if server[ForwardedProto] == "https" then "on" else ""])
    + (if Empty(server, ForwardedPort) then map[] else map["SERVER_PORT" := server[ForwardedPort]])
    + (if Empty(server, ForwardedHost) then map[] else map["HTTP_HOST" := server[ForwardedHost]])
  }

  /**
   * `$_SERVER` after the proxy block: a non-empty forwarded proto sets HTTPS to 'on' exactly
   * for 'https' and to '' otherwise; a non-empty forwarded port or host is copied verbatim;
   * every other entry, and every entry whose header is missing, "" or "0", is untouched.
   */
  function Forwarded(server: map<string, string>): (r: map<string, string>)
    ensures forall k :: k != "HTTPS" && k != "SERVER_PORT" && k != "HTTP_HOST" ==> Get(r, k) == Get(server, k)
    ensures Empty(server, ForwardedProto) ==> Get(r, "HTTPS") == Get(server, "HTTPS")
    ensures !Empty(server, ForwardedProto) ==> "HTTPS" in r && (r["HTTPS"] == "on" <==> server[ForwardedProto] == "https")
    ensures !Empty(server, ForwardedProto) ==> r["HTTPS"] in {"on", ""}
    ensures Empty(server, ForwardedPort) ==> Get(r, "SERVER_PORT") == Get(server, "SERVER_PORT")
    ensures !Empty(server, ForwardedPort) ==> Get(r, "SERVER_PORT") == Some(server[ForwardedPort])
    ensures Empty(server, ForwardedHost) ==> Get(r, "HTTP_HOST") == Get(server, "HTTP_HOST")
    ensures !Empty(server, ForwardedHost) ==> Get(r, "HTTP_HOST") == Some(server[ForwardedHost])
  {
    server + ProxyOverrides(server)
  }

  /** Lines 16-24: trust the reverse proxy's headers by rewriting `$_SERVER` in place. */
  method TrustProxyHeaders(rt: Request)
    modifies rt`server
    ensures rt.server == Forwarded(old(rt.server))
  {
    if !Empty(rt.server, ForwardedProto) {
      rt.server := rt.server["HTTPS" := if rt.server[ForwardedProto] == "https" then "on" else ""];
    }
    if !Empty(rt.server, ForwardedPort) {
      rt.server := rt.server["SERVER_PORT" := rt.server[ForwardedPort]];
    }
    if !Empty(rt.server, ForwardedHost) {
      rt.server := rt.server["HTTP_HOST" := rt.server[ForwardedHost]];
    }
  }

  /**
   * Define-if-absent over a table that is `defined + before`: when `defined` does not hold
   * `name` yet, defining it there is the same as adding it to `defined`.
   */
  lemma DefineOverUnion(defined: map<string, Value>, before: map<string, Value>, name: string, v: Value)
    requires name !in defined
    ensures (if name in defined + before then defined + before else (defined + before)[name := v])
            == defined[name := v] + before
  {
  }

  /** Lines 3-13: the environment type, debug switches and JWT settings. */
  method DefineEnvironmentConstants(rt: Request, env: map<string, string>)
    modifies rt`constants
    ensures rt.constants == EnvironmentDefaults(env) + old(rt.constants)
  {
    ghost var before := rt.constants;
    ghost var defined: map<string, Value> := map[];
    var envType := EnvOr(env, "WP_ENVIRONMENT_TYPE", "development");
    DefineOverUnion(defined, before, "WP_ENVIRONMENT_TYPE", Str(envType));
    rt.DefineIfUndefined("WP_ENVIRONMENT_TYPE", Str(envType));
    defined := defined["WP_ENVIRONMENT_TYPE" := Str(envType)];
    assert rt.constants == defined + before;

    var isDev := envType != "production";
    DefineOverUnion(defined, before, "WP_DEBUG", Bool(isDev));
    rt.DefineIfUndefined("WP_DEBUG", Bool(isDev));
    defined := defined["WP_DEBUG" := Bool(isDev)];
    assert rt.constants == defined + before;
    DefineOverUnion(defined, before, "WP_DEBUG_LOG", Bool(isDev));
    rt.DefineIfUndefined("WP_DEBUG_LOG", Bool(isDev));
    defined := defined["WP_DEBUG_LOG" := Bool(isDev)];
    assert rt.constants == defined + before;

    var secret := EnvOr(env, "JWT_SECRET_KEY", "change-this-secret");
    DefineOverUnion(defined, before, "JWT_AUTH_SECRET_KEY", Str(secret));
    rt.DefineIfUndefined("JWT_AUTH_SECRET_KEY", Str(secret));
    defined := defined["JWT_AUTH_SECRET_KEY" := Str(secret)];
    assert rt.constants == defined + before;
    DefineOverUnion(defined, before, "JWT_AUTH_CORS_ENABLE", Bool(true));
    rt.DefineIfUndefined("JWT_AUTH_CORS_ENABLE", Bool(true));
    defined := defined["JWT_AUTH_CORS_ENABLE" := Bool(true)];
    assert rt.constants == defined + before;
    assert defined == EnvironmentDefaults(env);
  }

  /** Lines 27-32: the canonical admin origin and the SSL switch for the admin screens. */
  method DefineAdminConstants(rt: Request, env: map<string, string>)
    modifies rt`constants
    ensures rt.constants == AdminDefaults(env) + old(rt.constants)
  {
    var adminOrigin := EnvOr(env, "ADMIN_ORIGIN", "https://" + Get(env, "ADMIN_HOST").GetOr(""));
    rt.DefineIfUndefined("WP_HOME", Str(adminOrigin));
    rt.DefineIfUndefined("WP_SITEURL", Str(adminOrigin));

    rt.DefineIfUndefined("FORCE_SSL_ADMIN", Bool(true));
  }

  /** Running lines 3-13 and then lines 27-32 defines what `Defaults` describes. */
  lemma DefaultsInFileOrder(env: map<string, string>, before: map<string, Value>)
    ensures AdminDefaults(env) + (EnvironmentDefaults(env) + before) == Defaults(env) + before
  {
    var admin, environment := AdminDefaults(env), EnvironmentDefaults(env);
    assert admin.Keys !! environment.Keys;
    assert admin + (environment + before) == (environment + admin) + before;
  }

  /** The whole file, top to bottom, against the request's constant table and `$_SERVER`. */
  method LoadConfig(rt: Request, env: map<string, string>)
    modifies rt`constants, rt`server
    ensures rt.constants == Configured(old(rt.constants), env)
    ensures rt.server == Forwarded(old(rt.server))
  {
    DefineEnvironmentConstants(rt, env);
    TrustProxyHeaders(rt);
    DefineAdminConstants(rt, env);
    DefaultsInFileOrder(env, old(rt.constants));
  }

  /**
   * WP_ENVIRONMENT_TYPE keeps an existing definition; otherwise it is the environment
   * variable, or 'development' when that is unset, "" or "0".
   */
  lemma EnvironmentTypeFallback(c: map<string, Value>, env: map<string, string>)
    ensures "WP_ENVIRONMENT_TYPE" in c ==> Configured(c, env)["WP_ENVIRONMENT_TYPE"] == c["WP_ENVIRONMENT_TYPE"]
    ensures "WP_ENVIRONMENT_TYPE" !in c && Get(env, "WP_ENVIRONMENT_TYPE") in {None, Some(""), Some("0")} ==>
      Configured(c, env)["WP_ENVIRONMENT_TYPE"] == Str("development")
    ensures "WP_ENVIRONMENT_TYPE" !in c && Get(env, "WP_ENVIRONMENT_TYPE") !in {None, Some(""), Some("0")} ==>
      Configured(c, env)["WP_ENVIRONMENT_TYPE"] == Str(env["WP_ENVIRONMENT_TYPE"])
  {
    assert "WP_ENVIRONMENT_TYPE" in ConfiguredNames;
    assert Defaults(env)["WP_ENVIRONMENT_TYPE"] == Str(EnvironmentType(env));
  }

  /**
   * WP_DEBUG and WP_DEBUG_LOG, each when newly defined, are true exactly when the
   * environment variable is not the literal 'production' -- whatever WP_ENVIRONMENT_TYPE
   * was defined as, and whether or not the other switch was predefined.
   */
  lemma DebugUnlessProduction(c: map<string, Value>, env: map<string, string>)
    ensures "WP_DEBUG" !in c ==>
      Configured(c, env)["WP_DEBUG"] == Bool(Get(env, "WP_ENVIRONMENT_TYPE") != Some("production"))
    ensures "WP_DEBUG_LOG" !in c ==>
      Configured(c, env)["WP_DEBUG_LOG"] == Bool(Get(env, "WP_ENVIRONMENT_TYPE") != Some("production"))
    ensures "WP_DEBUG" in c ==> Configured(c, env)["WP_DEBUG"] == c["WP_DEBUG"]
    ensures "WP_DEBUG_LOG" in c ==> Configured(c, env)["WP_DEBUG_LOG"] == c["WP_DEBUG_LOG"]
  {
  }

  /** The JWT secret falls back to a fixed placeholder; CORS for the JWT plugin defaults to on. */
  lemma JwtSettings(c: map<string, Value>, env: map<string, string>)
    ensures "JWT_AUTH_SECRET_KEY" !in c && Get(env, "JWT_SECRET_KEY") in {None, Some(""), Some("0")} ==>
      Configured(c, env)["JWT_AUTH_SECRET_KEY"] == Str("change-this-secret")
    ensures "JWT_AUTH_SECRET_KEY" !in c && Get(env, "JWT_SECRET_KEY") !in {None, Some(""), Some("0")} ==>
      Configured(c, env)["JWT_AUTH_SECRET_KEY"] == Str(env["JWT_SECRET_KEY"])
    ensures "JWT_AUTH_CORS_ENABLE" !in c ==> Configured(c, env)["JWT_AUTH_CORS_ENABLE"] == Bool(true)
  {
  }

  /**
   * WP_HOME and WP_SITEURL, each when newly defined, get `$admin_origin`: ADMIN_ORIGIN if
   * set and truthy, else 'https://' and ADMIN_HOST -- just 'https://' when that is unset.
   * When both are new they are equal; a predefined one keeps its value.
   */
  lemma AdminOriginShared(c: map<string, Value>, env: map<string, string>)
    ensures "WP_HOME" !in c && "WP_SITEURL" !in c ==>
      Configured(c, env)["WP_HOME"] == Configured(c, env)["WP_SITEURL"]
    ensures forall name :: name in {"WP_HOME", "WP_SITEURL"} && name !in c ==>
      Configured(c, env)[name] == Str(AdminOrigin(env))
    ensures forall name :: name in {"WP_HOME", "WP_SITEURL"} && name in c ==>
      Configured(c, env)[name] == c[name]
    ensures "ADMIN_ORIGIN" in env && TruthyString(env["ADMIN_ORIGIN"]) ==> AdminOrigin(env) == env["ADMIN_ORIGIN"]
    ensures !("ADMIN_ORIGIN" in env && TruthyString(env["ADMIN_ORIGIN"])) && "ADMIN_HOST" in env ==>
      AdminOrigin(env) == "https://" + env["ADMIN_HOST"]
    ensures !("ADMIN_ORIGIN" in env && TruthyString(env["ADMIN_ORIGIN"])) && "ADMIN_HOST" !in env ==>
      AdminOrigin(env) == "https://"
  {
  }

  /** FORCE_SSL_ADMIN is true unless it was defined before, in which case it keeps its value. */
  lemma ForceSslAdmin(c: map<string, Value>, env: map<string, string>)
    ensures Configured(c, env)["FORCE_SSL_ADMIN"] ==
      if "FORCE_SSL_ADMIN" in c then c["FORCE_SSL_ADMIN"] else Bool(true)
  {
  }

  /**
   * Running the file a second time, under any environment, leaves the constant table as the
   * first run left it: every constant it defines is already defined.
   */
  lemma ConfiguredIdempotent(c: map<string, Value>, env: map<string, string>, env': map<string, string>)
    ensures Configured(Configured(c, env), env') == Configured(c, env)
  {
    var once := Configured(c, env);
    var twice := Configured(once, env');
    assert twice.Keys == once.Keys;
    forall k | k in once ensures twice[k] == once[k] {
    }
  }

  /** Rewriting `$_SERVER` a second time changes nothing: the forwarded headers are never written. */
  lemma {:induction false} ForwardedIdempotent(server: map<string, string>)
    ensures Forwarded(Forwarded(server)) == Forwarded(server)
  {
    var once := Forwarded(server);
    var twice := Forwarded(once);
    assert Get(once, ForwardedProto) == Get(server, ForwardedProto);
    assert Get(once, ForwardedPort) == Get(server, ForwardedPort);
    assert Get(once, ForwardedHost) == Get(server, ForwardedHost);
    forall k ensures Get(twice, k) == Get(once, k) {
    }
    assert twice.Keys == once.Keys by {
      forall k ensures k in twice <==> k in once {
        assert Get(twice, k) == Get(once, k);
      }
    }
  }

  /**
   * Only an X-Forwarded-Proto of exactly 'https' turns HTTPS on: 'https' sets it to 'on'
   * whatever it was before, 'ftp' or 'HTTPS' set it to '', and "0" leaves it alone.
   */
  lemma ForwardedProtoCases(server: map<string, string>)
    ensures Forwarded(server[ForwardedProto := "https"])["HTTPS"] == "on"
    ensures Forwarded(server[ForwardedProto := "ftp"])["HTTPS"] == ""
    ensures Forwarded(server[ForwardedProto := "HTTPS"])["HTTPS"] == ""
    ensures Get(Forwarded(server[ForwardedProto := "0"]), "HTTPS") == Get(server, "HTTPS")
  {
  }
}
