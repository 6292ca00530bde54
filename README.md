# Headless WordPress request glue, modelled in Dafny

The repository runs WordPress headless behind a reverse proxy. Its own logic is three small PHP files:

- `backend/wp-config-extra.php` derives configuration constants from the environment. Each constant is defined only if nothing defined it before. The file also rewrites `$_SERVER` from the proxy's `X-Forwarded-Proto`, `X-Forwarded-Port` and `X-Forwarded-Host` headers.
- `backend/wp-content/mu-plugins/rest-host.php` has a `rest_url` filter. The filter rebuilds every generated REST URL as `scheme://host/wp-json/<route>`, using the inbound request's scheme and host. A `template_redirect` action in the same file unhooks `redirect_canonical` for REST requests.
- `backend/wp-content/mu-plugins/headless-lockdown.php` has a `template_redirect` action. It lets REST, admin, login, cron, XML-RPC and asset requests through. Every other request gets a 404, no-cache headers and `exit`.

The Dafny modules follow those files:

| module | models |
|---|---|
| `Wrappers` | `Option` |
| `Strings` | `str_starts_with`, `rtrim($s, '/')`, the control-character replacement of `parse_url`, and search helpers with full contracts |
| `WordPress` | PHP values and truthiness, `empty()`, the action table and `remove_action`, the effect log, and class `Request`: the mutable `$_SERVER`, constant table, hook table and effect log of one request |
| `WpConfig` | `wp-config-extra.php`: methods that mutate a `Request`, proved against the declarative specifications `Configured` (`Defaults(env) + constants`) and `Forwarded` |
| `RestHost` | `rest-host.php`: the pure filter `RestUrl` and the imperative suppressor `SuppressCanonicalRedirect` |
| `HeadlessLockdown` | `headless-lockdown.php`: the allow decision as the predicate `PathAllowed`, and `LockDown`, which runs the `foreach` loop and appends the block effects |
| `Bootstrap` | the files composed: boot, then filter; the two `template_redirect` actions in load order |

Define-if-absent (`if (!defined(X)) define(X, v)`) is a right-biased map union: `Defaults(env) + constants` keeps every existing constant. The PCRE pattern `#/wp-json/(.*)$#` is modelled exactly on its own. It takes the leftmost start. `.` does not match a newline. `$` matches at the end or just before a final newline. Inside the filter the pattern never sees a newline: `parse_url` has already turned every control character of the path into `'_'`, and `UrlPath` does the same.

Three behaviours of the code are worth stating plainly:

- The filter returns only the base and the route, so the query string and fragment are dropped.
- A forwarded header of `""` or `"0"` is ignored, because the code tests `!empty()`.
- A proto other than `'https'` sets `HTTPS` to `''`, but the `rest_url` filter still uses it verbatim, so `ftp` yields `ftp://`.

## Model

| member | source | states |
|---|---|---|
| `WordPress.Request.DefineIfUndefined` | backend/wp-config-extra.php:4 | defining a constant that already exists leaves the table unchanged; otherwise it adds exactly that one entry |
| `WordPress.TruthyString` | backend/wp-config-extra.php:3 | the truthiness `?:` and `empty()` use: only `""` and `"0"` are false, so every string of two or more characters (`"00"`, `"false"`) is true |
| `WordPress.Empty` | backend/wp-config-extra.php:16 | `empty($m[$k])` holds exactly when the slot is missing, `""` or `"0"` |
| `WpConfig.EnvOr` | backend/wp-config-extra.php:3 | `getenv(x) ?: fallback` is either the fallback or the variable's own value, never a falsy variable; a truthy fallback makes the result truthy; a variable that is set and not `""` or `"0"` is the result |
| `WpConfig.EnvironmentType` | backend/wp-config-extra.php:3 | `$env` is never `""` or `"0"`; it is `'development'` or the variable's value |
| `WpConfig.EnvironmentDefaults` | backend/wp-config-extra.php:3-13 | the block's five constants; both debug switches are true exactly when the computed environment type is not `'production'`; the environment type and JWT secret are never falsy |
| `WpConfig.AdminOrigin` | backend/wp-config-extra.php:27 | `$admin_origin` is never falsy; it is ADMIN_ORIGIN or starts with `'https://'`, and when ADMIN_ORIGIN is unset or falsy it is `'https://'` followed by ADMIN_HOST, or by nothing |
| `WpConfig.AdminDefaults` | backend/wp-config-extra.php:27-32 | the block's three constants; WP_HOME and WP_SITEURL both get `$admin_origin`; FORCE_SSL_ADMIN gets true |
| `WpConfig.Configured` | backend/wp-config-extra.php:3-32 | after the file runs, the constant table holds the old constants plus the eight the file defines; every old constant keeps its value; every new one gets its default |
| `WpConfig.DefineEnvironmentConstants` | backend/wp-config-extra.php:3-13 | the five defines in source order produce `EnvironmentDefaults(env) + old constants` |
| `WpConfig.DefineAdminConstants` | backend/wp-config-extra.php:27-32 | the three defines produce `AdminDefaults(env) + old constants` |
| `WpConfig.LoadConfig` | backend/wp-config-extra.php:3-32 | the whole file leaves the constants as `Configured(old, env)` and `$_SERVER` as `Forwarded(old)`, and changes nothing else |
| `WpConfig.EnvironmentTypeFallback` | backend/wp-config-extra.php:3-4 | an existing WP_ENVIRONMENT_TYPE is kept; otherwise it is the env value, or `'development'` when that is unset, `""` or `"0"` |
| `WpConfig.DebugUnlessProduction` | backend/wp-config-extra.php:7-9 | each of WP_DEBUG and WP_DEBUG_LOG, when new, is true exactly when the env variable is not the literal `'production'`, whatever WP_ENVIRONMENT_TYPE was defined as and whether the other switch was predefined; a predefined one keeps its value |
| `WpConfig.JwtSettings` | backend/wp-config-extra.php:12-13 | the JWT secret is JWT_SECRET_KEY when truthy, else `'change-this-secret'`; JWT CORS defaults to true |
| `WpConfig.AdminOriginShared` | backend/wp-config-extra.php:27-29 | each of WP_HOME and WP_SITEURL, when new, gets `$admin_origin` (so both are equal when both are new), and a predefined one keeps its value; `$admin_origin` is ADMIN_ORIGIN, else `'https://'` + ADMIN_HOST, or just `'https://'` when ADMIN_HOST is unset |
| `WpConfig.ForceSslAdmin` | backend/wp-config-extra.php:32 | FORCE_SSL_ADMIN is true unless it was predefined, in which case it keeps its value |
| `WpConfig.ConfiguredIdempotent` | backend/wp-config-extra.php:4-32 | a second run of the file, under any environment, leaves the constant table unchanged |
| `WpConfig.ProxyOverrides` | backend/wp-config-extra.php:16-24 | the proxy block writes only HTTPS, SERVER_PORT and HTTP_HOST, each exactly when its forwarded header is non-empty; HTTPS is always `'on'` or `''` |
| `WpConfig.Forwarded` | backend/wp-config-extra.php:16-24 | only HTTPS, SERVER_PORT and HTTP_HOST can change; a non-empty proto sets HTTPS to `'on'` iff it is exactly `'https'`, else `''`; a non-empty port or host is copied verbatim; an empty header leaves its entry alone |
| `WpConfig.TrustProxyHeaders` | backend/wp-config-extra.php:16-24 | the three in-place updates of `$_SERVER` produce exactly `Forwarded(old server)` |
| `WpConfig.ForwardedIdempotent` | backend/wp-config-extra.php:16-24 | rewriting `$_SERVER` twice gives the same map as rewriting it once |
| `WpConfig.ForwardedProtoCases` | backend/wp-config-extra.php:16-18 | `'https'` sets HTTPS to `'on'` whatever it was; `'ftp'` and `'HTTPS'` set it to `''`; `"0"` leaves it untouched |
| `Strings.StartsWith` | backend/wp-content/mu-plugins/headless-lockdown.php:19 | `str_starts_with` holds exactly when the prefix is no longer than the string and agrees with it character by character |
| `Strings.TrimTrailingSlashes` | backend/wp-content/mu-plugins/rest-host.php:13 | `rtrim($s, '/')` is the prefix of `s` that drops exactly its trailing run of `'/'` |
| `RestHost.Scheme` | backend/wp-content/mu-plugins/rest-host.php:8-10 | `$scheme` is never empty; without a non-empty forwarded proto it is `'https'` or `'http'` |
| `RestHost.SchemeCases` | backend/wp-content/mu-plugins/rest-host.php:8-10 | a non-empty forwarded proto is the scheme verbatim (`'ftp'` stays `'ftp'`); otherwise the scheme is `'https'` iff HTTPS is exactly `'on'`, and `'http'` in every other case |
| `RestHost.Base` | backend/wp-content/mu-plugins/rest-host.php:13 | `$base` starts with the scheme and its `':'` (the trim never reaches further back) and ends with `/wp-json/` |
| `RestHost.BaseCarriesInboundHost` | backend/wp-content/mu-plugins/rest-host.php:12-13 | the base is `scheme://HTTP_HOST/wp-json/` with the inbound host verbatim, when that host is non-empty and does not end in `'/'` |
| `Strings.ReplaceControlChars` | backend/wp-content/mu-plugins/rest-host.php:15 | `parse_url` keeps the length of the path, turns each control character (codes 0-31 and 127) into `'_'` and keeps every other character in place |
| `RestHost.RawPath` | backend/wp-content/mu-plugins/rest-host.php:15 | where the simplified parser finds the path: it never contains `'?'` or `'#'` |
| `RestHost.UrlPath` | backend/wp-content/mu-plugins/rest-host.php:15 | `$p['path']` never contains `'?'`, `'#'`, a newline or any other control character |
| `RestHost.UrlPathOfAbsolute` | backend/wp-content/mu-plugins/rest-host.php:15 | parsing `scheme://authority/path?query` finds exactly `/path` |
| `RestHost.Captured` | backend/wp-content/mu-plugins/rest-host.php:16 | the `(.*)` group is the matched tail minus at most one final newline, and never holds a newline |
| `RestHost.FirstMatchFrom` | backend/wp-content/mu-plugins/rest-host.php:16 | `preg_match` succeeds iff some position matches; it then captures at the leftmost matching position |
| `RestHost.RestRoute` | backend/wp-content/mu-plugins/rest-host.php:16 | `preg_match` succeeds exactly when the pattern matches at some position, and `$m[1]` never holds a newline |
| `RestHost.RestRouteNewlines` | backend/wp-content/mu-plugins/rest-host.php:16 | for the pattern alone: `$` matches before a final newline, which is not captured, and a newline inside the route makes the match fail (the filter never passes it a newline) |
| `RestHost.RestUrl` | backend/wp-content/mu-plugins/rest-host.php:5-20 | with no HTTP_HOST the URL is returned unchanged; otherwise every result starts with the base |
| `RestHost.RestUrlKeepsRoute` | backend/wp-content/mu-plugins/rest-host.php:15-17 | when the parsed path holds `/wp-json/`, the result is the base plus everything after its first occurrence; query and fragment are dropped |
| `RestHost.RestUrlWithoutRoute` | backend/wp-content/mu-plugins/rest-host.php:15-19 | a path with no `/wp-json/` (including an empty path) yields exactly the base |
| `RestHost.RestRouteQueryGivesBase` | backend/wp-content/mu-plugins/rest-host.php:15-19 | `https://admin/?rest_route=...` yields the bare base; the route in the query is lost |
| `RestHost.RestUrlMovesToInboundHost` | backend/wp-content/mu-plugins/rest-host.php:12-17 | a URL generated on the admin host comes out on the inbound scheme and host, with its route kept (control characters as `'_'`) and its query dropped |
| `RestHost.RestUrlControlChars` | backend/wp-content/mu-plugins/rest-host.php:15-17 | a route `x\ny` comes out as `x_y` and a route `x\n` as `x_`: the newline is neither a barrier to the match nor dropped |
| `RestHost.PostsRouteExample` | backend/wp-content/mu-plugins/rest-host.php:8-17 | `https://admin.example.com/wp-json/wp/v2/posts?page=2`, under host `example.com` and scheme `https`, becomes `https://example.com/wp-json/wp/v2/posts` |
| `RestHost.BaseRouteIsFixed` | backend/wp-content/mu-plugins/rest-host.php:13-19 | for a non-empty host free of `'/'`, `'?'` and `'#'` and a scheme without `':'`, a base followed by a route free of control characters, `'?'` and `'#'` is a fixed point of the filter |
| `RestHost.RestUrlIdempotent` | backend/wp-content/mu-plugins/rest-host.php:13-19 | filtering the filter's own output under the same `$_SERVER` returns it unchanged |
| `RestHost.SuppressCanonicalRedirect` | backend/wp-content/mu-plugins/rest-host.php:25-32 | for a truthy REST_REQUEST the hook table becomes `RemoveAction(old, 'template_redirect', 'redirect_canonical')`; otherwise it is unchanged |
| `WordPress.IsRestRequest` | backend/wp-content/mu-plugins/rest-host.php:26 | `defined('REST_REQUEST') && REST_REQUEST` needs the constant; true makes it hold, and false, `''` or `'0'` make it fail |
| `WordPress.Without` | backend/wp-content/mu-plugins/rest-host.php:30 | removing one registration yields the old multiset with every copy of it gone, and nothing else changed |
| `WordPress.WithoutKeepsOrder` | backend/wp-content/mu-plugins/rest-host.php:30 | removal distributes over concatenation and keeps or drops single registrations, so the registrations that stay keep their order |
| `WordPress.RemoveAction` | backend/wp-content/mu-plugins/rest-host.php:30 | `redirect_canonical` at priority 10 is gone from the hook; every other registration and every other hook is unchanged |
| `HeadlessLockdown.RequestUri` | backend/wp-content/mu-plugins/headless-lockdown.php:9 | `$_SERVER['REQUEST_URI'] ?? ''` is the URI when present and `''` otherwise |
| `HeadlessLockdown.PathAllowed` | backend/wp-content/mu-plugins/headless-lockdown.php:12-21 | every URI the test lets through starts with `'/'` and has at least ten characters |
| `HeadlessLockdown.Allowed` | backend/wp-content/mu-plugins/headless-lockdown.php:7-21 | either flag lets a request through; without them a request with no REQUEST_URI never passes |
| `HeadlessLockdown.StartsWithAny` | backend/wp-content/mu-plugins/headless-lockdown.php:18-20 | the `foreach` returns early iff some entry of the list is a prefix of the URI |
| `HeadlessLockdown.LockDown` | backend/wp-content/mu-plugins/headless-lockdown.php:6-27 | an allowed request emits nothing; a blocked one appends exactly `[404, no-cache headers, exit]` |
| `HeadlessLockdown.StartsWithAnyMembers` | backend/wp-content/mu-plugins/headless-lockdown.php:18-20 | the loop's answer is "some member of the list is a prefix of the URI" |
| `HeadlessLockdown.PathAllowedIff` | backend/wp-content/mu-plugins/headless-lockdown.php:12-21 | a URI passes iff it starts, case-sensitively, with one of the six prefixes |
| `HeadlessLockdown.AllowedIff` | backend/wp-content/mu-plugins/headless-lockdown.php:7-21 | a request passes iff REST_REQUEST is truthy, or `is_admin()` holds, or its URI (`''` if missing) starts with one of the six prefixes |
| `HeadlessLockdown.AllowListOrderFree` | backend/wp-content/mu-plugins/headless-lockdown.php:12-20 | any reordering of the allow list gives the same decision |
| `HeadlessLockdown.AllowedClosedUnderExtension` | backend/wp-content/mu-plugins/headless-lockdown.php:18-21 | if a URI passes, so does the URI with anything appended, such as a query |
| `HeadlessLockdown.EmptyUriBlocked` | backend/wp-content/mu-plugins/headless-lockdown.php:9-26 | a missing or empty REQUEST_URI is blocked when neither flag is set |
| `HeadlessLockdown.RestRootNotListed` | backend/wp-content/mu-plugins/headless-lockdown.php:12-21 | no `/wp-json/...` URI passes the prefix test; only the flags let it through |
| `HeadlessLockdown.PrefixBoundaries` | backend/wp-content/mu-plugins/headless-lockdown.php:14-21 | `/wp-admin` and `/WP-ADMIN/` are blocked; `/wp-admin/` and `/wp-login.php?action=x` pass; `/blog/some-post` is blocked |
| `WordPress.Request.Emit` | backend/wp-content/mu-plugins/headless-lockdown.php:24-26 | each response effect is appended to the request's log, after every earlier one |
| `Bootstrap.TemplateRedirect` | backend/wp-content/mu-plugins/headless-lockdown.php:23-26 | a blocked request ends with the 404 effects and `exit`, and the suppressor never runs; an allowed REST request loses `redirect_canonical` |
| `Bootstrap.BootAndRewrite` | backend/wp-content/mu-plugins/rest-host.php:12 | after boot, the filter sees `$_SERVER` as the proxy block left it |
| `Bootstrap.ForwardedOriginReachesRestUrl` | backend/wp-config-extra.php:22-24 | behind a proxy sending X-Forwarded-Host, every REST URL starts with the forwarded scheme and host, never the admin origin |

## Left out

- `getenv` is a map from variable names to strings. An unset variable is a missing key.
- `is_admin()` is a boolean input.
- `status_header`, `nocache_headers` and `exit` are effects appended to a log. The header contents of `nocache_headers` are WordPress's and are not modelled.
- Constants hold only strings and booleans, the two kinds this code defines. A REST_REQUEST of another PHP type (an integer, say) is outside the model.
- The action table records each registration's callback name and priority, in order. WordPress's priority scheduling is not modelled. Neither is the timing of a removal during a running hook.
- `wp_parse_url` is simplified. The authority is whatever follows the first `://` (or a leading `//`), up to the first `/`, `?` or `#`. The path then runs to the first `?` or `#`, and its control characters become `'_'` as in PHP. Two parts of PHP's `parse_url` are not modelled. It returns false for some URLs, such as `http:///x`, a host with a non-numeric port like `example.com:abc`, or a port above 65535. It also checks the scheme's syntax, so a `'?'` or `'#'` before the `://` starts the query or fragment.
- RestUrlIdempotent: idempotence is a property of the simplified parser. In PHP it fails for a host with an invalid port (`example.com:abc`, or a port above 65535), where `parse_url` fails and the second pass returns the bare base. It also fails for a forwarded proto that `parse_url` does not accept as a scheme. A scheme may hold only letters, digits, `'+'`, `'-'` and `'.'`; with any other character PHP reads the output differently. A proto containing `'?'` or `'#'` starts the query or fragment. A proto such as `x/wp-json/` makes the whole output a path, and the second pass returns the base + `://host/wp-json/<route>`. The lemma therefore requires a scheme without `':'`, `'?'` and `'#'`, and a non-empty host without `/`, `?` and `#`. It excludes neither invalid ports nor the other characters PHP refuses in a scheme, such as `'/'`.
- The trusted-proxy question is left as the code has it. Forwarded headers are trusted unconditionally, and no validation is added.
- The HTTP integration tests under `tests/api/` and their client helper are out of scope. They exercise WordPress core and the JWT plugin, which this repository does not implement.
