/**
 * The gateway's routing (api-gateway/server.js): the ordered mounts, the anchored path rewrites,
 * the identity headers written on protected proxies, the translation of transport errors, the
 * 404 fallback, the final error handler and `/health`.
 *
 * A backend's answer, or the transport error that replaced it, is an input; the gateway's own
 * answers and what it forwards are the output.
 */
module Gateway {
  import opened Wrappers
  import opened Strings
  import opened Jwt
  import opened Express
  import opened AuthMiddleware

  const DEFAULT_REST_API_URL: string := "http://rest-api:3001"
  const DEFAULT_GRAPHQL_API_URL: string := "http://graphql-api:4000"

  const ROUTE_NOT_FOUND: string := "Route not found on gateway"
  const INTERNAL_ERROR: string := "Internal server error"
  const GENERIC_MESSAGE: string := "Something went wrong"
  const DEVELOPMENT: string := "development"

  const X_USER_ID: string := "x-user-id"
  const X_USER_EMAIL: string := "x-user-email"
  const X_USER_ROLE: string := "x-user-role"

  /** `process.env.NAME || fallback`: an unset or empty variable gives the fallback. */
  function EnvOr(env: Option<string>, fallback: string): (r: string)
    ensures env.Some? && env.value != "" ==> r == env.value
    ensures env.None? || env.value == "" ==> r == fallback
  {
    if env.Some? && env.value != "" then env.value else fallback
  }

  /** The environment the gateway reads: the two backend base URLs and NODE_ENV. */
  datatype Config = Config(restApiUrl: string, graphqlApiUrl: string, nodeEnv: Option<string>)

  /** The configuration from REST_API_URL, GRAPHQL_API_URL and NODE_ENV. */
  function LoadConfig(restEnv: Option<string>, graphqlEnv: Option<string>, nodeEnv: Option<string>): (c: Config)
    ensures c.restApiUrl == EnvOr(restEnv, DEFAULT_REST_API_URL) && c.graphqlApiUrl == EnvOr(graphqlEnv, DEFAULT_GRAPHQL_API_URL)
    ensures c.restApiUrl != "" && c.graphqlApiUrl != ""
    ensures restEnv.None? ==> c.restApiUrl == DEFAULT_REST_API_URL
    ensures graphqlEnv.None? ==> c.graphqlApiUrl == DEFAULT_GRAPHQL_API_URL
    ensures c.nodeEnv == nodeEnv
  {
    Config(EnvOr(restEnv, DEFAULT_REST_API_URL), EnvOr(graphqlEnv, DEFAULT_GRAPHQL_API_URL), nodeEnv)
  }

  datatype Backend = RestApi | GraphqlApi

  /** `pathRewrite: { '^pattern': replacement }`: replace a leading `pattern`. */
  datatype PathRewrite = PathRewrite(pattern: string, replacement: string)

  /**
   * One `app.use(mount, ...)` proxy: its backend, its rewrite, whether `authMiddleware` runs
   * before it, and the message of its `onError` handler if it has one.
   */
  datatype ProxyRule = ProxyRule(
    mount: string,
    backend: Backend,
    rewrite: Option<PathRewrite>,
    protected: bool,
    unavailable: Option<string>)

  const AUTH_RULE: ProxyRule :=
    ProxyRule("/api/auth", RestApi, Some(PathRewrite("/api/auth", "/auth")), false, None)
  const PUBLIC_KEY_RULE: ProxyRule :=
    ProxyRule("/api/public-key", RestApi, Some(PathRewrite("/api/public-key", "/public-key")), false, None)
  const USERS_RULE: ProxyRule :=
    ProxyRule("/api/users", RestApi, Some(PathRewrite("/api/users", "/api/users")), true, Some("REST API service unavailable"))
  const TEAMS_RULE: ProxyRule :=
    ProxyRule("/api/teams", RestApi, Some(PathRewrite("/api/teams", "/api/teams")), true, Some("Team API service unavailable"))
  const GRAPHQL_RULE: ProxyRule :=
    ProxyRule("/graphql", GraphqlApi, None, true, Some("GraphQL API service unavailable"))

  /** The proxies in registration order. */
  const RULES: seq<ProxyRule> := [AUTH_RULE, PUBLIC_KEY_RULE, USERS_RULE, TEAMS_RULE, GRAPHQL_RULE]

  /** Express mount matching: the mount itself or the mount followed by a path segment. */
  predicate MountMatches(mount: string, path: string) {
    path == mount || StartsWith(path, mount + "/")
  }

  /** `app.get('/health')`: GET, and HEAD which Express answers with the GET handler; a trailing slash is allowed. */
  predicate IsHealthCheck(verb: string, path: string) {
    (verb == "GET" || verb == "HEAD") && (path == "/health" || path == "/health/")
  }

  /** The index of the first rule whose mount matches `path`. */
  function FirstMatch(rules: seq<ProxyRule>, path: string): (r: Option<nat>)
    ensures r.Some? ==> r.value < |rules| && MountMatches(rules[r.value].mount, path)
    ensures r.Some? ==> forall j :: 0 <= j < r.value ==> !MountMatches(rules[j].mount, path)
    ensures r.None? <==> forall j :: 0 <= j < |rules| ==> !MountMatches(rules[j].mount, path)
    decreases |rules|
  {
    if rules == [] then None
    else if MountMatches(rules[0].mount, path) then Some(0)
    else
      match FirstMatch(rules[1..], path)
      case None => None
      case Some(i) => Some(i + 1)
  }

  datatype Route = HealthRoute | ProxyRoute(rule: ProxyRule) | NotFoundRoute

  /** The handler that answers a request: `/health` first, then the proxies in order, then the catch-all 404. */
  function MatchRoute(verb: string, path: string): (r: Route)
    ensures r.HealthRoute? <==> IsHealthCheck(verb, path)
    ensures r.ProxyRoute? ==>
      exists i :: 0 <= i < |RULES| && r.rule == RULES[i] && MountMatches(RULES[i].mount, path) &&
        forall j :: 0 <= j < i ==> !MountMatches(RULES[j].mount, path)
    ensures r.NotFoundRoute? <==>
      !IsHealthCheck(verb, path) && forall j :: 0 <= j < |RULES| ==> !MountMatches(RULES[j].mount, path)
  {
    if IsHealthCheck(verb, path) then HealthRoute
    else
      match FirstMatch(RULES, path)
      case Some(i) => ProxyRoute(RULES[i])
      case None => NotFoundRoute
  }

  /** Mount matching only depends on the mount being a prefix of the path. */
  lemma MatchIsPrefix(mount: string, path: string)
    requires MountMatches(mount, path)
    ensures StartsWith(path, mount)
  {
    if path != mount {
      assert path[..|mount|] == path[..|mount + "/"|][..|mount|];
      assert (mount + "/")[..|mount|] == mount;
    }
  }

  /** A path a mount matches agrees with the mount at every position of the mount. */
  lemma MatchedChar(mount: string, path: string, k: nat)
    requires k < |mount|
    ensures MountMatches(mount, path) ==> k < |path| && path[k] == mount[k]
  {
    if MountMatches(mount, path) {
      MatchIsPrefix(mount, path);
      assert path[..|mount|][k] == mount[k];
    }
  }

  /**
   * The table is not ambiguous: no path matches two mounts, so registration order never decides
   * between two proxies.
   */
  lemma MountsDisjoint(path: string, i: nat, j: nat)
    requires i < j < |RULES|
    ensures !(MountMatches(RULES[i].mount, path) && MountMatches(RULES[j].mount, path))
  {
    // "/api/auth", "/api/public-key", "/api/users" and "/api/teams" differ at position 5;
    // "/graphql" differs from all of them at position 1.
    var k: nat := if j == 4 then 1 else 5;
    MatchedChar(RULES[i].mount, path, k);
    MatchedChar(RULES[j].mount, path, k);
  }

  /** Whatever the order, a path a mount matches is routed to that mount's proxy (unless it is the health check). */
  lemma {:induction false} RouteOfMatchedMount(verb: string, path: string, i: nat)
    requires i < |RULES| && MountMatches(RULES[i].mount, path) && !IsHealthCheck(verb, path)
    ensures MatchRoute(verb, path) == ProxyRoute(RULES[i])
  {
    var r := MatchRoute(verb, path);
    assert RULES[i] in RULES;
    var k :| 0 <= k < |RULES| && r.rule == RULES[k] && MountMatches(RULES[k].mount, path) &&
      forall j :: 0 <= j < k ==> !MountMatches(RULES[j].mount, path);
    if k < i {
      MountsDisjoint(path, k, i);
    }
  }

  /** A `'^pattern'` rewrite applied to the original URL (path and query). */
  function RewritePath(rule: ProxyRule, url: string): (r: string)
    ensures rule.rewrite.None? || !StartsWith(url, rule.rewrite.value.pattern) ==> r == url
  {
    match rule.rewrite
    case None => url
    case Some(rw) =>
      if StartsWith(url, rw.pattern) then rw.replacement + url[|rw.pattern|..] else url
  }

  /**
   * What each proxy forwards for a path it matches: `/api/auth...` becomes `/auth...`,
   * `/api/public-key...` becomes `/public-key...`, and users, teams and GraphQL keep the path;
   * the query string always follows unchanged.
   */
  lemma ForwardedPath(rule: ProxyRule, path: string, query: string)
    requires rule in RULES && MountMatches(rule.mount, path)
    ensures rule == AUTH_RULE ==> RewritePath(rule, path + query) == "/auth" + path[|"/api/auth"|..] + query
    ensures rule == PUBLIC_KEY_RULE ==> RewritePath(rule, path + query) == "/public-key" + path[|"/api/public-key"|..] + query
    ensures rule != AUTH_RULE && rule != PUBLIC_KEY_RULE ==> RewritePath(rule, path + query) == path + query
  {
    MatchIsPrefix(rule.mount, path);
    var url := path + query;
    assert url[..|rule.mount|] == path[..|rule.mount|];
    assert url[|rule.mount|..] == path[|rule.mount|..] + query;
    assert path == path[..|rule.mount|] + path[|rule.mount|..];
  }

  /** The base URL a backend is reached at. */
  function BaseUrl(config: Config, backend: Backend): string {
    match backend
    case RestApi => config.restApiUrl
    case GraphqlApi => config.graphqlApiUrl
  }

  /**
   * The outgoing headers after `onProxyReq`: when `req.user` is set, the three identity headers are
   * overwritten with its id, email and role; every other header is forwarded as the client sent it.
   */
  function WithIdentity(headers: map<string, string>, user: Option<Claims>): (h: map<string, string>)
    ensures user.None? ==> h == headers
    ensures user.Some? ==>
      h.Keys == headers.Keys + {X_USER_ID, X_USER_EMAIL, X_USER_ROLE} &&
      h[X_USER_ID] == user.value.id && h[X_USER_EMAIL] == user.value.email && h[X_USER_ROLE] == user.value.role
    ensures forall name :: name in headers && name != X_USER_ID && name != X_USER_EMAIL && name != X_USER_ROLE ==>
      name in h && h[name] == headers[name]
  {
    match user
    case None => headers
    case Some(u) => headers[X_USER_ID := u.id][X_USER_EMAIL := u.email][X_USER_ROLE := u.role]
  }

  datatype Body =
    | ErrorBody(error: string)
    | ErrorDetail(error: string, message: string)
    | HealthBody(status: string, timestamp: string, restApi: string, graphqlApi: string)
    | Relayed(content: string)

  /** The request the proxy sends to a backend. */
  datatype Forward = Forward(verb: string, url: string, headers: map<string, string>)

  /** What came back from the backend: an answer, or a transport-level error. */
  datatype Upstream = Answered(status: int, content: string) | TransportError

  /**
   * How the gateway finished a request: it answered without contacting a backend, it forwarded and
   * answered with the backend's reply or with the proxy's `onError` message, or it forwarded and the
   * proxy library's own error handler answered (proxies without `onError`).
   */
  datatype Outcome =
    | Replied(status: int, body: Body)
    | Forwarded(forward: Forward, status: int, body: Body)
    | LibraryProxyError(forward: Forward)

  /** `GET /health`: always healthy, reporting both configured backend URLs. */
  function HealthReport(config: Config, timestamp: string): (b: Body)
    ensures b.HealthBody? && b.status == "healthy"
    ensures b.restApi == config.restApiUrl && b.graphqlApi == config.graphqlApiUrl
  {
    HealthBody("healthy", timestamp, config.restApiUrl, config.graphqlApiUrl)
  }

  /** The final error handler: always 500; the error's own message only when NODE_ENV is "development". */
  function HandleError(config: Config, errMessage: string): (r: Outcome)
    ensures r.Replied? && r.status == 500 && r.body.ErrorDetail? && r.body.error == INTERNAL_ERROR
    ensures config.nodeEnv == Some(DEVELOPMENT) ==> r.body.message == errMessage
    ensures config.nodeEnv != Some(DEVELOPMENT) ==> r.body.message == GENERIC_MESSAGE
  {
    Replied(500, ErrorDetail(INTERNAL_ERROR, if config.nodeEnv == Some(DEVELOPMENT) then errMessage else GENERIC_MESSAGE))
  }

  /** Outside development the error handler's answer reveals nothing about the error. */
  lemma ErrorDetailHidden(config: Config, err1: string, err2: string)
    requires config.nodeEnv != Some(DEVELOPMENT)
    ensures HandleError(config, err1) == HandleError(config, err2)
  {
  }

  /** The proxy's part: forward to the rule's backend and translate a transport error, never retrying. */
  function Proxy(config: Config, rule: ProxyRule, verb: string, url: string, headers: map<string, string>, upstream: Upstream): (r: Outcome)
    ensures r.Forwarded? || r.LibraryProxyError?
    ensures r.forward == Forward(verb, BaseUrl(config, rule.backend) + RewritePath(rule, url), headers)
    ensures upstream.Answered? ==> r == Forwarded(r.forward, upstream.status, Relayed(upstream.content))
    ensures upstream.TransportError? && rule.unavailable.Some? ==>
      r == Forwarded(r.forward, 500, ErrorBody(rule.unavailable.value))
    ensures upstream.TransportError? && rule.unavailable.None? ==> r.LibraryProxyError?
  {
    var fwd := Forward(verb, BaseUrl(config, rule.backend) + RewritePath(rule, url), headers);
    match upstream
    case Answered(status, content) => Forwarded(fwd, status, Relayed(content))
    case TransportError =>
      match rule.unavailable
      case Some(message) => Forwarded(fwd, 500, ErrorBody(message))
      case None => LibraryProxyError(fwd)
  }

  /**
   * The whole gateway for one request, given the cached key when the request arrives, the outcome
   * of the inline key fetch should one be needed, the token library, the clock and the backend.
   */
  function Dispatch(
    config: Config, key: Option<Key>,
    verb: string, path: string, query: string, headers: map<string, string>,
    inlineFetch: FetchOutcome, lib: JwtLibrary, now: int, upstream: Upstream, timestamp: string): Outcome
  {
    match MatchRoute(verb, path)
    case HealthRoute => Replied(200, HealthReport(config, timestamp))
    case NotFoundRoute => Replied(404, ErrorBody(ROUTE_NOT_FOUND))
    case ProxyRoute(rule) =>
      if rule.protected then
        match Decide(KeyForRequest(key, inlineFetch), HeaderValue(headers, "authorization"), lib, now)
        case Deny(status, error) => Replied(status, ErrorBody(error))
        case Allow(user) => Proxy(config, rule, verb, path + query, WithIdentity(headers, Some(user)), upstream)
      else Proxy(config, rule, verb, path + query, headers, upstream)
  }

  /** A path no route claims gets the gateway's 404, and nothing is forwarded. */
  lemma UnmatchedIsNotFound(
    config: Config, key: Option<Key>, verb: string, path: string, query: string, headers: map<string, string>,
    inlineFetch: FetchOutcome, lib: JwtLibrary, now: int, upstream: Upstream, timestamp: string)
    requires !IsHealthCheck(verb, path)
    requires forall rule :: rule in RULES ==> !MountMatches(rule.mount, path)
    ensures Dispatch(config, key, verb, path, query, headers, inlineFetch, lib, now, upstream, timestamp)
      == Replied(404, ErrorBody(ROUTE_NOT_FOUND))
  {
    assert forall j :: 0 <= j < |RULES| ==> RULES[j] in RULES;
  }

  /**
   * `/health`, `/api/auth` and `/api/public-key` never pass through the middleware: their outcome
   * does not depend on the key, the Authorization header or the token library, and is never a 401 or
   * a 503 of the gateway's own.
   */
  lemma PublicRoutesSkipAuthentication(
    config: Config, key1: Option<Key>, key2: Option<Key>,
    verb: string, path: string, query: string, headers: map<string, string>,
    fetch1: FetchOutcome, fetch2: FetchOutcome, lib1: JwtLibrary, lib2: JwtLibrary, now: int,
    upstream: Upstream, timestamp: string)
    requires IsHealthCheck(verb, path) || MountMatches(AUTH_RULE.mount, path) || MountMatches(PUBLIC_KEY_RULE.mount, path)
    ensures Dispatch(config, key1, verb, path, query, headers, fetch1, lib1, now, upstream, timestamp)
         == Dispatch(config, key2, verb, path, query, headers, fetch2, lib2, now, upstream, timestamp)
    ensures !Dispatch(config, key1, verb, path, query, headers, fetch1, lib1, now, upstream, timestamp).Replied?
         || IsHealthCheck(verb, path)
  {
    if IsHealthCheck(verb, path) {
    } else if MountMatches(AUTH_RULE.mount, path) {
      RouteOfMatchedMount(verb, path, 0);
    } else {
      RouteOfMatchedMount(verb, path, 1);
    }
  }

  /**
   * A protected route is forwarded exactly when the middleware lets the request through, and then
   * the backend sees the verified token's id, email and role in the identity headers whatever the
   * client put there; otherwise the gateway answers 503 or 401 itself and contacts no backend.
   */
  lemma ProtectedForwardedIffVerified(
    config: Config, key: Option<Key>, verb: string, path: string, query: string, headers: map<string, string>,
    inlineFetch: FetchOutcome, lib: JwtLibrary, now: int, upstream: Upstream, timestamp: string)
    requires MatchRoute(verb, path).ProxyRoute? && MatchRoute(verb, path).rule.protected
    ensures var out := Dispatch(config, key, verb, path, query, headers, inlineFetch, lib, now, upstream, timestamp);
      var v := Decide(KeyForRequest(key, inlineFetch), HeaderValue(headers, "authorization"), lib, now);
      && (out.Replied? <==> v.Deny?)
      && (v.Deny? ==> out == Replied(v.status, ErrorBody(v.error)) && (v.status == 401 || v.status == 503))
      && (v.Allow? ==>
            out.forward.headers[X_USER_ID] == v.user.id &&
            out.forward.headers[X_USER_EMAIL] == v.user.email &&
            out.forward.headers[X_USER_ROLE] == v.user.role)
  {
  }

  /** Before any key has been fetched, a protected request whose inline fetch fails gets 503 and reaches no backend. */
  lemma NoKeyNoBackend(
    config: Config, verb: string, path: string, query: string, headers: map<string, string>,
    lib: JwtLibrary, now: int, upstream: Upstream, timestamp: string)
    requires MatchRoute(verb, path).ProxyRoute? && MatchRoute(verb, path).rule.protected
    ensures Dispatch(config, None, verb, path, query, headers, FetchFailed, lib, now, upstream, timestamp)
      == Replied(503, ErrorBody(SERVICE_UNAVAILABLE))
  {
  }

  /**
   * The public proxies forward the client's headers untouched, identity headers included: nothing
   * strips a client-supplied `x-user-*` header on its way to `/auth` or `/public-key`.
   */
  lemma PublicProxiesForwardClientHeaders(
    config: Config, key: Option<Key>, verb: string, path: string, query: string, headers: map<string, string>,
    inlineFetch: FetchOutcome, lib: JwtLibrary, now: int, upstream: Upstream, timestamp: string)
    requires MatchRoute(verb, path).ProxyRoute? && !MatchRoute(verb, path).rule.protected
    ensures var out := Dispatch(config, key, verb, path, query, headers, inlineFetch, lib, now, upstream, timestamp);
      !out.Replied? && out.forward.headers == headers
  {
  }

  /** The outgoing request a proxy builds; `onProxyReq` may change its headers. */
  class ProxyRequest {
    const verb: string
    const url: string
    var headers: map<string, string>

    constructor (verb: string, url: string, headers: map<string, string>)
      ensures this.verb == verb && this.url == url && this.headers == headers
    {
      this.verb := verb;
      this.url := url;
      this.headers := headers;
    }

    /** The protected proxies' `onProxyReq`: three `setHeader` calls when `req.user` is set. */
    method SetIdentityHeaders(user: Option<Claims>)
      modifies this
      ensures headers == WithIdentity(old(headers), user)
    {
      if user.Some? {
        headers := headers[X_USER_ID := user.value.id];
        headers := headers[X_USER_EMAIL := user.value.email];
        headers := headers[X_USER_ROLE := user.value.role];
      }
    }
  }

  /** The gateway process: its configuration and its key cache. */
  class Gateway {
    const config: Config
    const keys: KeyCache

    /** Start-up: the configuration is read and the first key fetch is made. */
    constructor (config: Config, startupFetch: FetchOutcome)
      ensures this.config == config && fresh(keys)
      ensures keys.cachedKey == AfterFetch(None, startupFetch)
      ensures keys.scheduledRetries == if startupFetch.FetchFailed? then [RETRY_DELAY_MS] else []
    {
      this.config := config;
      var cache := new KeyCache();
      cache.FetchPublicKey(startupFetch);
      keys := cache;
    }

    /**
     * One request through the middleware stack. The key cache changes only when a protected route
     * found no key loaded and made its inline fetch.
     */
    method Handle(req: Request, inlineFetch: FetchOutcome, lib: JwtLibrary, now: int, upstream: Upstream, timestamp: string)
      returns (out: Outcome)
      modifies keys, req`user
      ensures out == Dispatch(config, old(keys.cachedKey), req.verb, req.path, req.query, req.headers,
                              inlineFetch, lib, now, upstream, timestamp)
      ensures var route := MatchRoute(req.verb, req.path);
        keys.cachedKey == if route.ProxyRoute? && route.rule.protected
                          then KeyForRequest(old(keys.cachedKey), inlineFetch) else old(keys.cachedKey)
      ensures var route := MatchRoute(req.verb, req.path);
        keys.scheduledRetries == old(keys.scheduledRetries) +
          (if route.ProxyRoute? && route.rule.protected && !KeyLoaded(old(keys.cachedKey)) && inlineFetch.FetchFailed?
           then [RETRY_DELAY_MS] else [])
      ensures var route := MatchRoute(req.verb, req.path);
        var v := Decide(KeyForRequest(old(keys.cachedKey), inlineFetch), req.Header("authorization"), lib, now);
        req.user == if route.ProxyRoute? && route.rule.protected && v.Allow? then Some(v.user) else old(req.user)
    {
      var route := MatchRoute(req.verb, req.path);
      match route
      case HealthRoute =>
        out := Replied(200, HealthReport(config, timestamp));
      case NotFoundRoute =>
        out := Replied(404, ErrorBody(ROUTE_NOT_FOUND));
      case ProxyRoute(rule) =>
        if rule.protected {
          var verdict := keys.Authenticate(req, inlineFetch, lib, now);
          if verdict.Deny? {
            return Replied(verdict.status, ErrorBody(verdict.error));
          }
        }
        var url := req.path + req.query;
        var proxyReq := new ProxyRequest(req.verb, BaseUrl(config, rule.backend) + RewritePath(rule, url), req.headers);
        if rule.protected {
          proxyReq.SetIdentityHeaders(req.user);
        }
        var fwd := Forward(proxyReq.verb, proxyReq.url, proxyReq.headers);
        match upstream
        case Answered(status, content) =>
          out := Forwarded(fwd, status, Relayed(content));
        case TransportError =>
          out := match rule.unavailable
            case Some(message) => Forwarded(fwd, 500, ErrorBody(message))
            case None => LibraryProxyError(fwd);
    }
  }

  /**
   * From a cold start to an admin's request: the start-up fetch fails, the first request to
   * `/api/teams` fetches key K1 inline, its token verifies under K1 with role "admin", and the teams
   * backend receives `x-user-role: admin`.
   */
  method ColdStartAdminRequest(lib: JwtLibrary, k1: Key, token: Token, claims: Claims, now: int, upstream: Upstream)
    returns (out: Outcome)
    requires k1 != "" && ' ' !in token
    requires claims.role == "admin"
    requires Verify(lib, token, k1, [RS256], now) == Some(claims)
    ensures out.Forwarded? || out.LibraryProxyError?
    ensures out.forward.url == DEFAULT_REST_API_URL + "/api/teams"
    ensures X_USER_ROLE in out.forward.headers && out.forward.headers[X_USER_ROLE] == "admin"
  {
    var gateway := new Gateway(LoadConfig(None, None, None), FetchFailed);
    var req := new Request("GET", "/api/teams", "", map["authorization" := BEARER_PREFIX + token]);
    ExtractTokenRoundTrip(token, "");
    assert BEARER_PREFIX + token + "" == BEARER_PREFIX + token;
    RouteOfMatchedMount("GET", "/api/teams", 3);
    out := gateway.Handle(req, Fetched(k1), lib, now, upstream, "");
  }
}
