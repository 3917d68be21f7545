/**
 * The gateway and the task service together: the identity a GraphQL resolver sees is the one the
 * gateway verified, whatever identity headers the client sent.
 */
module Pipeline {
  import opened Wrappers
  import opened Jwt
  import opened Express
  import opened AuthMiddleware
  import opened Gateway
  import opened TaskService

  /**
   * A `/graphql` request that reaches the task service carries, in its resolver context, the
   * verified token's id, email and role (null where the claim is empty); a request the gateway
   * refuses reaches no resolver at all.
   */
  lemma ResolverSeesVerifiedIdentity(
    config: Config, key: Option<Key>, verb: string, path: string, query: string, headers: map<string, string>,
    inlineFetch: FetchOutcome, lib: JwtLibrary, now: int, upstream: Upstream, timestamp: string)
    requires MountMatches(GRAPHQL_RULE.mount, path)
    ensures var out := Dispatch(config, key, verb, path, query, headers, inlineFetch, lib, now, upstream, timestamp);
      var v := Decide(KeyForRequest(key, inlineFetch), HeaderValue(headers, "authorization"), lib, now);
      && (v.Deny? ==> out.Replied?)
      && (v.Allow? ==>
            !out.Replied? &&
            var ctx := BuildContext(out.forward.headers);
            && ctx.userId == (if v.user.id != "" then Some(v.user.id) else None)
            && ctx.userEmail == (if v.user.email != "" then Some(v.user.email) else None)
            && ctx.userRole == (if v.user.role != "" then Some(v.user.role) else None))
  {
    MatchedChar(GRAPHQL_RULE.mount, path, 1);
    RouteOfMatchedMount(verb, path, 4);
  }

  /** Only a verified token with a non-empty id lets a `/graphql` caller create tasks. */
  lemma CreateTaskNeedsVerifiedId(
    config: Config, key: Option<Key>, verb: string, path: string, query: string, headers: map<string, string>,
    inlineFetch: FetchOutcome, lib: JwtLibrary, now: int, upstream: Upstream, timestamp: string)
    requires MountMatches(GRAPHQL_RULE.mount, path)
    ensures var out := Dispatch(config, key, verb, path, query, headers, inlineFetch, lib, now, upstream, timestamp);
      var v := Decide(KeyForRequest(key, inlineFetch), HeaderValue(headers, "authorization"), lib, now);
      !out.Replied? ==> v.Allow? && (Authenticated(BuildContext(out.forward.headers)) <==> v.user.id != "")
  {
    ResolverSeesVerifiedIdentity(config, key, verb, path, query, headers, inlineFetch, lib, now, upstream, timestamp);
  }
}
