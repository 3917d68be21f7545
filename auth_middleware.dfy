/**
 * The gateway's key cache and bearer-token gate (api-gateway/authMiddleware.js).
 *
 * The module-level `cachedPublicKey` becomes the field `KeyCache.cachedKey`. One HTTP fetch of
 * the identity service's `/public-key` is an outcome supplied by the caller: the body that was
 * served, or a failure (a network error or a non-2xx status, on which axios throws). The
 * `setTimeout` that a failed fetch arms is recorded as a scheduled retry delay.
 */
module AuthMiddleware {
  import opened Wrappers
  import opened Strings
  import opened Jwt
  import opened Express

  /** Milliseconds before a failed key fetch is tried again. */
  const RETRY_DELAY_MS: nat := 5000

  /** The authentication scheme prefix of section 2.1 of RFC 6750. */
  const BEARER_PREFIX: string := "Bearer "

  /** The only algorithm tokens may be signed with (section 3.3 of RFC 7518). */
  const ALLOWED_ALGORITHMS: seq<Algorithm> := [RS256]

  const SERVICE_UNAVAILABLE: string := "Service unavailable. Auth public key not loaded."
  const NO_TOKEN: string := "Unauthorized. No token provided."
  const INVALID_TOKEN: string := "Unauthorized. Invalid token."

  /** One attempt to fetch the public key. */
  datatype FetchOutcome = Fetched(body: Key) | FetchFailed

  /** What the middleware does with a request: call `next` with `req.user` set, or answer itself. */
  datatype Verdict = Allow(user: Claims) | Deny(status: int, error: string)

  /** JavaScript truthiness of the cached key: both `null` and an empty body count as "no key". */
  predicate KeyLoaded(key: Option<Key>) {
    key.Some? && key.value != ""
  }

  /** The cached key after one fetch: replaced wholesale by a served body, untouched by a failure. */
  function AfterFetch(key: Option<Key>, outcome: FetchOutcome): Option<Key> {
    match outcome
    case Fetched(body) => Some(body)
    case FetchFailed => key
  }

  /** The cached key after a run of fetches, oldest first. */
  function AfterFetches(key: Option<Key>, outcomes: seq<FetchOutcome>): Option<Key>
    decreases |outcomes|
  {
    if outcomes == [] then key
    else AfterFetch(AfterFetches(key, outcomes[..|outcomes| - 1]), outcomes[|outcomes| - 1])
  }

  /** The body served by the most recent successful fetch in `outcomes`, if there is one. */
  function LastServed(outcomes: seq<FetchOutcome>): Option<Key>
    decreases |outcomes|
  {
    if outcomes == [] then None
    else if outcomes[|outcomes| - 1].Fetched? then Some(outcomes[|outcomes| - 1].body)
    else LastServed(outcomes[..|outcomes| - 1])
  }

  /** How many of `outcomes` failed, and so armed a retry timer. */
  function Failures(outcomes: seq<FetchOutcome>): nat
    decreases |outcomes|
  {
    if outcomes == [] then 0
    else Failures(outcomes[..|outcomes| - 1]) + (if outcomes[|outcomes| - 1].FetchFailed? then 1 else 0)
  }

  /**
   * Whatever the order of successes and failures, the cache holds the body of the most recent
   * successful fetch, and the key it started with only when no fetch succeeded.
   */
  lemma {:induction false} CacheHoldsLatestServed(key: Option<Key>, outcomes: seq<FetchOutcome>)
    ensures AfterFetches(key, outcomes) == (if LastServed(outcomes).Some? then LastServed(outcomes) else key)
    decreases |outcomes|
  {
    if outcomes != [] {
      CacheHoldsLatestServed(key, outcomes[..|outcomes| - 1]);
    }
  }

  /** Nothing but a fetch writes the cache, and no fetch sets it back to `null`. */
  lemma {:induction false} CacheNeverCleared(key: Option<Key>, outcomes: seq<FetchOutcome>)
    requires key.Some? || LastServed(outcomes).Some?
    ensures AfterFetches(key, outcomes).Some?
  {
    CacheHoldsLatestServed(key, outcomes);
  }

  /** Failed fetches leave the cache exactly as it was. */
  lemma {:induction false} FailuresLeaveCache(key: Option<Key>, outcomes: seq<FetchOutcome>)
    requires forall i :: 0 <= i < |outcomes| ==> outcomes[i].FetchFailed?
    ensures AfterFetches(key, outcomes) == key
    ensures Failures(outcomes) == |outcomes|
    decreases |outcomes|
  {
    if outcomes != [] {
      FailuresLeaveCache(key, outcomes[..|outcomes| - 1]);
    }
  }

  /** A header the middleware accepts as carrying a token: present and starting with "Bearer ". */
  predicate HasBearer(authorization: Option<string>) {
    authorization.Some? && StartsWith(authorization.value, BEARER_PREFIX)
  }

  /**
   * `authHeader.split(' ')[1]`: after "Bearer ", the longest run of characters without a space.
   * "Bearer  abc" therefore yields the empty token and "Bearer abc def" yields "abc".
   */
  function ExtractToken(header: string): (token: Token)
    requires StartsWith(header, BEARER_PREFIX)
    ensures ' ' !in token
    ensures StartsWith(header[|BEARER_PREFIX|..], token)
    ensures |BEARER_PREFIX| + |token| == |header| || header[|BEARER_PREFIX| + |token|] == ' '
  {
    var rest := header[|BEARER_PREFIX|..];
    assert header == "Bearer" + [' '] + rest by {
      assert header[..|BEARER_PREFIX|] == BEARER_PREFIX;
      assert header == header[..|BEARER_PREFIX|] + rest;
    }
    SplitAfterSeparator("Bearer", rest, ' ');
    Split(header, ' ')[1]
  }

  /** The header a client builds from a space-free token is read back as that same token. */
  lemma {:induction false} ExtractTokenRoundTrip(token: Token, trailer: string)
    requires ' ' !in token
    ensures StartsWith(BEARER_PREFIX + token + trailer, BEARER_PREFIX)
    ensures trailer == [] || trailer[0] == ' ' ==> ExtractToken(BEARER_PREFIX + token + trailer) == token
  {
    var header := BEARER_PREFIX + token + trailer;
    assert header[..|BEARER_PREFIX|] == BEARER_PREFIX;
    if trailer == [] || trailer[0] == ' ' {
      var t := ExtractToken(header);
      var rest := header[|BEARER_PREFIX|..];
      assert rest == token + trailer;
      assert forall i :: 0 <= i < |t| ==> rest[i] == t[i] && rest[i] != ' ';
      assert forall i :: 0 <= i < |token| ==> rest[i] == token[i] && rest[i] != ' ';
      assert |token| == |rest| || rest[|token|] == ' ';
      assert |t| == |token|;
      assert t == rest[..|t|] == token;
    }
  }

  /**
   * The key the checks run against: the cached one when it is loaded, otherwise the result of
   * exactly one inline fetch.
   */
  function KeyForRequest(key: Option<Key>, inlineFetch: FetchOutcome): (k: Option<Key>)
    ensures KeyLoaded(key) ==> k == key
    ensures !KeyLoaded(key) ==> k == AfterFetch(key, inlineFetch)
  {
    if KeyLoaded(key) then key else AfterFetch(key, inlineFetch)
  }

  /**
   * The middleware's checks in their order, against a key that has already been refreshed if
   * need be: no key gives 503 whatever the headers; then a missing or non-Bearer header gives 401;
   * then verification with RS256 alone decides between 401 and letting the request through.
   */
  function Decide(key: Option<Key>, authorization: Option<string>, lib: JwtLibrary, now: int): (v: Verdict)
    ensures !KeyLoaded(key) ==> v == Deny(503, SERVICE_UNAVAILABLE)
    ensures KeyLoaded(key) && !HasBearer(authorization) ==> v == Deny(401, NO_TOKEN)
    ensures v.Allow? <==>
      KeyLoaded(key) && HasBearer(authorization) &&
      Verify(lib, ExtractToken(authorization.value), key.value, [RS256], now).Some?
    ensures v.Allow? ==>
      HasBearer(authorization) &&
      Verify(lib, ExtractToken(authorization.value), key.value, [RS256], now) == Some(v.user) &&
      lib.headerAlg(ExtractToken(authorization.value)) == Some(RS256)
    ensures v.Deny? ==> v.status == 503 || v.status == 401
    ensures v.Deny? && v.status == 503 <==> !KeyLoaded(key)
    ensures v.Deny? && v.status == 401 ==> v.error == NO_TOKEN || v.error == INVALID_TOKEN
    ensures KeyLoaded(key) && HasBearer(authorization) ==>
      (Verify(lib, ExtractToken(authorization.value), key.value, [RS256], now).None? ==> v == Deny(401, INVALID_TOKEN))
  {
    if !KeyLoaded(key) then Deny(503, SERVICE_UNAVAILABLE)
    else if !HasBearer(authorization) then Deny(401, NO_TOKEN)
    else
      match Verify(lib, ExtractToken(authorization.value), key.value, ALLOWED_ALGORITHMS, now)
      case None => Deny(401, INVALID_TOKEN)
      case Some(decoded) => Allow(decoded)
  }

  /**
   * Algorithm confusion is refused: a token whose header names any algorithm but RS256 (HS256
   * with the public key reused as a secret included) is denied, however its signature checks.
   */
  lemma OtherAlgorithmsDenied(key: Option<Key>, header: string, lib: JwtLibrary, now: int)
    requires StartsWith(header, BEARER_PREFIX)
    requires lib.headerAlg(ExtractToken(header)) != Some(RS256)
    ensures Decide(key, Some(header), lib, now).Deny?
  {
  }

  /** The process-wide key cache and the middleware that reads it. */
  class KeyCache {
    var cachedKey: Option<Key>
    /** Delays of the retry timers armed so far by failed fetches, in the order they were armed. */
    var scheduledRetries: seq<nat>

    /** At start-up no key is cached. */
    constructor ()
      ensures cachedKey == None && scheduledRetries == []
    {
      cachedKey := None;
      scheduledRetries := [];
    }

    /**
     * `fetchPublicKey`: a served body replaces the cached key; a failure leaves it and arms
     * exactly one retry after RETRY_DELAY_MS.
     */
    method FetchPublicKey(outcome: FetchOutcome)
      modifies this
      ensures cachedKey == AfterFetch(old(cachedKey), outcome)
      ensures scheduledRetries == old(scheduledRetries) + (if outcome.FetchFailed? then [RETRY_DELAY_MS] else [])
    {
      match outcome
      case Fetched(body) =>
        cachedKey := Some(body);
      case FetchFailed =>
        scheduledRetries := scheduledRetries + [RETRY_DELAY_MS];
    }

    /**
     * `authMiddleware`: at most one inline fetch, and only when no key is loaded; then the checks
     * of Decide. `req.user` is written only when the request is let through.
     */
    method Authenticate(req: Request, inlineFetch: FetchOutcome, lib: JwtLibrary, now: int) returns (v: Verdict)
      modifies this, req`user
      ensures cachedKey == KeyForRequest(old(cachedKey), inlineFetch)
      ensures scheduledRetries == old(scheduledRetries) +
        (if !KeyLoaded(old(cachedKey)) && inlineFetch.FetchFailed? then [RETRY_DELAY_MS] else [])
      ensures v == Decide(cachedKey, req.Header("authorization"), lib, now)
      ensures req.user == if v.Allow? then Some(v.user) else old(req.user)
    {
      if !KeyLoaded(cachedKey) {
        FetchPublicKey(inlineFetch);
        if !KeyLoaded(cachedKey) {
          return Deny(503, SERVICE_UNAVAILABLE);
        }
      }
      var authHeader := req.Header("authorization");
      if authHeader.None? || !StartsWith(authHeader.value, BEARER_PREFIX) {
        return Deny(401, NO_TOKEN);
      }
      var token := ExtractToken(authHeader.value);
      var decoded := Verify(lib, token, cachedKey.value, ALLOWED_ALGORITHMS, now);
      if decoded.None? {
        return Deny(401, INVALID_TOKEN);
      }
      req.user := decoded;
      v := Allow(decoded.value);
    }
  }
}
