# Task-management microservices: gateway authentication, routing and the backing services

This Dafny project models the request path of a small microservice system. It is made of three parts.

**The API gateway** (`api-gateway/`) does the following:
- It keeps the identity service's RSA public key in a process-wide cache. It fetches the key at start-up and retries 5 seconds after every failed fetch.
- It routes each request, in registration order, to one of these handlers: `/health`, the public proxies `/api/auth` and `/api/public-key`, the protected proxies `/api/users`, `/api/teams` and `/graphql`, or the catch-all 404.
- On the protected routes it runs the authentication middleware:
  - 503 while no key is loaded, after one inline fetch attempt;
  - 401 for a missing or non-`Bearer` Authorization header;
  - 401 for a token that does not verify as RS256 under the cached key;
  - otherwise the verified claims are attached to the request.
- It overwrites `x-user-id`, `x-user-email` and `x-user-role` on the forwarded request with the verified claims.
- A transport error on a protected proxy becomes a 500 with that proxy's message.
- Its final error handler hides the error message outside development.

**The identity service's routes** (`services/rest-api/routes/`):
- registration into an in-memory account list with unique emails, and login that signs an RS256 token valid for one hour;
- the team list and team details, filtered by the injected identity headers;
- the hard-coded user list.

The identity service's app (`services/rest-api/server.js:40-43`) mounts only the auth and users routers, never the teams router. A `/api/teams` request the gateway forwards therefore gets that app's own 404, not `TeamRoutes.ListTeams` or `TeamRoutes.GetTeam`. `TeamRoutes` models the router file as written, as if it were mounted at `/api/teams`; `Gateway.ColdStartAdminRequest` states only what the gateway forwards.

**The task service** (`services/graphql-api/server.js`):
- the in-memory task list;
- the resolver context read from the identity headers;
- the `tasks` and `task(id)` queries;
- the `createTask` and `updateTaskStatus` mutations, which refuse a context without a user id.

## How the model is built

- Modules follow the source files:
  - `AuthMiddleware` models `authMiddleware.js`;
  - `Gateway` models the gateway's `server.js`;
  - `TaskService` models the GraphQL service;
  - `AuthRoutes`, `TeamRoutes` and `UserRoutes` model the three route files;
  - `Pipeline` connects the gateway to the task service.
- State the source mutates in place is a class:
  - the key cache (`AuthMiddleware.KeyCache`);
  - the Express request's `req.user` (`Express.Request`);
  - the outgoing proxy request's headers (`Gateway.ProxyRequest`);
  - the task list (`TaskService.TaskStore`);
  - the account list (`AuthRoutes.UserStore`).

  Each method's contract relates the new state to pure specification functions, and the lemmas are proved about those functions.
- The token library is abstract (`Jwt.JwtLibrary`): a header-algorithm reader, a signature check and a payload decoder, plus an expiry check against a `now` parameter. Signing is an abstract `Jwt.Signer`.
- Key fetches (`AuthMiddleware.FetchOutcome`) and backend replies (`Gateway.Upstream`) are inputs. So are fresh ids, timestamps and environment variables.
- JavaScript truthiness is modelled where the code relies on it:
  - an empty key body counts as "no key" (`!cachedPublicKey`);
  - an empty identity header counts as absent (`|| null`, `!userId`);
  - an empty environment variable gives the default (`process.env.X || default`).
- Express routing is modelled as follows:
  - a mount matches on path-segment boundaries;
  - `app.get('/health')` also answers HEAD and `/health/`;
  - the proxies rewrite the original URL, path and query together.

The gateway does **not** strip identity headers that a client sends itself:
- On the protected routes the three headers are overwritten with the verified claims (`Gateway.ProtectedForwardedIffVerified`, `Pipeline.ResolverSeesVerifiedIdentity`).
- On the public routes they reach the identity service as sent (`Gateway.PublicProxiesForwardClientHeaders`).

The model follows the code here, not the stronger guarantee of stripping them first.

Routing is first-match in registration order. `Gateway.MountsDisjoint` proves that no path matches two mounts, so this gives the same answer as longest-prefix matching would. A transport error on the three protected proxies gives a 500 carrying that proxy's `onError` message, not a 502. The auth and public-key proxies have no `onError`, so the proxy library's default handler answers them; its status is not modelled (see `Gateway.Proxy`).

## Model

| member | source | states |
|---|---|---|
| AuthMiddleware.KeyCache.constructor | api-gateway/authMiddleware.js:8 | the process starts with no key cached and no retry scheduled |
| AuthMiddleware.KeyCache.FetchPublicKey | api-gateway/authMiddleware.js:13-23 | a successful fetch stores the response body as the key; a failed one leaves the cache as it was and schedules exactly one retry after 5000 ms |
| AuthMiddleware.CacheHoldsLatestServed | api-gateway/authMiddleware.js:13-23 | after any run of fetches the cache holds the body of the latest successful fetch, or the starting key if none succeeded |
| AuthMiddleware.CacheNeverCleared | api-gateway/authMiddleware.js:18-22 | once a key has been cached, at start or by any fetch, the cache never goes back to null |
| AuthMiddleware.FailuresLeaveCache | api-gateway/authMiddleware.js:18-22 | a run made only of failures leaves the cache unchanged, and each failure schedules its own retry |
| AuthMiddleware.ExtractToken | api-gateway/authMiddleware.js:42 | the token is the text between `Bearer ` and the next space (or the end); it contains no space and is a prefix of the rest of the header |
| AuthMiddleware.ExtractTokenRoundTrip | api-gateway/authMiddleware.js:38-42 | for any space-free token and any trailer starting with a space, the header `Bearer <token><trailer>` yields exactly that token |
| AuthMiddleware.KeyForRequest | api-gateway/authMiddleware.js:29-35 | a loaded key is used as is; otherwise the inline fetch decides the key, and an empty body still counts as no key |
| AuthMiddleware.Decide | api-gateway/authMiddleware.js:28-56 | 503 exactly when no key is loaded; 401 "No token provided" for a missing or non-Bearer header; 401 "Invalid token" for a Bearer token that fails verification; the request is allowed exactly when the token verifies under the key with RS256 only, and then the user is the decoded claims; no other status is possible |
| AuthMiddleware.OtherAlgorithmsDenied | api-gateway/authMiddleware.js:46 | a token whose header names any algorithm other than RS256 (HS256 and `none` included) is refused |
| AuthMiddleware.KeyCache.Authenticate | api-gateway/authMiddleware.js:28-56 | the middleware as a whole: the inline fetch happens only when no key is loaded, and its failure schedules a retry; the verdict is `Decide` on the resulting key; `req.user` is set exactly when the request is allowed |
| Strings.Split | api-gateway/authMiddleware.js:42 | `split(' ')`: the pieces contain no separator, the first piece starts the string and ends at its end or at a separator, and there is one piece exactly when the separator is absent |
| Strings.JoinSplit | api-gateway/authMiddleware.js:42 | splitting loses nothing: joining the pieces with the separator gives the string back |
| Strings.SplitJoin | api-gateway/authMiddleware.js:42 | pieces free of the separator are recovered exactly by splitting their join |
| Gateway.EnvOr | api-gateway/server.js:12-13 | an unset or empty variable gives the fallback, and any other value is used as is |
| Gateway.LoadConfig | api-gateway/server.js:12-13 | a set, non-empty REST_API_URL or GRAPHQL_API_URL is used as given; an unset or empty one gives `http://rest-api:3001` or `http://graphql-api:4000`; NODE_ENV is kept as read; the URLs are never empty |
| Gateway.HealthReport | api-gateway/server.js:38-47 | the health answer is always "healthy" and reports both configured backend URLs |
| Gateway.FirstMatch | api-gateway/server.js:49-130 | the proxy chosen is the first registered one whose mount matches, and none matches when no mount does |
| Gateway.MatchRoute | api-gateway/server.js:38-136 | the health check wins first; otherwise the first matching proxy; and the 404 catch-all exactly when nothing else matches |
| Gateway.MountsDisjoint | api-gateway/server.js:59-130 | no path matches two of the five mounts, so the table is unambiguous |
| Gateway.RouteOfMatchedMount | api-gateway/server.js:59-130 | any path a mount matches, unless it is the health check, is handled by that mount's proxy |
| Gateway.RewritePath | api-gateway/server.js:52-54 | a URL that does not start with the rule's pattern, or a rule with no rewrite, is forwarded unchanged |
| Gateway.ForwardedPath | api-gateway/server.js:49-130 | `/api/auth…` is forwarded as `/auth…` and `/api/public-key…` as `/public-key…`; users, teams and GraphQL keep their path; the query always follows unchanged |
| Gateway.WithIdentity | api-gateway/server.js:77-83 | with a verified user, the three identity headers are set to its id, email and role, overriding client values; every other header is kept; without a user nothing changes |
| Gateway.ProxyRequest.SetIdentityHeaders | api-gateway/server.js:98-104 | the `onProxyReq` hook changes the outgoing headers exactly as `WithIdentity` says |
| Gateway.HandleError | api-gateway/server.js:138-144 | the final handler always answers 500 "Internal server error", and shows the error's message only when NODE_ENV is "development" |
| Gateway.ErrorDetailHidden | api-gateway/server.js:142 | outside development, two different errors produce identical answers |
| Gateway.Proxy | api-gateway/server.js:71-89 | the request goes to the rule's backend with the rewritten URL; a backend answer is relayed as is; a transport error becomes a 500 with the proxy's own message, or is left to the library where the proxy has no `onError` |
| Gateway.UnmatchedIsNotFound | api-gateway/server.js:132-136 | a path no route claims gets 404 "Route not found on gateway" |
| Gateway.PublicRoutesSkipAuthentication | api-gateway/server.js:38-67 | the health check and the auth and public-key proxies never depend on the key, the Authorization header or the token, and the proxies always forward |
| Gateway.ProtectedForwardedIffVerified | api-gateway/server.js:90-130 | a protected route is forwarded exactly when the middleware allows it, and then it carries the verified identity; otherwise the gateway itself answers 401 or 503 |
| Gateway.NoKeyNoBackend | api-gateway/authMiddleware.js:29-35 | with no key cached and a failed inline fetch, a protected request gets 503 |
| Gateway.PublicProxiesForwardClientHeaders | api-gateway/server.js:49-67 | the public proxies forward the client's headers unchanged, including any `x-user-*` headers |
| Gateway.Gateway.constructor | api-gateway/server.js:15 | at start-up the gateway makes one key fetch |
| Gateway.Gateway.Handle | api-gateway/server.js:38-136 | one request through the whole stack gives the `Dispatch` outcome; the cached key and the scheduled retries change only when a protected route found no key loaded (one retry exactly when its inline fetch failed); `req.user` is set to the verified claims exactly when a protected route let the request through |
| Gateway.ColdStartAdminRequest | api-gateway/server.js:111 | the start-up fetch fails, the inline fetch then succeeds, and an admin's token reaches the teams backend at `/api/teams` carrying `x-user-role: admin` |
| TaskService.ParseStatus | services/graphql-api/server.js:54-58 | only the three enum names are accepted, and each gives the status of that name |
| TaskService.StatusRoundTrip | services/graphql-api/server.js:54-58 | every status is parsed back from its own name |
| TaskService.HeaderOrNull | services/graphql-api/server.js:171-173 | an absent or empty header gives null, and anything else gives its value |
| TaskService.BuildContext | services/graphql-api/server.js:168-179 | the context's user id, email and role are the three identity headers, or null |
| TaskService.AuthenticatedIffUserHeader | services/graphql-api/server.js:100-103 | a context passes the `!userId` check exactly when a non-empty `x-user-id` arrived |
| TaskService.FindIndex | services/graphql-api/server.js:124 | `findIndex`: the first index holding that id, or none when no task has it |
| TaskService.FindTask | services/graphql-api/server.js:94 | `task(id)` returns the first task with that id, or null exactly when there is none |
| TaskService.FindIndexAfterReplace | services/graphql-api/server.js:131-136 | replacing a task with one of the same id changes no id's lookup |
| TaskService.FindIndexAfterAppend | services/graphql-api/server.js:105-113 | after an append, existing ids are found where they were, and a fresh id at the new last index |
| TaskService.TaskStore.constructor | services/graphql-api/server.js:33-50 | the service starts with its two seed tasks |
| TaskService.TaskStore.AllTasks | services/graphql-api/server.js:89-93 | `tasks` returns the whole list unfiltered, whoever asks |
| TaskService.TaskStore.TaskById | services/graphql-api/server.js:94 | the first task with that id, as `FindTask` states; null exactly when no task has it |
| TaskService.TaskStore.CreateTask | services/graphql-api/server.js:98-116 | without a user id the call fails with "Not authenticated" and nothing changes; otherwise exactly one TODO task authored by the caller is appended and returned |
| TaskService.TaskStore.UpdateTaskStatus | services/graphql-api/server.js:118-142 | authentication is checked first, then existence, and either failure changes nothing; otherwise only the status of the first task with that id changes |
| Pipeline.ResolverSeesVerifiedIdentity | services/graphql-api/server.js:168-179 | a `/graphql` request reaches the resolvers exactly when the gateway verified it, and the resolver context holds the verified id, email and role whatever the client sent |
| Pipeline.CreateTaskNeedsVerifiedId | services/graphql-api/server.js:98-103 | a `/graphql` request that reaches the task service passes the `createTask` check exactly when its verified token has a non-empty id |
| AuthRoutes.FindByEmail | services/rest-api/routes/auth.js:40 | the first account with that email, or none exactly when no account has it |
| AuthRoutes.SeedUsers | services/rest-api/routes/auth.js:11-24 | the seed account list has unique emails |
| AuthRoutes.Login | services/rest-api/routes/auth.js:68-116 | an unknown email and a wrong password get the same 401 "Invalid credentials"; a correct email and password get exactly the token the signer produces over the account's id, email, name and role, signed RS256 for 3600 s, and 500 when signing fails; no other answer is possible |
| AuthRoutes.LoginMatchesUniqueAccount | services/rest-api/routes/auth.js:72-86 | with unique emails, login succeeds only with that one account's password and signs that account's payload |
| AuthRoutes.RegisterKeepsEmailsUnique | services/rest-api/routes/auth.js:40-59 | appending an account whose email is not taken keeps emails unique |
| AuthRoutes.UserStore.constructor | services/rest-api/routes/auth.js:11-24 | the store starts with the single admin account |
| AuthRoutes.UserStore.Register | services/rest-api/routes/auth.js:37-65 | a taken email gets 409 and changes nothing; otherwise one account with role "user" is appended and only its id, name and email are returned; unique emails stay unique |
| Lists.FilterIsSubsequence | services/rest-api/routes/teams.js:30 | `filter` keeps the kept elements in their original order |
| TeamRoutes.TeamsOf | services/rest-api/routes/teams.js:30 | exactly the teams listing the user as a member, in list order |
| TeamRoutes.ListTeams | services/rest-api/routes/teams.js:17-33 | 401 exactly when `x-user-id` is missing or empty; an admin gets every team; anyone else gets exactly their own teams, in order |
| TeamRoutes.MemberDetails | services/rest-api/routes/teams.js:51-53 | one entry per member id, in order; a known id gives the first user with that id, and an unknown one gives an "Unknown User" entry |
| TeamRoutes.GetTeam | services/rest-api/routes/teams.js:36-60 | an unknown team is 404 whoever asks; a known one is shown exactly to admins and members, with its member details, and is 403 for everyone else |
| TeamRoutes.MembershipExamples | services/rest-api/routes/teams.js:9-12 | with the fixed table, user 2 sees both teams, user 1 (non-admin) sees only t1, and user 3 sees none |
| UserRoutes.FindById | services/rest-api/routes/users.js:22 | a user with that id, or none exactly when the header is absent or no user has it |
| UserRoutes.ListUsers | services/rest-api/routes/users.js:15-27 | an admin gets the whole list; anyone else gets at most their own entry, and none when the id is unknown |
| UserRoutes.GetUser | services/rest-api/routes/users.js:31-42 | a user with that id, or 404 "User not found" with a message naming the id |

## Left out

- The token library's cryptography is abstract. The signature check, header parsing, payload decoding and signing are uninterpreted functions; only the RS256 allow-list and the `exp` check against a given time are modelled.
- The key fetch's HTTP request (axios, the `/public-key` endpoint and its status codes) is left out. Each fetch is an input: either a body or a failure.
- `setTimeout` is left out. A failed fetch records one scheduled 5000 ms retry; the retry firing later is a further `FetchPublicKey` call. The JavaScript event loop's interleaving of requests with pending fetches is not modelled.
- Concurrency between simultaneous requests is left out. Each request is one atomic `Handle` call.
- helmet's headers, the CORS policy and the rate limiter (100 requests per 15 minutes per IP) are left out, because they are third-party middleware configuration.
- Express's case-insensitive route matching is left out, and so are URL percent-decoding and HTTP request bodies. Paths compare as written.
- Parts of the proxy library are left out: the `changeOrigin` Host rewrite, streaming of bodies, and the WebSocket upgrade relay on `/graphql` (`ws: true`).
- The library's own default error handler for the auth and public-key proxies is left out. It is recorded only as `LibraryProxyError`.
- The listen, shutdown and logging code in all three servers is left out.
- Claims without an `id`, `email` or `role` are left out. The model's claims always carry the three strings; in Node an undefined header value would make `setHeader` throw.
- In the task service, the subscriptions (`taskAdded`, `taskUpdated`) and their pub/sub publishing are left out, because they are delivery to subscribers and change no state.
- The task service's schema validation of other argument types, its `/health` endpoint and the Apollo server set-up are left out. `TaskService.ParseStatus` models the enum coercion.
- `validateUser` (the registration body validator), the `RSA_PRIVATE_KEY` start-up exit and the unused `teams` list in `auth.js` are left out. `services/rest-api/middleware/validation.js` is not part of this model.
- `services/rest-api/server.js` (the identity service's app set-up, its `/public-key` route and its 404 and error handlers) is not part of this model. Only its list of mounted routers is described above.
- The frontend is not part of this model.
- Jwt.Verify: carries no contract of its own. It is the token library's behaviour, stated by its definition. Its consequences are stated on `AuthMiddleware.Decide`.
