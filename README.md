# Request gatekeeping of the mailroom auth service, in Dafny

This project models the middleware that stands in front of the service's
handlers: how a caller is classified from its `Authorization` header, how
bearer tokens are validated and their claims read, how the fixed-window rate
limiter admits or refuses requests, how the gate and the CORS stage decide
whether a request goes on, how the audit stage counts active sessions, how
the response wrappers capture status and length, and in which order
`RegisterRoutes` composes the stages.

Modules, one per source file, plus three helpers:

- `Wrappers` (`wrappers.dfy`): Option and Result.
- `Strings` (`strings.dfy`): Go's `strings.HasPrefix`, `strings.TrimPrefix`
  and `strings.Contains`.
- `Http` (`http.dfy`): request, response, what a stage does with a request
  (`Step`), `http.Error`, and the calls a handler makes on its writer.
- `Jwt` (`jwt.dfy`): internal/auth/jwt.go. The verifier (`jwt.Parse` keyed
  by `AUTH_SECRET`, a JWT per RFC 7519) is the parameter `parse`: any
  function from token text to a parsed token or an error message.
- `Logger` (`logger.dfy`): internal/logger/logger.go, with contexts as
  chains of `context.WithValue` extensions.
- `RateLimit` (`ratelimit.dfy`): internal/server/middleware/ratelimit.go.
  `RateLimiter` is a class whose two `map` fields the methods update, and
  time is an integer parameter.
- `Audit` (`audit.dfy`): internal/server/middleware/audit.go. The
  `responseWriter` and the active-sessions gauge are classes.
- `Metrics` (`metrics.dfy`): internal/metrics/http.go. `MetricsResponseWriter`
  is a class.
- `Logging` (`logging.dfy`): internal/server/middleware/logging.go.
- `AuthGate` (`authgate.dfy`): internal/server/middleware/auth.go.
- `Mux` (`mux.dfy`): internal/server/mux.go. The composed server is a list
  of stages run around the router.

Downstream handlers are not modelled. Where a stage hands its wrapped
writer to the next handler, that handler is the sequence of `WriteHeader`
and `Write` calls it makes. The method replays these calls on the wrapper.

Where the code's own comments or names suggest otherwise, the model follows
the code:

- The composed order, outermost first, is Auth, CORS, Audit, Metrics,
  Logging, Tracing, then the router. Each `handler = X(handler)` in
  internal/server/mux.go:26-31 wraps outside the previous one. The comment
  on internal/server/mux.go:26, which says tracing comes first to capture
  all other middleware, describes the opposite. As a result, a request the
  gate refuses gets a 401 without CORS headers, and a preflight to a gated
  path without a valid token gets 401, not 204.
- The classifier's JWT outcome is called "jwt"
  (internal/server/middleware/audit.go:195).
- The `Bearer ` prefix is matched case-sensitively.
- No rate-limit stage is composed into the server.

## Model

| member | source | states |
|---|---|---|
| RateLimit.RateLimiter.constructor | internal/server/middleware/ratelimit.go:34-43 | a new limiter has both maps empty and keeps the four limits it was given |
| RateLimit.Admit | internal/server/middleware/ratelimit.go:65-85 | a request is admitted iff its identifier has no entry, its window has expired (strictly more than `window` elapsed) or its count is below the maximum; a refusal leaves the map unchanged; no entry other than the identifier's changes |
| RateLimit.RateLimiter.Allow | internal/server/middleware/ratelimit.go:46-86 | the verdict and the selected class's new map are `Admit` of its old map with that class's maximum and window; the other class's map is unchanged; every counter stays between 1 and the maximum (or is exactly 1) |
| RateLimit.AdmitStartsWindow | internal/server/middleware/ratelimit.go:66-74 | a missing or expired entry is replaced by `{requests: 1, windowStart: now}` and the call returns true, even for a maximum of 0 or less |
| RateLimit.AdmitCounts | internal/server/middleware/ratelimit.go:83-85 | inside a live window below the maximum, the entry's count goes up by exactly one and its window start stays |
| RateLimit.AdmitKeepsBounded | internal/server/middleware/ratelimit.go:66-85 | admission keeps every counter at least 1 and at most the maximum (or exactly 1) |
| RateLimit.FirstMaxAdmitted | internal/server/middleware/ratelimit.go:66-85 | from no entry or an expired one, calls within `window` of the first (an elapsed time equal to `window` included) are admitted exactly for the first `max` calls and the first call, and refused afterwards |
| RateLimit.LiveWindowVerdicts | internal/server/middleware/ratelimit.go:76-85 | inside a live window holding `c` requests, the i-th further call is admitted iff `c + i < max` |
| RateLimit.BurstAtWindowSeam | internal/server/middleware/ratelimit.go:66-74 | across a window boundary the fixed window admits a run of `2 * max` calls: one at `start`, `max - 1` at `start + window` and `max` at `start + window + 1`, so `2 * max - 1` within one tick and all `2 * max` within `window + 1` |
| RateLimit.Evict | internal/server/middleware/ratelimit.go:95-107 | the swept map holds exactly the entries that have not expired, with their values unchanged |
| RateLimit.RateLimiter.Cleanup | internal/server/middleware/ratelimit.go:89-108 | each map becomes `Evict` of its old contents under its own class's window |
| RateLimit.EvictIdempotent | internal/server/middleware/ratelimit.go:89-108 | a second sweep at the same time removes nothing more |
| RateLimit.AdmitAfterEvict | internal/server/middleware/ratelimit.go:66-107 | a sweep at an earlier or equal time never changes an admission verdict, and the counters differ only by the sweep's evictions |
| RateLimit.SelectRateKey | internal/server/middleware/ratelimit.go:137-173 | the selection fails (the `token[:16]` panic) iff the bearer token starts with `pk_` and is shorter than 16 characters; otherwise the request is charged to the service class iff it carries a `Bearer ` token that is a `pk_` key (keyed `api-key-` plus its first 16 characters) or that parses to map claims with `isService` true and a non-empty string `sub` (keyed by that `sub`); every other request is keyed by its remote address |
| RateLimit.UnnamedTokenKeyedByAddress | internal/server/middleware/ratelimit.go:138-171 | a bearer token that is not a `pk_` key and fails to parse, or lacks map claims, a true `isService` or a non-empty string `sub`, is keyed by the remote address outside the service class |
| RateLimit.ShouldSkipRateLimiting | internal/server/middleware/ratelimit.go:199-202 | `/api/v1/health` bypasses the limiter and is the only path that does, by exact match; none of its sub-paths does |
| RateLimit.TooManyRequests | internal/server/middleware/ratelimit.go:187-189 | the refusal is status 429 with `Retry-After: 60` |
| RateLimit.RateLimitMiddleware | internal/server/middleware/ratelimit.go:129-196 | `/api/v1/health` passes and leaves the limiter untouched, whatever its `Authorization` header (a short API key included); elsewhere a short API key aborts the request and leaves the limiter untouched; otherwise the request passes iff the limiter admits it (per `Admit` on its class's map), else it gets the 429 answer |
| Audit.BearerToken | internal/server/middleware/audit.go:172-173 | a token is extracted iff the header is longer than 7 characters and starts with `Bearer `, and it is the non-empty rest of the header |
| Audit.ExtractAuthInfo | internal/server/middleware/audit.go:160-212 | "none" carries no identity; "api_key" iff the bearer token is a `pk_` key longer than 3, always `{isService: true, serviceName: "unknown-service"}`; "jwt" iff the bearer token is not an API key and parses to map claims, with isService iff the `isService` claim is `true`, then serviceName is the string `sub` or "", otherwise userID is the string `ID` or "" |
| Audit.ServiceTokenClassified | internal/server/middleware/audit.go:195-202 | a verified non-key token whose claims hold `isService: true` and `sub: s` is classified as `{jwt, userID "", serviceName s, isService}` |
| Audit.UserTokenClassified | internal/server/middleware/audit.go:195-208 | a verified non-key token without a true `isService` claim and with `ID: id` is classified as `{jwt, userID id, serviceName "", not a service}` |
| Audit.RejectedTokenIsAnonymous | internal/server/middleware/audit.go:185-189 | a bearer token the verifier rejects classifies as "none" (fail-closed) |
| Audit.ApiKeyIgnoresVerifier | internal/server/middleware/audit.go:176-182 | an API key is classified the same whatever the verifier does |
| Audit.UserIDAgreesWithAccessor | internal/server/middleware/audit.go:203-208 | the classifier's user id for a user token is what `GetIDFromJWT` returns for it, or "" when the accessor fails |
| Audit.IsAuthEndpoint | internal/server/middleware/audit.go:215-228 | true for exactly the eight listed paths, by exact match |
| Audit.SessionDelta | internal/server/middleware/audit.go:46-83 | the gauge's net change per request is 0 or 1, and 1 iff a non-service JWT caller reaches an auth endpoint without a successful logout |
| Audit.LogoutAccounting | internal/server/middleware/audit.go:78-83 | a successful non-service JWT logout leaves the gauge unchanged and a failed one raises it by 1; service and non-JWT callers never move it |
| Audit.Gauge.Inc | internal/server/middleware/audit.go:49 | the gauge goes up by one |
| Audit.Gauge.Dec | internal/server/middleware/audit.go:81 | the gauge goes down by one |
| Audit.StatusRecorder.constructor | internal/server/middleware/audit.go:142-144 | the captured status starts at 200 |
| Audit.StatusRecorder.WriteHeader | internal/server/middleware/audit.go:146-149 | the captured status is the code just written, which is the last in the recorded history |
| Audit.AuditLogMiddleware | internal/server/middleware/audit.go:19-134 | the context carries the request id, and the span's trace id when there is one; the gauge changes by `SessionDelta` of the status the handler left; an event is emitted iff the path is an auth endpoint, with success iff `200 <= status < 300` and the log line's fields (method, path, status, duration, client address, user agent, auth type name, user id, service name, service flag) |
| Audit.ServiceBucketMatchesClassification | internal/server/middleware/ratelimit.go:155-171 | a service JWT that the classifier names is counted by the limiter in the service class under that same name |
| Audit.ApiKeyBucket | internal/server/middleware/ratelimit.go:148-154 | an API key is counted in the service class as `api-key-` plus its first 16 characters, or fails when it is shorter |
| Audit.BareApiKeyMarkerDiverges | internal/server/middleware/audit.go:176-182 | for the bare token `pk_`, the classifier does not report an API key, while the rate limiter's slice fails |
| Jwt.ParseToken | internal/auth/jwt.go:43-56 | the verifier sees the token with one leading `Bearer ` removed, and its result (error included) is returned unchanged |
| Jwt.ValidateJWT | internal/auth/jwt.go:20-40 | true iff `ParseToken` succeeds and the parsed token is marked valid |
| Jwt.BearerPrefixOptional | internal/auth/jwt.go:20-56 | a bare token and the same token behind `Bearer ` are parsed and validated alike |
| Jwt.StripsOnlyOnce | internal/auth/jwt.go:43-46 | only one `Bearer ` is removed |
| Jwt.GetIDFromJWT | internal/auth/jwt.go:59-79 | a parse error is passed through; otherwise the string `ID` claim, or ErrInvalidToken when claims are not a map or `ID` is absent or not a string |
| Jwt.GetSessionIDFromJWT | internal/auth/jwt.go:82-102 | the same for the `sessionID` claim |
| Jwt.GetProviderFromJWT | internal/auth/jwt.go:105-125 | the same for the `provider` claim |
| Jwt.GetProviderIDFromJWT | internal/auth/jwt.go:128-148 | the same for the `providerID` claim |
| Jwt.AccessorsIndependent | internal/auth/jwt.go:72-78 | an accessor's result depends only on its own claim |
| Metrics.MetricsResponseWriter.constructor | internal/metrics/http.go:17-22 | a new writer has status 200 and length 0 |
| Metrics.MetricsResponseWriter.WriteHeader | internal/metrics/http.go:25-28 | the status becomes the code, and the length is untouched |
| Metrics.MetricsResponseWriter.Write | internal/metrics/http.go:31-35 | the length grows by exactly the reported count, which is returned; the status is untouched; the length stays the sum of all reported counts |
| Metrics.MetricsResponseWriter.StatusCode | internal/metrics/http.go:38-40 | returns the last code written, or 200 |
| Metrics.MetricsResponseWriter.Length | internal/metrics/http.go:43-45 | returns the sum of the counts of all writes |
| Metrics.InstrumentHandler | internal/metrics/http.go:48-67 | an observation is recorded iff the path is not `/metrics`, labelled with path, method and the status the handler left (200 if it wrote none) |
| Http.IsSuccess | internal/server/middleware/audit.go:75 | success is exactly the 2xx status class |
| Http.FinalStatus | internal/metrics/http.go:17-28 | a handler that never calls WriteHeader leaves the captured status at 200 |
| Logging.ShouldSkipLogging | internal/server/middleware/logging.go:24-29 | true iff the path is `/favicon.png`, `/metrics` or starts with `/_app/` |
| Logging.LoggingMiddleware | internal/server/middleware/logging.go:10-22 | logs iff the path is not skipped, and always passes on to the next handler |
| Logger.Lookup | internal/logger/logger.go:55-72 | a lookup finds nothing iff no extension binds the key |
| Logger.WithRequestID | internal/logger/logger.go:50-52 | the new context reads back the request id and keeps the trace id it had |
| Logger.WithTraceID | internal/logger/logger.go:63-65 | the new context reads back the trace id and keeps the request id it had |
| Logger.GetRequestID | internal/logger/logger.go:55-60 | "" on a context that never had a request id |
| Logger.GetTraceID | internal/logger/logger.go:68-73 | "" on a context that never had a trace id |
| Logger.ContextRoundTrips | internal/logger/logger.go:50-73 | each getter reads back what its setter stored, and neither setter disturbs the other getter |
| Logger.ForeignKeysInvisible | internal/logger/logger.go:22-29 | values other packages store never change what the getters read |
| Logger.ContextAttrs | internal/logger/logger.go:76-90 | `request_id` and its id if set, then `trace_id` and its id if set, and nothing else |
| Logger.Log | internal/logger/logger.go:93-118 | a Debug/Info/Warn/Error record holds the context attributes first, then the caller's arguments in their original order |
| Logger.RecordsCarryRequestID | internal/logger/logger.go:76-104 | when a request id is set, every record starts with it |
| Strings.Contains | internal/server/middleware/auth.go:20 | the containment test holds iff the substring occurs at some position |
| AuthGate.IsUnprotected | internal/server/middleware/auth.go:11-15 | exactly `/api/v1/renew`, `/api/v1/health` and `/api/v1/logout` |
| AuthGate.Rejects | internal/server/middleware/auth.go:20 | refused iff the path contains `/api/` anywhere, is not unprotected, and the header does not validate |
| AuthGate.AuthenticatedMiddleware | internal/server/middleware/auth.go:17-32 | a refusal is a 401 `Unauthorized` response without calling the next handler; anything else passes on unchanged |
| AuthGate.CorsMiddleware | internal/server/middleware/auth.go:34-50 | the four fixed CORS headers are always set; OPTIONS is answered 204 without calling the next handler; any other method passes on |
| Mux.WrapAll | internal/server/mux.go:26-31 | each wrap goes outside the chain built so far, so the chain is the wraps reversed, followed by the inner chain |
| Mux.RegisterRoutes | internal/server/mux.go:15-34 | the chain, outermost first, is Auth, CORS, Audit, Metrics, Logging, Tracing, with no rate-limit stage |
| Mux.Run | internal/server/mux.go:26-33 | the stages reached are a prefix of the chain, and the router is reached iff every stage passes |
| Mux.Route | internal/server/mux.go:16-23 | the three registered paths get their handler's answer unchanged; every other path gets http.NotFound's 404 `404 page not found` |
| Mux.Serve | internal/server/mux.go:15-34 | the handler RegisterRoutes returns: Auth always sees the request first, the stages reached are a prefix of the chain, and a request that reaches the router gets the status and body the ServeMux gives its path |
| Mux.GateRefusalStopsEverything | internal/server/mux.go:26-31 | a refused request is answered 401 by Auth alone and no other stage sees it |
| Mux.PreflightToGatedPathIsUnauthorized | internal/server/mux.go:26-31 | an OPTIONS preflight to a gated path without a valid token gets the gate's 401 `Unauthorized` answer |
| Mux.PreflightAnsweredByCors | internal/server/mux.go:30-31 | a preflight the gate admits is answered 204 with the CORS headers, and only Auth and CORS see it |
| Mux.AdmittedRequestReachesRouter | internal/server/mux.go:26-31 | any other admitted request passes all six stages and gets the router's answer with the CORS headers under the handler's own |
| Mux.MetricsNeverGated | internal/server/mux.go:19 | `/metrics` is never refused by the gate |
| Mux.HealthRoutesGating | internal/server/mux.go:22-23 | `/api/v1/auth/health` is refused iff the header does not validate, and `/api/v1/health` is never refused |
| Mux.NoRateLimitStage | internal/server/mux.go:26-31 | the composed server answers the same whatever a rate-limit stage would decide |
| Mux.AuthHealthStatus | internal/server/mux.go:67-71 | "degraded" iff the database's `status` is not "up" (a missing one reads as ""), and "up" otherwise |

## Left out

- Locking (`sync.Mutex`) and the background goroutine that runs `Cleanup`
  every minute are concurrency. `Allow` and `Cleanup` are atomic methods of
  one explicit limiter object rather than the package-level one.
- Time is an unbounded integer in the unit of the windows. `time.Now`,
  durations in seconds and Go's saturating `Duration` arithmetic are not
  modelled.
- `ClientLimit` is a pointer in the source and a value in the model. Only
  the map holds it, so no aliasing is lost.
- Cryptographic verification of JWTs is the `parse` parameter. The model
  does not assume that a successful parse is always marked valid.
- Prometheus counters and histograms are left out: rate-limit error
  counters, duration histograms and the registration in
  internal/metrics/metrics.go. The active-sessions gauge is an integer, and
  an observation carries only its labels.
- OpenTelemetry span attributes and events are left out. So is the
  tracing stage's work beyond passing the request on. The audit stage
  receives the valid span's trace id as an optional parameter.
- Slog output is left out. The middleware files log through a logger
  package outside this repository. Their log lines are represented only by
  the audit event and the logging stage's argument list.
- Audit.AuditLogMiddleware: states its context through `Logger`, the model
  of internal/logger. The source stores and reads the request and trace ids
  with the logger package outside this repository
  (internal/server/middleware/audit.go:11). The model assumes that package
  keys its context values the way internal/logger does. Go context keys are
  typed, so the two packages' getters do not actually see each other's
  values.
- `WithFields` is left out: its output order depends on map iteration.
- `Initialize` is left out: it is configuration I/O.
- UUID generation is left out: the request id is a parameter.
- Elapsed time is left out: the duration is a parameter.
- The health handlers' JSON encoding and the database calls are left out.
  For `authHealthHandler`, only the overall status rule is modelled.
- ServeMux path cleaning and redirects are left out. Route matching is
  exact on the three registered paths.
- Go strings are byte strings; the model uses sequences of characters, so
  `token[:16]` counts characters. The two agree on ASCII.
- `Metrics.MetricsResponseWriter.Write`: takes the byte count the wrapped
  writer reported instead of the bytes and the writer's error, because the
  wrapped writer is not modelled.
- internal/server/auth.go is not part of this model: every line of it is
  commented out.
