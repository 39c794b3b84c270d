/** Caller classification, the auth-endpoint set, the status-capturing
    response writer and the active-sessions accounting of
    internal/server/middleware/audit.go. Span attributes and the log record
    are observational and are represented only by the event the stage
    emits. */
module Audit {
  import opened Wrappers
  import opened Strings
  import opened Http
  import Jwt
  import Logger
  import RateLimit

  /** The caller's authentication type: "none", "api_key" or "jwt". */
  datatype AuthType = NoAuth | ApiKey | JwtAuth {
    function Name(): string {
      match this
      case NoAuth => "none"
      case ApiKey => "api_key"
      case JwtAuth => "jwt"
    }
  }

  datatype AuthInfo = AuthInfo(authType: AuthType, userID: string, serviceName: string, isService: bool)

  const Anonymous := AuthInfo(NoAuth, "", "", false)

  /** The token of a header that is longer than "Bearer " and starts with
      it (case-sensitive, as in the source). */
  function BearerToken(authHeader: string): (token: Option<string>)
    ensures token.Some? <==> |authHeader| > 7 && HasPrefix(authHeader, Jwt.BearerPrefix)
    ensures token.Some? ==> authHeader == Jwt.BearerPrefix + token.value && token.value != ""
  {
    if |authHeader| > 7 && authHeader[..7] == "Bearer " then
      assert authHeader == authHeader[..7] + authHeader[7..];
      Some(authHeader[7..])
    else None
  }

  /** A token longer than three characters starting with "pk_". */
  predicate IsApiKey(token: string) {
    |token| > 3 && token[..3] == "pk_"
  }

  /** The string stored under `key`, or "" when it is absent or not a
      string. */
  function StringClaimOrEmpty(claims: Jwt.Claims, key: string): string {
    if key in claims && claims[key].Str? then claims[key].s else ""
  }

  /** The token's claims mark a service caller. */
  predicate IsServiceClaim(claims: Jwt.Claims) {
    "isService" in claims && claims["isService"] == Jwt.Bool(true)
  }

  /** extractAuthInfo: classify the caller from the Authorization header.
      The verifier is consulted only for bearer tokens that are not API
      keys, and any verifier failure leaves the caller anonymous. */
  function ExtractAuthInfo(authHeader: string, parse: Jwt.Parser): (info: AuthInfo)
    ensures info.authType == NoAuth ==> info == Anonymous
    ensures info.authType != NoAuth ==> BearerToken(authHeader).Some?
    ensures info.authType == ApiKey <==> BearerToken(authHeader).Some? && IsApiKey(BearerToken(authHeader).value)
    ensures info.authType == ApiKey ==> info == AuthInfo(ApiKey, "", "unknown-service", true)
    ensures BearerToken(authHeader).Some? && !IsApiKey(BearerToken(authHeader).value)
            && Jwt.ParseToken(BearerToken(authHeader).value, parse).Success?
            && Jwt.ParseToken(BearerToken(authHeader).value, parse).value.claims.Some?
            ==> info.authType == JwtAuth
    ensures info.authType == JwtAuth ==>
      var parsed := Jwt.ParseToken(BearerToken(authHeader).value, parse);
      && parsed.Success? && parsed.value.claims.Some?
      && info.isService == IsServiceClaim(parsed.value.claims.value)
      && (info.isService ==> info.userID == "" && info.serviceName == StringClaimOrEmpty(parsed.value.claims.value, "sub"))
      && (!info.isService ==> info.serviceName == "" && info.userID == StringClaimOrEmpty(parsed.value.claims.value, "ID"))
  {
    if authHeader == "" then Anonymous
    else match BearerToken(authHeader)
      case None => Anonymous
      case Some(token) =>
        if IsApiKey(token) then AuthInfo(ApiKey, "", "unknown-service", true)
        else match Jwt.ParseToken(token, parse)
          case Failure(_) => Anonymous
          case Success(t) =>
            if t.claims.None? then Anonymous
            else if IsServiceClaim(t.claims.value) then
              AuthInfo(JwtAuth, "", StringClaimOrEmpty(t.claims.value, "sub"), true)
            else
              AuthInfo(JwtAuth, StringClaimOrEmpty(t.claims.value, "ID"), "", false)
  }

  /** Fail-closed: a bearer token that is not an API key and that the
      verifier rejects leaves the caller anonymous. */
  lemma RejectedTokenIsAnonymous(token: string, parse: Jwt.Parser)
    requires token != "" && !IsApiKey(token)
    requires Jwt.ParseToken(token, parse).Failure?
    ensures ExtractAuthInfo(Jwt.BearerPrefix + token, parse) == Anonymous
  {
    assert BearerToken(Jwt.BearerPrefix + token) == Some(token);
  }

  /** API keys are classified without consulting the verifier: any two
      verifiers give the same answer. */
  lemma ApiKeyIgnoresVerifier(token: string, p1: Jwt.Parser, p2: Jwt.Parser)
    requires IsApiKey(token)
    ensures ExtractAuthInfo(Jwt.BearerPrefix + token, p1) == ExtractAuthInfo(Jwt.BearerPrefix + token, p2)
    ensures ExtractAuthInfo(Jwt.BearerPrefix + token, p1) == AuthInfo(ApiKey, "", "unknown-service", true)
  {
    assert BearerToken(Jwt.BearerPrefix + token) == Some(token);
  }

  /** The user id the classifier records for a user token is the one
      GetIDFromJWT returns for the same token, or "" when that accessor
      fails. */
  lemma UserIDAgreesWithAccessor(token: string, parse: Jwt.Parser)
    requires token != ""
    requires ExtractAuthInfo(Jwt.BearerPrefix + token, parse).authType == JwtAuth
    requires !ExtractAuthInfo(Jwt.BearerPrefix + token, parse).isService
    ensures ExtractAuthInfo(Jwt.BearerPrefix + token, parse).userID == Jwt.GetIDFromJWT(token, parse).GetOr("")
  {
    assert BearerToken(Jwt.BearerPrefix + token) == Some(token);
  }

  /** A verified service token naming itself in `sub` is classified as
      that service, whatever else its claims hold. */
  lemma ServiceTokenClassified(token: string, parse: Jwt.Parser, claims: Jwt.Claims, name: string)
    requires token != "" && !IsApiKey(token)
    requires Jwt.ParseToken(token, parse).Success? && Jwt.ParseToken(token, parse).value.claims == Some(claims)
    requires "isService" in claims && claims["isService"] == Jwt.Bool(true)
    requires "sub" in claims && claims["sub"] == Jwt.Str(name)
    ensures ExtractAuthInfo(Jwt.BearerPrefix + token, parse) == AuthInfo(JwtAuth, "", name, true)
  {
    assert BearerToken(Jwt.BearerPrefix + token) == Some(token);
  }

  /** A verified user token is classified as that user, with the string
      `ID` claim as its id. */
  lemma UserTokenClassified(token: string, parse: Jwt.Parser, claims: Jwt.Claims, id: string)
    requires token != "" && !IsApiKey(token)
    requires Jwt.ParseToken(token, parse).Success? && Jwt.ParseToken(token, parse).value.claims == Some(claims)
    requires !("isService" in claims && claims["isService"] == Jwt.Bool(true))
    requires "ID" in claims && claims["ID"] == Jwt.Str(id)
    ensures ExtractAuthInfo(Jwt.BearerPrefix + token, parse) == AuthInfo(JwtAuth, id, "", false)
  {
    assert BearerToken(Jwt.BearerPrefix + token) == Some(token);
  }

  /** The eight authentication endpoints, as the source's lookup table. */
  const AuthEndpoints: map<string, bool> := map[
    "/auth/google" := true,
    "/auth/google/callback" := true,
    "/api/v1/token/refresh" := true,
    "/api/v1/logout" := true,
    "/api/v1/renew" := true,
    "/api/v1/apikeys" := true,
    "/api/v1/apikeys/create" := true,
    "/api/v1/apikeys/revoke" := true]

  /** isAuthEndpoint: exact membership in the table; a missing path reads
      as false. */
  function IsAuthEndpoint(path: string): (b: bool)
    ensures b <==> path in {"/auth/google", "/auth/google/callback", "/api/v1/token/refresh", "/api/v1/logout",
                            "/api/v1/renew", "/api/v1/apikeys", "/api/v1/apikeys/create", "/api/v1/apikeys/revoke"}
  {
    path in AuthEndpoints && AuthEndpoints[path]
  }

  /** The pre-dispatch phase counts a session: a non-service JWT caller on
      an auth endpoint. */
  predicate OpensSession(info: AuthInfo, path: string) {
    info.authType != NoAuth && IsAuthEndpoint(path) && info.authType == JwtAuth && !info.isService
  }

  /** The post-dispatch phase ends a session: the same caller, on logout,
      with a successful status. */
  predicate ClosesSession(info: AuthInfo, path: string, status: int) {
    IsAuthEndpoint(path) && info.authType != NoAuth
    && path == "/api/v1/logout" && info.authType == JwtAuth && !info.isService && IsSuccess(status)
  }

  /** The net change of the active-sessions gauge over one request. */
  function SessionDelta(info: AuthInfo, path: string, status: int): (delta: int)
    ensures 0 <= delta <= 1
    ensures delta == 1 <==> OpensSession(info, path) && !ClosesSession(info, path, status)
  {
    (if OpensSession(info, path) then 1 else 0) - (if ClosesSession(info, path, status) then 1 else 0)
  }

  /** A successful user logout leaves the gauge where it was and a failed
      one raises it by one; nothing else a service or an anonymous caller
      does moves it. */
  lemma LogoutAccounting(info: AuthInfo, status: int)
    ensures info.authType == JwtAuth && !info.isService ==>
      SessionDelta(info, "/api/v1/logout", status) == (if IsSuccess(status) then 0 else 1)
    ensures info.authType != JwtAuth || info.isService ==> forall path :: SessionDelta(info, path, status) == 0
  {
  }

  /** The gauge (metrics.ActiveSessions). */
  class Gauge {
    var value: int

    constructor ()
      ensures value == 0
    {
      value := 0;
    }

    method Inc()
      modifies this
      ensures value == old(value) + 1
    {
      value := value + 1;
    }

    method Dec()
      modifies this
      ensures value == old(value) - 1
    {
      value := value - 1;
    }
  }

  /** responseWriter: records the status handed to WriteHeader; 200 until
      then. `codes` is the history of WriteHeader calls. */
  class StatusRecorder {
    var statusCode: int
    ghost var codes: seq<int>

    ghost predicate Valid()
      reads this
    {
      statusCode == (if codes == [] then StatusOK else codes[|codes| - 1])
    }

    /** newResponseWriter */
    constructor ()
      ensures Valid() && codes == [] && statusCode == StatusOK
    {
      statusCode := StatusOK;
      codes := [];
    }

    method WriteHeader(code: int)
      requires Valid()
      modifies this
      ensures Valid() && codes == old(codes) + [code] && statusCode == code
    {
      statusCode := code;
      codes := codes + [code];
    }
  }

  /** The record the stage logs for an auth endpoint. */
  datatype AuthEvent = AuthEvent(
    httpMethod: string,
    path: string,
    status: int,
    durationMs: int,
    success: bool,
    clientIP: string,
    userAgent: string,
    authType: string,
    userID: string,
    serviceName: string,
    isService: bool)

  /** AuditLogMiddleware. Inputs the source draws from its environment are
      parameters: the request id (a fresh UUID), the trace id of the active
      span if one is valid, the elapsed time, and the calls the next handler
      makes on the wrapped writer, which it receives exactly once. */
  method AuditLogMiddleware(
    gauge: Gauge, req: Request, reqCtx: Logger.Context, parse: Jwt.Parser,
    requestID: string, spanTraceID: Option<string>, durationMs: int, downstream: seq<WriterCall>)
    returns (ctx: Logger.Context, event: Option<AuthEvent>)
    modifies gauge
    ensures Logger.GetRequestID(ctx) == requestID
    ensures Logger.GetTraceID(ctx) == (if spanTraceID.Some? then spanTraceID.value else Logger.GetTraceID(reqCtx))
    ensures var info := ExtractAuthInfo(req.authorization, parse);
      && gauge.value == old(gauge.value) + SessionDelta(info, req.path, FinalStatus(downstream))
      && (event.Some? <==> IsAuthEndpoint(req.path))
      && (event.Some? ==> event.value == AuthEvent(req.httpMethod, req.path, FinalStatus(downstream), durationMs,
                                                   IsSuccess(FinalStatus(downstream)), req.remoteAddr, req.userAgent,
                                                   info.authType.Name(), info.userID, info.serviceName, info.isService))
  {
    ctx := Logger.WithRequestID(reqCtx, requestID);
    if spanTraceID.Some? {
      Logger.ContextRoundTrips(ctx, requestID, spanTraceID.value);
      ctx := Logger.WithTraceID(ctx, spanTraceID.value);
    }

    var rw := new StatusRecorder();
    var info := ExtractAuthInfo(req.authorization, parse);

    if info.authType != NoAuth && IsAuthEndpoint(req.path) {
      if info.authType == JwtAuth && !info.isService {
        gauge.Inc();
      }
    }
    ghost var afterPre := gauge.value;

    // next.ServeHTTP(rw, r): replay the handler's calls on the wrapper.
    for i := 0 to |downstream|
      invariant rw.Valid() && fresh(rw)
      invariant rw.statusCode == FinalStatus(downstream[..i])
      invariant gauge.value == afterPre
    {
      assert downstream[..i + 1][..i] == downstream[..i];
      match downstream[i]
      case WriteHeaderCall(code) => rw.WriteHeader(code);
      case WriteCall(_) =>
    }
    assert downstream[..|downstream|] == downstream;

    event := None;
    if IsAuthEndpoint(req.path) {
      var success := rw.statusCode >= 200 && rw.statusCode < 300;
      if info.authType != NoAuth {
        if req.path == "/api/v1/logout" && info.authType == JwtAuth && !info.isService && success {
          gauge.Dec();
        }
      }
      event := Some(AuthEvent(req.httpMethod, req.path, rw.statusCode, durationMs, success,
                              req.remoteAddr, req.userAgent, info.authType.Name(), info.userID, info.serviceName, info.isService));
    }
  }

  /** A service token the classifier names is counted by the rate limiter
      in the service class under that same name. */
  lemma ServiceBucketMatchesClassification(remoteAddr: string, token: string, parse: Jwt.Parser)
    requires token != "" && !HasPrefix(token, RateLimit.ApiKeyPrefix)
    requires var info := ExtractAuthInfo(Jwt.BearerPrefix + token, parse);
      info.authType == JwtAuth && info.isService && info.serviceName != ""
    ensures RateLimit.SelectRateKey(remoteAddr, Jwt.BearerPrefix + token, parse)
      == Success(RateLimit.RateKey(ExtractAuthInfo(Jwt.BearerPrefix + token, parse).serviceName, true))
  {
    assert BearerToken(Jwt.BearerPrefix + token) == Some(token);
    assert HasPrefix(Jwt.BearerPrefix + token, Jwt.BearerPrefix);
    assert TrimPrefix(Jwt.BearerPrefix + token, Jwt.BearerPrefix) == token;
  }

  /** An API key the classifier recognises is counted in the service class
      under its first 16 characters, unless it is shorter than that, where
      the rate limiter's slice panics. */
  lemma ApiKeyBucket(remoteAddr: string, token: string, parse: Jwt.Parser)
    requires IsApiKey(token)
    ensures RateLimit.SelectRateKey(remoteAddr, Jwt.BearerPrefix + token, parse)
      == if |token| < 16 then Failure(RateLimit.SliceOutOfRange)
         else Success(RateLimit.RateKey("api-key-" + token[..16], true))
  {
    assert HasPrefix(Jwt.BearerPrefix + token, Jwt.BearerPrefix);
    assert TrimPrefix(Jwt.BearerPrefix + token, Jwt.BearerPrefix) == token;
  }

  /** The two prefix tests disagree on the bare marker "pk_": the
      classifier hands it to the verifier, while the rate limiter treats it
      as an API key and its slice panics. */
  lemma BareApiKeyMarkerDiverges(remoteAddr: string, parse: Jwt.Parser)
    ensures ExtractAuthInfo("Bearer pk_", parse).authType != ApiKey
    ensures RateLimit.SelectRateKey(remoteAddr, "Bearer pk_", parse) == Failure(RateLimit.SliceOutOfRange)
  {
    assert BearerToken("Bearer pk_") == Some("pk_");
    assert HasPrefix("Bearer pk_", Jwt.BearerPrefix);
    assert TrimPrefix("Bearer pk_", Jwt.BearerPrefix) == "pk_";
  }
}
