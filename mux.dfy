/** Route registration, middleware composition and the auth health status
    of internal/server/mux.go. The composed server is run as a list of
    stages, outermost first, around the router. */
module Mux {
  import opened Wrappers
  import opened Strings
  import opened Http
  import Jwt
  import AuthGate

  /** The middleware stages of the repository. RateLimit is defined in the
      middleware package but is not one of the stages RegisterRoutes
      wraps. */
  datatype Stage = Tracing | Logging | Metrics | Audit | Cors | Auth | RateLimit

  /** The paths registered on the ServeMux. */
  const Routes: set<string> := {"/metrics", "/api/v1/health", "/api/v1/auth/health"}

  /** The wrapping statements of RegisterRoutes in program order: each one
      wraps the handler built so far. */
  const WrapOrder: seq<Stage> := [Tracing, Logging, Metrics, Audit, Cors, Auth]

  /** `handler = X(handler)` for each X of `wraps` in turn, starting from a
      chain `inner` listed outermost first: each wrap goes outside what is
      already there, so the last one ends up outermost. */
  function WrapAll(inner: seq<Stage>, wraps: seq<Stage>): (chain: seq<Stage>)
    decreases |wraps|
    ensures |chain| == |inner| + |wraps|
    ensures forall i :: 0 <= i < |wraps| ==> chain[i] == wraps[|wraps| - 1 - i]
    ensures chain[|wraps|..] == inner
  {
    if wraps == [] then inner
    else WrapAll([wraps[0]] + inner, wraps[1..])
  }

  /** The stage chain RegisterRoutes builds, outermost first. */
  function RegisterRoutes(): (chain: seq<Stage>)
    ensures chain == [Auth, Cors, Audit, Metrics, Logging, Tracing]
    ensures RateLimit !in chain
  {
    WrapAll([], WrapOrder)
  }

  /** What the stages depend on besides the request: the token verifier,
      and what a rate-limit stage would decide were one composed. */
  datatype Env = Env(parse: Jwt.Parser, rateLimit: Step)

  /** The step one stage takes. Tracing, Logging, Metrics and Audit only
      observe: they always call the next handler once. */
  function StageStep(stage: Stage, req: Request, env: Env): Step {
    match stage
    case Auth => AuthGate.AuthenticatedMiddleware(req, env.parse)
    case Cors => AuthGate.CorsMiddleware(req)
    case RateLimit => env.rateLimit
    case _ => Pass(map[])
  }

  /** The outcome of serving one request: the stages that saw it, whether
      it reached the router, and the response (None after a panic). */
  datatype Served = Served(reached: seq<Stage>, routed: bool, response: Option<Response>)

  /** Run a chain of stages around the router, whose answer is `routed`.
      Headers a passing stage sets stay on the response unless an inner
      handler overwrites them. */
  function Run(stages: seq<Stage>, req: Request, env: Env, routed: Response): (s: Served)
    decreases |stages|
    ensures s.reached <= stages
    ensures stages != [] ==> |s.reached| >= 1
    ensures s.routed <==> s.reached == stages && forall i :: 0 <= i < |stages| ==> StageStep(stages[i], req, env).Pass?
    ensures s.routed ==> s.response.Some? && s.response.value.status == routed.status && s.response.value.body == routed.body
  {
    if stages == [] then Served([], true, Some(routed))
    else match StageStep(stages[0], req, env)
      case Stop(response) => Served([stages[0]], false, Some(response))
      case Abort => Served([stages[0]], false, None)
      case Pass(headers) =>
        var inner := Run(stages[1..], req, env, routed);
        var response := if inner.response.Some?
          then Some(inner.response.value.(headers := headers + inner.response.value.headers))
          else None;
        Served([stages[0]] + inner.reached, inner.routed, response)
  }

  /** The ServeMux: a registered path goes to its handler, whose answer is
      `handled`; any other path gets http.NotFound. */
  function Route(path: string, handled: Response): (r: Response)
    ensures path in Routes ==> r == handled
    ensures path !in Routes ==> r.status == StatusNotFound && r.body == "404 page not found\n"
  {
    if path in Routes then handled else Error("404 page not found", StatusNotFound)
  }

  /** The composed server. */
  function Serve(req: Request, env: Env, handled: Response): (s: Served)
    ensures s.reached <= RegisterRoutes() && |s.reached| >= 1 && s.reached[0] == Auth
    ensures s.routed ==> s.response.Some? && s.response.value.status == Route(req.path, handled).status
                         && s.response.value.body == Route(req.path, handled).body
  {
    Run(RegisterRoutes(), req, env, Route(req.path, handled))
  }

  /** Auth is outermost: a request the gate refuses is answered 401 before
      any other stage sees it, so it gets no CORS headers, is never audited,
      measured, logged or traced, and never reaches the router. */
  lemma GateRefusalStopsEverything(req: Request, env: Env, handled: Response)
    requires AuthGate.Rejects(req.path, req.authorization, env.parse)
    ensures Serve(req, env, handled) == Served([Auth], false, Some(Error("Unauthorized", StatusUnauthorized)))
  {
  }

  /** In particular a preflight to a gated path without a valid token is
      answered 401, not 204. */
  lemma PreflightToGatedPathIsUnauthorized(env: Env, handled: Response)
    requires !Jwt.ValidateJWT("", env.parse)
    ensures Serve(Request("OPTIONS", "/api/v1/auth/health", "", "", ""), env, handled).response
      == Some(Error("Unauthorized", StatusUnauthorized))
  {
    var path := "/api/v1/auth/health";
    assert OccursAt(path, "/api/", 0);
    GateRefusalStopsEverything(Request("OPTIONS", path, "", "", ""), env, handled);
  }

  /** A preflight the gate lets through is answered 204 by CORS with the
      four CORS headers; nothing after CORS sees it. */
  lemma PreflightAnsweredByCors(req: Request, env: Env, handled: Response)
    requires !AuthGate.Rejects(req.path, req.authorization, env.parse)
    requires req.httpMethod == "OPTIONS"
    ensures Serve(req, env, handled)
      == Served([Auth, Cors], false, Some(Response(StatusNoContent, AuthGate.CorsHeaders, "")))
  {
    ServeUnfolds(req, env, handled);
    PreflightRun(req, env, Route(req.path, handled));
  }

  /** The chain run on a preflight the gate admits. */
  lemma PreflightRun(req: Request, env: Env, routed: Response)
    requires !AuthGate.Rejects(req.path, req.authorization, env.parse)
    requires req.httpMethod == "OPTIONS"
    ensures Run([Auth] + ([Cors] + Observers()), req, env, routed)
      == Served([Auth, Cors], false, Some(Response(StatusNoContent, AuthGate.CorsHeaders, "")))
  {
    var tail := [Cors] + Observers();
    CorsAnswersPreflight(tail, req, env, routed);
    GatePassesThrough(tail, req, env, routed);
    assert [Auth] + [Cors] == [Auth, Cors];
  }

  /** CORS answers a preflight itself. */
  lemma CorsAnswersPreflight(stages: seq<Stage>, req: Request, env: Env, routed: Response)
    requires stages != [] && stages[0] == Cors
    requires req.httpMethod == "OPTIONS"
    ensures Run(stages, req, env, routed) == Served([Cors], false, Some(Response(StatusNoContent, AuthGate.CorsHeaders, "")))
  {
    RunStops(stages, req, env, routed, Response(StatusNoContent, AuthGate.CorsHeaders, ""));
  }

  /** Every other request the gate admits passes every stage once and
      reaches the router, whose answer carries the CORS headers unless the
      handler overwrote them. */
  lemma AdmittedRequestReachesRouter(req: Request, env: Env, handled: Response)
    requires !AuthGate.Rejects(req.path, req.authorization, env.parse)
    requires req.httpMethod != "OPTIONS"
    ensures var r := Route(req.path, handled);
      Serve(req, env, handled)
        == Served([Auth, Cors, Audit, Metrics, Logging, Tracing], true,
                  Some(r.(headers := AuthGate.CorsHeaders + r.headers)))
  {
    ServeUnfolds(req, env, handled);
    AdmittedRun(req, env, Route(req.path, handled));
  }

  /** The chain run on any other request the gate admits. */
  lemma AdmittedRun(req: Request, env: Env, r: Response)
    requires !AuthGate.Rejects(req.path, req.authorization, env.parse)
    requires req.httpMethod != "OPTIONS"
    ensures Run([Auth] + ([Cors] + Observers()), req, env, r)
      == Served([Auth, Cors, Audit, Metrics, Logging, Tracing], true,
                Some(r.(headers := AuthGate.CorsHeaders + r.headers)))
  {
    var tail := [Cors] + Observers();
    CorsPassesToRouter(tail, req, env, r);
    GatePassesThrough(tail, req, env, r);
    ChainSpelledOut();
  }

  /** The chain, written out. */
  lemma ChainSpelledOut()
    ensures [Auth] + ([Cors] + Observers()) == [Auth, Cors, Audit, Metrics, Logging, Tracing]
  {
  }

  /** The composed server runs Auth, then CORS, then the observers. */
  lemma ServeUnfolds(req: Request, env: Env, handled: Response)
    ensures Serve(req, env, handled) == Run([Auth] + ([Cors] + Observers()), req, env, Route(req.path, handled))
  {
    assert RegisterRoutes() == [Auth] + ([Cors] + Observers());
  }

  /** A request the gate admits leaves Auth without any change. */
  lemma GatePassesThrough(rest: seq<Stage>, req: Request, env: Env, routed: Response)
    requires !AuthGate.Rejects(req.path, req.authorization, env.parse)
    ensures var inner := Run(rest, req, env, routed);
      Run([Auth] + rest, req, env, routed) == Served([Auth] + inner.reached, inner.routed, inner.response)
  {
    var stages := [Auth] + rest;
    assert stages[0] == Auth && stages[1..] == rest;
    RunPasses(stages, req, env, routed, map[]);
    var inner := Run(rest, req, env, routed);
    if inner.response.Some? {
      NoHeadersAdded(inner.response.value.headers);
    }
  }

  lemma NoHeadersAdded(headers: map<string, string>)
    ensures map[] + headers == headers
  {
  }

  /** A request other than a preflight passes CORS and the observers and
      reaches the router, gaining the CORS headers. */
  lemma CorsPassesToRouter(stages: seq<Stage>, req: Request, env: Env, routed: Response)
    requires stages == [Cors] + Observers()
    requires req.httpMethod != "OPTIONS"
    ensures Run(stages, req, env, routed)
      == Served(stages, true, Some(routed.(headers := AuthGate.CorsHeaders + routed.headers)))
  {
    RunObservers(stages[1..], req, env, routed);
    RunPasses(stages, req, env, routed, AuthGate.CorsHeaders);
  }

  /** The stages after CORS, which only observe. */
  function Observers(): seq<Stage> {
    [Audit, Metrics, Logging, Tracing]
  }

  /** The observing stages pass every request to the router untouched. */
  lemma RunObservers(obs: seq<Stage>, req: Request, env: Env, routed: Response)
    requires obs == Observers()
    ensures Run(obs, req, env, routed) == Served(obs, true, Some(routed))
  {
    var empty: map<string, string> := map[];
    assert empty + routed.headers == routed.headers;
    assert obs[1..] == [Metrics, Logging, Tracing];
    assert obs[1..][1..] == [Logging, Tracing];
    assert obs[1..][1..][1..] == [Tracing];
    assert obs[1..][1..][1..][1..] == [];
  }

  /** One stage that passes: the rest of the chain runs, and the stage's
      headers sit under the inner response's. */
  lemma RunPasses(stages: seq<Stage>, req: Request, env: Env, routed: Response, headers: map<string, string>)
    requires stages != [] && StageStep(stages[0], req, env) == Pass(headers)
    ensures var inner := Run(stages[1..], req, env, routed);
      Run(stages, req, env, routed)
        == Served([stages[0]] + inner.reached, inner.routed,
                  if inner.response.Some? then Some(inner.response.value.(headers := headers + inner.response.value.headers)) else None)
  {
  }

  /** One stage that answers: nothing after it runs. */
  lemma RunStops(stages: seq<Stage>, req: Request, env: Env, routed: Response, response: Response)
    requires stages != [] && StageStep(stages[0], req, env) == Stop(response)
    ensures Run(stages, req, env, routed) == Served([stages[0]], false, Some(response))
  {
  }

  /** The metrics endpoint is never gated: its path does not contain
      "/api/". */
  lemma MetricsNeverGated(authHeader: string, parse: Jwt.Parser)
    ensures !AuthGate.Rejects("/metrics", authHeader, parse)
  {
    forall i | 0 <= i <= 3 ensures !OccursAt("/metrics", "/api/", i) {
      assert "/metrics"[i..i + 5][1] == "/metrics"[i + 1] != 'a';
    }
  }

  /** The auth health check is registered but not unprotected: it needs a
      token that validates. The plain health check never does. */
  lemma HealthRoutesGating(authHeader: string, parse: Jwt.Parser)
    ensures "/api/v1/auth/health" in Routes && "/api/v1/health" in Routes
    ensures AuthGate.Rejects("/api/v1/auth/health", authHeader, parse) <==> !Jwt.ValidateJWT(authHeader, parse)
    ensures !AuthGate.Rejects("/api/v1/health", authHeader, parse)
  {
    assert OccursAt("/api/v1/auth/health", "/api/", 0);
  }

  /** No rate limiting is composed: whatever a rate-limit stage would
      decide, the composed server answers the same. */
  lemma NoRateLimitStage(req: Request, parse: Jwt.Parser, decision1: Step, decision2: Step, handled: Response)
    ensures Serve(req, Env(parse, decision1), handled) == Serve(req, Env(parse, decision2), handled)
  {
    RunIgnoresRateLimit(RegisterRoutes(), req, parse, decision1, decision2, Route(req.path, handled));
  }

  /** A chain without a rate-limit stage never consults its decision. */
  lemma {:induction false} RunIgnoresRateLimit(stages: seq<Stage>, req: Request, parse: Jwt.Parser, decision1: Step, decision2: Step, routed: Response)
    requires RateLimit !in stages
    decreases |stages|
    ensures Run(stages, req, Env(parse, decision1), routed) == Run(stages, req, Env(parse, decision2), routed)
  {
    if stages != [] {
      assert StageStep(stages[0], req, Env(parse, decision1)) == StageStep(stages[0], req, Env(parse, decision2));
      RunIgnoresRateLimit(stages[1..], req, parse, decision1, decision2, routed);
    }
  }

  /** authHealthHandler's overall status: "degraded" unless the database
      reports status "up" (a missing status reads as ""). */
  function AuthHealthStatus(dbHealth: map<string, string>): (status: string)
    ensures status == "up" <==> "status" in dbHealth && dbHealth["status"] == "up"
    ensures status == "degraded" <==> !("status" in dbHealth && dbHealth["status"] == "up")
  {
    var dbStatus := if "status" in dbHealth then dbHealth["status"] else "";
    if dbStatus != "up" then "degraded" else "up"
  }
}
