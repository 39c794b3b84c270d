/** The admission gate and the CORS stage of
    internal/server/middleware/auth.go. */
module AuthGate {
  import opened Strings
  import opened Http
  import Jwt

  /** UnprotectedAPIRoutes, as the source's lookup table. */
  const UnprotectedAPIRoutes: map<string, bool> := map[
    "/api/v1/renew" := true,
    "/api/v1/health" := true,
    "/api/v1/logout" := true]

  /** Exact membership in the table; a missing path reads as false. */
  function IsUnprotected(path: string): (b: bool)
    ensures b <==> path in {"/api/v1/renew", "/api/v1/health", "/api/v1/logout"}
  {
    path in UnprotectedAPIRoutes && UnprotectedAPIRoutes[path]
  }

  /** The gate refuses a request whose path contains "/api/" anywhere, is
      not unprotected, and whose Authorization header does not validate. */
  function Rejects(path: string, authHeader: string, parse: Jwt.Parser): (b: bool)
    ensures b <==> (exists i :: OccursAt(path, "/api/", i))
                   && path !in {"/api/v1/renew", "/api/v1/health", "/api/v1/logout"}
                   && !Jwt.ValidateJWT(authHeader, parse)
  {
    (Contains(path, "/api/") && !IsUnprotected(path)) && !Jwt.ValidateJWT(authHeader, parse)
  }

  /** AuthenticatedMiddleware: 401 "Unauthorized" without calling the next
      handler on refusal, otherwise the request passes on unchanged. */
  function AuthenticatedMiddleware(req: Request, parse: Jwt.Parser): (step: Step)
    ensures step.Stop? <==> Rejects(req.path, req.authorization, parse)
    ensures step.Stop? ==> step.response == Error("Unauthorized", StatusUnauthorized)
    ensures !step.Stop? ==> step == Pass(map[])
  {
    if Rejects(req.path, req.authorization, parse) then Stop(Error("Unauthorized", StatusUnauthorized))
    else Pass(map[])
  }

  /** The four fixed CORS headers. */
  const CorsHeaders: map<string, string> := map[
    "Access-Control-Allow-Origin" := "*",
    "Access-Control-Allow-Methods" := "GET, POST, PUT, DELETE, OPTIONS, PATCH",
    "Access-Control-Allow-Headers" := "Accept, Authorization, Content-Type, X-CSRF-Token",
    "Access-Control-Allow-Credentials" := "false"]

  /** CorsMiddleware: the CORS headers go on every response; a preflight
      (OPTIONS) is answered 204 at once, any other method passes on. */
  function CorsMiddleware(req: Request): (step: Step)
    ensures step.Stop? <==> req.httpMethod == "OPTIONS"
    ensures step.Stop? ==> step.response == Response(StatusNoContent, CorsHeaders, "")
    ensures !step.Stop? ==> step == Pass(CorsHeaders)
    ensures step.Stop? ==> step.response.headers["Access-Control-Allow-Origin"] == "*"
  {
    if req.httpMethod == "OPTIONS" then Stop(Response(StatusNoContent, CorsHeaders, ""))
    else Pass(CorsHeaders)
  }
}
