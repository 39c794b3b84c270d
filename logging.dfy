/** The request-logging stage of internal/server/middleware/logging.go. */
module Logging {
  import opened Wrappers
  import opened Strings
  import opened Http

  /** shouldSkipLogging: the favicon, the metrics endpoint and everything
      under /_app/. */
  function ShouldSkipLogging(path: string): (skip: bool)
    ensures skip <==> path in {"/favicon.png", "/metrics"} || "/_app/" <= path
  {
    if path == "/favicon.png" || path == "/metrics" then true
    else HasPrefix(path, "/_app/")
  }

  /** The key/value arguments of the "Request" log line. */
  function RequestLogArgs(req: Request): seq<string> {
    ["method", req.httpMethod, "path", req.path, "remote_addr", req.remoteAddr]
  }

  /** What the stage does with one request: the log line it writes, if
      any, and the step, which always forwards to the next handler. */
  datatype Logged = Logged(line: Option<seq<string>>, step: Step)

  /** LoggingMiddleware: log unless the path is skipped, then call the next
      handler in every case. */
  function LoggingMiddleware(req: Request): (r: Logged)
    ensures r.step == Pass(map[])
    ensures r.line.Some? <==> !ShouldSkipLogging(req.path)
    ensures r.line.Some? ==> r.line.value == RequestLogArgs(req)
  {
    Logged(if ShouldSkipLogging(req.path) then None else Some(RequestLogArgs(req)), Pass(map[]))
  }
}
