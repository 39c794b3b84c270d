/** The slice of net/http the middleware stages touch: a request, a
    response, what one stage does with a request, and the calls a handler
    makes on the response writer it is given. */
module Http {

  const StatusOK := 200
  const StatusNoContent := 204
  const StatusUnauthorized := 401
  const StatusNotFound := 404
  const StatusTooManyRequests := 429

  /** The request fields the stages read. A missing `Authorization` header
      reads as "", as `r.Header.Get` returns it. */
  datatype Request = Request(
    httpMethod: string,
    path: string,
    remoteAddr: string,
    authorization: string,
    userAgent: string)

  datatype Response = Response(status: int, headers: map<string, string>, body: string)

  /** What one middleware stage does with a request: call the next handler
      exactly once after setting `headers` on the writer, answer the
      request itself without calling it, or panic (net/http recovers the
      panic and drops the connection). */
  datatype Step = Pass(headers: map<string, string>) | Stop(response: Response) | Abort

  /** http.Error: plain-text headers, the status, and the message followed
      by a newline. */
  function Error(message: string, code: int): (r: Response)
    ensures r.status == code
    ensures r.body == message + "\n"
    ensures "Content-Type" in r.headers && r.headers["Content-Type"] == "text/plain; charset=utf-8"
  {
    Response(code,
      map["Content-Type" := "text/plain; charset=utf-8", "X-Content-Type-Options" := "nosniff"],
      message + "\n")
  }

  /** A call a handler makes on the ResponseWriter it was given: WriteHeader
      with a code, or Write where `n` is the byte count the underlying writer
      reported. */
  datatype WriterCall = WriteHeaderCall(code: int) | WriteCall(n: nat)

  /** The status a capturing wrapper holds after `calls`: the code of the
      last WriteHeader call, or 200 when there was none. */
  function FinalStatus(calls: seq<WriterCall>): (status: int)
    ensures (forall i :: 0 <= i < |calls| ==> calls[i].WriteCall?) ==> status == StatusOK
  {
    if calls == [] then StatusOK
    else match calls[|calls| - 1]
      case WriteHeaderCall(code) => code
      case WriteCall(_) => FinalStatus(calls[..|calls| - 1])
  }

  /** A status counts as a success when it is in the 2xx range. */
  predicate IsSuccess(status: int)
    ensures IsSuccess(status) <==> status / 100 == 2
  {
    200 <= status < 300
  }
}
