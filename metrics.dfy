/** The response observer of internal/metrics/http.go: a writer wrapper
    that captures the status code and the number of bytes written, and the
    instrumentation stage that reports them. Durations and the Prometheus
    histogram are not modelled; an observation carries the histogram's
    labels. */
module Metrics {
  import opened Wrappers
  import opened Http

  /** The sum of a sequence of byte counts. */
  function Sum(counts: seq<int>): int {
    if counts == [] then 0 else Sum(counts[..|counts| - 1]) + counts[|counts| - 1]
  }

  lemma SumAppend(counts: seq<int>, n: int)
    ensures Sum(counts + [n]) == Sum(counts) + n
  {
    assert (counts + [n])[..|counts|] == counts;
  }

  /** MetricsResponseWriter. `codes` and `counts` record the WriteHeader
      codes and the byte counts of the Write calls made so far. */
  class MetricsResponseWriter {
    var statusCode: int
    var length: int
    ghost var codes: seq<int>
    ghost var counts: seq<int>

    ghost predicate Valid()
      reads this
    {
      && statusCode == (if codes == [] then StatusOK else codes[|codes| - 1])
      && length == Sum(counts)
    }

    /** NewMetricsResponseWriter: status 200, nothing written. */
    constructor ()
      ensures Valid() && codes == [] && counts == []
      ensures statusCode == StatusOK && length == 0
    {
      statusCode := StatusOK;
      length := 0;
      codes := [];
      counts := [];
    }

    /** WriteHeader: the new status; the length is untouched. */
    method WriteHeader(code: int)
      requires Valid()
      modifies this
      ensures Valid()
      ensures codes == old(codes) + [code] && counts == old(counts)
      ensures statusCode == code && length == old(length)
    {
      statusCode := code;
      codes := codes + [code];
    }

    /** Write: `n` is the count the wrapped writer reported; it is added to
      the length and returned. The status is untouched. */
    method Write(n: nat) returns (written: nat)
      requires Valid()
      modifies this
      ensures Valid()
      ensures codes == old(codes) && counts == old(counts) + [n]
      ensures written == n && length == old(length) + n && statusCode == old(statusCode)
    {
      SumAppend(counts, n);
      length := length + n;
      counts := counts + [n];
      written := n;
    }

    /** StatusCode: the last code passed to WriteHeader, or 200. */
    function StatusCode(): (code: int)
      requires Valid()
      reads this
      ensures code == (if codes == [] then StatusOK else codes[|codes| - 1])
    {
      statusCode
    }

    /** Length: the total of the counts of all writes so far. */
    function Length(): (total: int)
      requires Valid()
      reads this
      ensures total == Sum(counts)
    {
      length
    }
  }

  /** The labels of one RequestDuration observation. */
  datatype Observation = Observation(path: string, httpMethod: string, status: int)

  /** InstrumentHandler: wrap the writer, run the next handler once (its
      calls on the wrapper are `downstream`), then observe the request
      unless it is for /metrics. */
  method InstrumentHandler(req: Request, downstream: seq<WriterCall>) returns (observation: Option<Observation>)
    ensures observation.Some? <==> req.path != "/metrics"
    ensures observation.Some? ==> observation.value == Observation(req.path, req.httpMethod, FinalStatus(downstream))
  {
    var mrw := new MetricsResponseWriter();
    for i := 0 to |downstream|
      invariant mrw.Valid() && fresh(mrw)
      invariant mrw.StatusCode() == FinalStatus(downstream[..i])
    {
      assert downstream[..i + 1][..i] == downstream[..i];
      match downstream[i]
      case WriteHeaderCall(code) => mrw.WriteHeader(code);
      case WriteCall(n) => var _ := mrw.Write(n);
    }
    assert downstream[..|downstream|] == downstream;

    if req.path != "/metrics" {
      observation := Some(Observation(req.path, req.httpMethod, mrw.StatusCode()));
    } else {
      observation := None;
    }
  }
}
