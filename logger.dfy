/** Context-carried request and trace ids and the attribute lists of the
    levelled log calls (internal/logger/logger.go). The slog output itself
    is not modelled: a log call yields the record it would hand to slog. */
module Logger {
  import opened Wrappers

  /** Context keys. The two keys of this package are distinct values of an
      unexported type; Foreign stands for any key set by other packages. */
  datatype Key = RequestIDKey | TraceIDKey | Foreign(name: string)

  datatype Value = StrValue(s: string) | OtherValue

  /** context.Context as a chain of context.WithValue extensions. */
  datatype Context = Background | WithValue(parent: Context, key: Key, val: Value)

  /** ctx.Value(key): the innermost binding of `key`, if any. */
  function Lookup(ctx: Context, key: Key): (v: Option<Value>)
    ensures v.None? <==> !Binds(ctx, key)
  {
    match ctx
    case Background => None
    case WithValue(parent, k, val) => if k == key then Some(val) else Lookup(parent, key)
  }

  /** Some extension in the chain binds `key`. */
  ghost predicate Binds(ctx: Context, key: Key) {
    ctx.WithValue? && (ctx.key == key || Binds(ctx.parent, key))
  }

  /** WithRequestID: the new context reads back the id and keeps the
      trace id. */
  function WithRequestID(ctx: Context, requestID: string): (c: Context)
    ensures GetRequestID(c) == requestID && GetTraceID(c) == GetTraceID(ctx)
  {
    WithValue(ctx, RequestIDKey, StrValue(requestID))
  }

  /** GetRequestID: the bound request id when it is a string, "" otherwise. */
  function GetRequestID(ctx: Context): (id: string)
    ensures !Binds(ctx, RequestIDKey) ==> id == ""
  {
    match Lookup(ctx, RequestIDKey)
    case Some(StrValue(s)) => s
    case _ => ""
  }

  /** WithTraceID: the new context reads back the id and keeps the
      request id. */
  function WithTraceID(ctx: Context, traceID: string): (c: Context)
    ensures GetTraceID(c) == traceID && GetRequestID(c) == GetRequestID(ctx)
  {
    WithValue(ctx, TraceIDKey, StrValue(traceID))
  }

  /** GetTraceID: the bound trace id when it is a string, "" otherwise. */
  function GetTraceID(ctx: Context): (id: string)
    ensures !Binds(ctx, TraceIDKey) ==> id == ""
  {
    match Lookup(ctx, TraceIDKey)
    case Some(StrValue(s)) => s
    case _ => ""
  }

  /** Each getter reads back what its setter stored, and neither setter
      disturbs the other getter. */
  lemma ContextRoundTrips(ctx: Context, requestID: string, traceID: string)
    ensures GetRequestID(WithRequestID(ctx, requestID)) == requestID
    ensures GetTraceID(WithTraceID(ctx, traceID)) == traceID
    ensures GetTraceID(WithRequestID(ctx, requestID)) == GetTraceID(ctx)
    ensures GetRequestID(WithTraceID(ctx, traceID)) == GetRequestID(ctx)
  {
  }

  /** Values stored by other packages never change what the getters read. */
  lemma {:induction false} ForeignKeysInvisible(ctx: Context, extensions: seq<(string, Value)>)
    ensures GetRequestID(ExtendForeign(ctx, extensions)) == GetRequestID(ctx)
    ensures GetTraceID(ExtendForeign(ctx, extensions)) == GetTraceID(ctx)
  {
    if extensions != [] {
      ForeignKeysInvisible(ctx, extensions[..|extensions| - 1]);
    }
  }

  /** `ctx` extended, in order, with values under foreign keys. */
  function ExtendForeign(ctx: Context, extensions: seq<(string, Value)>): Context
  {
    if extensions == [] then ctx
    else
      var last := extensions[|extensions| - 1];
      WithValue(ExtendForeign(ctx, extensions[..|extensions| - 1]), Foreign(last.0), last.1)
  }

  /** A log argument: slog accepts alternating keys and values of any type. */
  datatype Arg = S(s: string) | I(i: int) | B(b: bool)

  /** contextAttrs: "request_id" and the id when the request id is set,
      then "trace_id" and the id when the trace id is set. */
  function ContextAttrs(ctx: Context): (attrs: seq<Arg>)
    ensures var r, t := GetRequestID(ctx), GetTraceID(ctx);
      && |attrs| == (if r != "" then 2 else 0) + (if t != "" then 2 else 0)
      && (r != "" ==> attrs[..2] == [S("request_id"), S(r)])
      && (t != "" ==> attrs[|attrs| - 2..] == [S("trace_id"), S(t)])
  {
    var withRequest := if GetRequestID(ctx) != "" then [S("request_id"), S(GetRequestID(ctx))] else [];
    if GetTraceID(ctx) != "" then withRequest + [S("trace_id"), S(GetTraceID(ctx))] else withRequest
  }

  datatype Level = Debug | Info | Warn | Error

  /** The record a levelled call hands to slog. */
  datatype Record = Record(level: Level, msg: string, attrs: seq<Arg>)

  /** Debug, Info, Warn and Error share one shape: context attributes first,
      then the caller's arguments in their original order. */
  function Log(level: Level, ctx: Context, msg: string, args: seq<Arg>): (r: Record)
    ensures r.level == level && r.msg == msg
    ensures |r.attrs| == |ContextAttrs(ctx)| + |args|
    ensures r.attrs[..|ContextAttrs(ctx)|] == ContextAttrs(ctx)
    ensures r.attrs[|ContextAttrs(ctx)|..] == args
  {
    Record(level, msg, ContextAttrs(ctx) + args)
  }

  /** When the context carries a request id, every record of every level
      starts with it. */
  lemma RecordsCarryRequestID(level: Level, ctx: Context, msg: string, args: seq<Arg>)
    requires GetRequestID(ctx) != ""
    ensures Log(level, ctx, msg, args).attrs[..2] == [S("request_id"), S(GetRequestID(ctx))]
  {
    var attrs := ContextAttrs(ctx);
    assert attrs[..2] == [S("request_id"), S(GetRequestID(ctx))];
    assert (attrs + args)[..2] == attrs[..2];
  }
}
