/** The Gin middleware: tracing (a server span per request and the
    `X-Trace-ID` header), request logging classified by status, panic
    recovery with a fixed JSON error body, and their fixed composition.
    A chain is run as Gin's `c.Next` runs it: each stage does its work
    before and after the rest of the chain, and a panic unwinds through
    the stages, running only their deferred code. */
module Gin {
  import opened Wrappers
  import opened TraceIds
  import opened Logging

  /** What the stages read from `c.Request`: the request line, the
      client's address and user agent, and the span in its context. */
  datatype HttpRequest = HttpRequest(
    verb: string, path: string, rawQuery: string,
    clientIP: string, userAgent: string, span: SpanContext)

  /** How the route handler ended. It may have replaced `c.Request`
      (`newRequest`): by one whose context carries a span of its own, or by
      one with another method, path, query or headers. */
  datatype HandlerOutcome =
    | Completed(status: int, privateErrors: string, newRequest: Option<HttpRequest>)
    | Panicked(payload: string, newRequest: Option<HttpRequest>)

  /** `ErrorResponse`, the body of a recovered request. */
  datatype ErrorResponse = ErrorResponse(error: string, message: string, traceId: string, path: string)

  const InternalServerError: string := "Internal Server Error"
  const RecoveryMessage: string := "An unexpected error occurred. Please try again later."
  const TraceIdHeader: string := "X-Trace-ID"

  datatype Body = Unwritten | ByHandler | ErrorJson(resp: ErrorResponse)

  /** The part of `*gin.Context` the stages read and write. */
  datatype GinState = GinState(
    request: HttpRequest, header: map<string, string>, status: int,
    body: Body, aborted: bool, privateErrors: string)

  /** A fresh context: Gin's writer reports 200 until a status is written. */
  function InitialState(req: HttpRequest): GinState {
    GinState(req, map[], 200, Unwritten, false, "")
  }

  datatype SpanKind = SpanKindServer

  /** What the tracer observes: a span started, with its name and kind,
      and a span ended. */
  datatype SpanEvent = SpanStarted(name: string, kind: SpanKind, ctx: SpanContext) | SpanEnded(ctx: SpanContext)

  /** What a request sees that no stage decides: the span `tracer.Start`
      returns, the measured latency, the stack text, and the route handler. */
  datatype GinEnv = GinEnv(started: SpanContext, elapsedNanos: nat, stack: string, handler: HttpRequest -> HandlerOutcome)

  datatype Stage = GinTracing | GinRecovery | GinLogger

  /** `GinMiddleware`: tracing, then recovery, then logging. */
  function GinMiddleware(): (c: seq<Stage>)
    ensures |c| == 3 && c[0] == GinTracing && c[1] == GinRecovery && c[2] == GinLogger
  {
    [GinTracing, GinRecovery, GinLogger]
  }

  /** The result of running (part of) a chain: the context afterwards, the
      panic still unwinding if any, the log entries and the span events. */
  datatype GinStep = GinStep(state: GinState, panic: Option<string>, entries: seq<Record>, spans: seq<SpanEvent>)

  // ---------------------------------------------------------------------
  // Tracing

  function SpanName(req: HttpRequest): string {
    req.verb + " " + req.path
  }

  /** The header after the tracing stage: `X-Trace-ID` exactly when the
      span has a (non-zero) trace id. */
  function TracingHeader(header: map<string, string>, sc: SpanContext): (h: map<string, string>)
    ensures TraceIdHeader in h <==> TraceIdHeader in header || HasTraceId(sc)
    ensures HasTraceId(sc) ==> h[TraceIdHeader] == TraceIdString(sc)
    ensures forall k :: k in header && k != TraceIdHeader ==> k in h && h[k] == header[k]
    ensures forall k :: k in h && k != TraceIdHeader ==> k in header
  {
    if HasTraceId(sc) then header[TraceIdHeader := TraceIdString(sc)] else header
  }

  // ---------------------------------------------------------------------
  // Logging

  /** The severity of a request's record, by response status. */
  function HttpLevel(status: int): (l: Level)
    ensures l == Level.Error <==> status >= 500
    ensures l == Level.Warn <==> 400 <= status < 500
    ensures l == Level.Info <==> status < 400
  {
    if status >= 500 then Level.Error else if status >= 400 then Level.Warn else Level.Info
  }

  function HttpMessage(status: int): string {
    if status >= 500 then "HTTP Server Error" else if status >= 400 then "HTTP Client Error" else "HTTP Request"
  }

  const LoggerBaseKeys: seq<string> := ["status", "method", "path", "query", "ip", "latency_ms", "user_agent"]

  /** The seven fields every request record starts with. `before` is the
      request as the stage found it (path and query are read before
      `c.Next`); `after` is the context once the rest of the chain returned. */
  function LoggerBase(before: HttpRequest, after: GinState, elapsedNanos: nat): seq<Field> {
    [Field("status", Int(after.status)),
     Field("method", Str(after.request.verb)),
     Field("path", Str(before.path)),
     Field("query", Str(before.rawQuery)),
     Field("ip", Str(after.request.clientIP)),
     Field("latency_ms", Int(elapsedNanos / 1000000)),
     Field("user_agent", Str(after.request.userAgent))]
  }

  function ErrorsField(after: GinState): seq<Field> {
    if after.privateErrors != "" then [Field("error", Str(after.privateErrors))] else []
  }

  /** The logger's fields; the ids are those of the span found before `c.Next`. */
  function LoggerFields(before: HttpRequest, after: GinState, elapsedNanos: nat): seq<Field> {
    LoggerBase(before, after, elapsedNanos) + TraceFields(before.span) + ErrorsField(after)
  }

  /** The logger's record: level and message follow the status class, and
      the keys are the seven fixed ones followed by the present optional
      ones, none repeated. */
  function LoggerEntry(before: HttpRequest, after: GinState, elapsedNanos: nat): (r: Record)
    ensures r.level == HttpLevel(after.status)
    ensures after.status >= 500 ==> r.msg == "HTTP Server Error"
    ensures 400 <= after.status < 500 ==> r.msg == "HTTP Client Error"
    ensures after.status < 400 ==> r.msg == "HTTP Request"
    ensures Keys(r.fields) == LoggerBaseKeys + OptionalKeys(HasTraceId(before.span), HasSpanId(before.span), after.privateErrors != "")
    ensures Distinct(Keys(r.fields))
  {
    LoggerKeys(before, after, elapsedNanos);
    LoggerKeysDistinct(before, after, elapsedNanos);
    Record(HttpLevel(after.status), HttpMessage(after.status), LoggerFields(before, after, elapsedNanos))
  }

  /** The keys of a request record: the seven fixed keys, then `trace_id`
      iff the span found before `c.Next` has a non-zero trace id, `span_id`
      iff it has a non-zero span id, and `error` iff there are private
      errors, in that order. */
  lemma LoggerKeys(before: HttpRequest, after: GinState, elapsedNanos: nat)
    ensures Keys(LoggerFields(before, after, elapsedNanos))
            == LoggerBaseKeys + OptionalKeys(HasTraceId(before.span), HasSpanId(before.span), after.privateErrors != "")
  {
    var base := LoggerBase(before, after, elapsedNanos);
    var t := TraceFields(before.span);
    var e := ErrorsField(after);
    KeysAppend(base, t + e);
    KeysAppend(t, e);
    LoggerBaseKeysAre(before, after, elapsedNanos);
    TraceFieldsByBytes(before.span);
  }

  /** No key of a request record occurs twice. */
  lemma LoggerKeysDistinct(before: HttpRequest, after: GinState, elapsedNanos: nat)
    ensures Distinct(Keys(LoggerFields(before, after, elapsedNanos)))
  {
    LoggerKeys(before, after, elapsedNanos);
    assert Distinct(LoggerBaseKeys);
    OptionalKeysAfterBase(LoggerBaseKeys, HasTraceId(before.span), HasSpanId(before.span), after.privateErrors != "");
  }

  /** The fixed fields hold the final status, the path and query found
      before `c.Next`, the method, address and user agent, and the latency
      in whole milliseconds. */
  lemma LoggerFieldsFixedPart(before: HttpRequest, after: GinState, elapsedNanos: nat)
    ensures Lookup(LoggerFields(before, after, elapsedNanos), "status") == Some(Int(after.status))
    ensures Lookup(LoggerFields(before, after, elapsedNanos), "method") == Some(Str(after.request.verb))
    ensures Lookup(LoggerFields(before, after, elapsedNanos), "path") == Some(Str(before.path))
    ensures Lookup(LoggerFields(before, after, elapsedNanos), "query") == Some(Str(before.rawQuery))
    ensures Lookup(LoggerFields(before, after, elapsedNanos), "ip") == Some(Str(after.request.clientIP))
    ensures Lookup(LoggerFields(before, after, elapsedNanos), "latency_ms") == Some(Int(elapsedNanos / 1000000))
    ensures Lookup(LoggerFields(before, after, elapsedNanos), "user_agent") == Some(Str(after.request.userAgent))
  {
    var base := LoggerBase(before, after, elapsedNanos);
    var rest := TraceFields(before.span) + ErrorsField(after);
    assert LoggerFields(before, after, elapsedNanos) == base + rest;
    assert Keys(base) == LoggerBaseKeys;
    LoggerBaseLookups(before, after, elapsedNanos);
    forall k | k in LoggerBaseKeys
      ensures Lookup(base + rest, k) == Lookup(base, k)
    {
      LookupAppend(base, rest, k);
    }
  }

  lemma LoggerBaseLookups(before: HttpRequest, after: GinState, elapsedNanos: nat)
    ensures Lookup(LoggerBase(before, after, elapsedNanos), "status") == Some(Int(after.status))
    ensures Lookup(LoggerBase(before, after, elapsedNanos), "method") == Some(Str(after.request.verb))
    ensures Lookup(LoggerBase(before, after, elapsedNanos), "path") == Some(Str(before.path))
    ensures Lookup(LoggerBase(before, after, elapsedNanos), "query") == Some(Str(before.rawQuery))
    ensures Lookup(LoggerBase(before, after, elapsedNanos), "ip") == Some(Str(after.request.clientIP))
    ensures Lookup(LoggerBase(before, after, elapsedNanos), "latency_ms") == Some(Int(elapsedNanos / 1000000))
    ensures Lookup(LoggerBase(before, after, elapsedNanos), "user_agent") == Some(Str(after.request.userAgent))
  {
    var base := LoggerBase(before, after, elapsedNanos);
    LookupFirst(base, 0, "status");
    LookupFirst(base, 1, "method");
    LookupFirst(base, 2, "path");
    LookupFirst(base, 3, "query");
    LookupFirst(base, 4, "ip");
    LookupFirst(base, 5, "latency_ms");
    LookupFirst(base, 6, "user_agent");
  }

  lemma LoggerBaseKeysAre(before: HttpRequest, after: GinState, elapsedNanos: nat)
    ensures Keys(LoggerBase(before, after, elapsedNanos)) == LoggerBaseKeys
  {
  }

  lemma LoggerBaseLacksOptionalKeys(before: HttpRequest, after: GinState, elapsedNanos: nat)
    ensures "trace_id" !in Keys(LoggerBase(before, after, elapsedNanos))
    ensures "span_id" !in Keys(LoggerBase(before, after, elapsedNanos))
    ensures "error" !in Keys(LoggerBase(before, after, elapsedNanos))
  {
    LoggerBaseKeysAre(before, after, elapsedNanos);
  }

  /** The optional fields: the ids of the span found before `c.Next`, each
      only when non-zero, and the private errors' text only when there is
      any. */
  lemma LoggerFieldsOptionalPart(before: HttpRequest, after: GinState, elapsedNanos: nat)
    ensures Lookup(LoggerFields(before, after, elapsedNanos), "trace_id")
            == if HasTraceId(before.span) then Some(Str(TraceIdString(before.span))) else None
    ensures Lookup(LoggerFields(before, after, elapsedNanos), "span_id")
            == if HasSpanId(before.span) then Some(Str(SpanIdString(before.span))) else None
    ensures Lookup(LoggerFields(before, after, elapsedNanos), "error")
            == if after.privateErrors != "" then Some(Str(after.privateErrors)) else None
  {
    var base := LoggerBase(before, after, elapsedNanos);
    var t := TraceFields(before.span);
    var e := ErrorsField(after);
    assert LoggerFields(before, after, elapsedNanos) == base + (t + e);
    LoggerBaseLacksOptionalKeys(before, after, elapsedNanos);
    TraceFieldsByBytes(before.span);
    LookupSkip(base, t + e, "trace_id");
    LookupSkip(base, t + e, "span_id");
    LookupSkip(base, t + e, "error");
    LookupAppend(t, e, "trace_id");
    LookupAppend(t, e, "span_id");
    LookupSkip(t, e, "error");
    LookupFound(e, "trace_id");
    LookupFound(e, "span_id");
  }

  /** Builds the logger's fields by successive appends, as the source does. */
  method BuildLoggerFields(path: string, query: string, sc: SpanContext, status: int, verb: string,
                           clientIP: string, elapsedNanos: nat, userAgent: string, errorMessage: string)
    returns (fields: seq<Field>)
    ensures forall before: HttpRequest, after: GinState ::
      before.path == path && before.rawQuery == query && before.span == sc
      && after.status == status && after.request.verb == verb && after.request.clientIP == clientIP
      && after.request.userAgent == userAgent && after.privateErrors == errorMessage
      ==> fields == LoggerFields(before, after, elapsedNanos)
  {
    fields := [Field("status", Int(status)),
               Field("method", Str(verb)),
               Field("path", Str(path)),
               Field("query", Str(query)),
               Field("ip", Str(clientIP)),
               Field("latency_ms", Int(elapsedNanos / 1000000)),
               Field("user_agent", Str(userAgent))];
    var traceId := TraceIdString(sc);
    var spanId := SpanIdString(sc);
    if traceId != "" && traceId != ZeroTraceIdHex {
      fields := fields + [Field("trace_id", Str(traceId))];
    }
    if spanId != "" && spanId != ZeroSpanIdHex {
      fields := fields + [Field("span_id", Str(spanId))];
    }
    if errorMessage != "" {
      fields := fields + [Field("error", Str(errorMessage))];
    }
  }

  // ---------------------------------------------------------------------
  // Recovery

  /** The body of a recovered request: fixed error and message, the
      request path, and the trace id only when it is non-zero. */
  function NewErrorResponse(path: string, traceId: string): (r: ErrorResponse)
    ensures r.error == InternalServerError && r.message == RecoveryMessage && r.path == path
    ensures r.traceId == (if LoggableTraceId(traceId) then traceId else "")
  {
    var resp := ErrorResponse(InternalServerError, RecoveryMessage, "", path);
    if traceId != "" && traceId != ZeroTraceIdHex then resp.(traceId := traceId) else resp
  }

  /** The JSON object's members in field order; `trace_id` and `path` are
      `omitempty`. */
  function JsonMembers(r: ErrorResponse): (m: seq<(string, string)>)
    ensures |m| >= 2 && m[0] == ("error", r.error) && m[1] == ("message", r.message)
    ensures ("trace_id", r.traceId) in m <==> r.traceId != ""
    ensures ("path", r.path) in m <==> r.path != ""
  {
    [("error", r.error), ("message", r.message)]
    + (if r.traceId != "" then [("trace_id", r.traceId)] else [])
    + (if r.path != "" then [("path", r.path)] else [])
  }

  /** The recovery record: the payload, the trace id unfiltered, and the
      request's path and method, with the stack last. */
  function RecoveryEntry(payload: string, sc: SpanContext, req: HttpRequest, stack: string): (r: Record)
    ensures r.level == Level.Error
    ensures Lookup(r.fields, "error") == Some(Str(payload))
    ensures Lookup(r.fields, "trace_id") == Some(Str(TraceIdString(sc)))
    ensures Lookup(r.fields, "path") == Some(Str(req.path))
    ensures Lookup(r.fields, "method") == Some(Str(req.verb))
    ensures Lookup(r.fields, "stack") == Some(Str(stack))
  {
    var fs := [Field("error", Str(payload)), Field("trace_id", Str(TraceIdString(sc))),
               Field("path", Str(req.path)), Field("method", Str(req.verb)), Field("stack", Str(stack))];
    LookupFirst(fs, 0, "error");
    LookupFirst(fs, 1, "trace_id");
    LookupFirst(fs, 2, "path");
    LookupFirst(fs, 3, "method");
    LookupFirst(fs, 4, "stack");
    Record(Level.Error, "Panic recovered", fs)
  }

  /** The context after recovery wrote the 500 response and aborted. */
  function Recovered(st: GinState): GinState {
    st.(status := 500,
        body := ErrorJson(NewErrorResponse(st.request.path, TraceIdString(st.request.span))),
        aborted := true)
  }

  // ---------------------------------------------------------------------
  // Running a chain

  /** `c.Request` after the handler: its replacement, if it made one. */
  function ReplaceRequest(req: HttpRequest, newRequest: Option<HttpRequest>): HttpRequest {
    if newRequest.Some? then newRequest.value else req
  }

  function RunHandler(env: GinEnv, st: GinState): GinStep {
    match env.handler(st.request)
    case Completed(status, errs, ns) =>
      GinStep(st.(request := ReplaceRequest(st.request, ns), status := status, body := ByHandler, privateErrors := errs), None, [], [])
    case Panicked(p, ns) =>
      GinStep(st.(request := ReplaceRequest(st.request, ns)), Some(p), [], [])
  }

  /** The context the rest of the chain sees once the tracing stage ran. */
  function EnterTracing(env: GinEnv, st: GinState): (r: GinState)
    ensures r.request.span == env.started && r.request.(span := st.request.span) == st.request
    ensures r.header == TracingHeader(st.header, env.started)
    ensures r.status == st.status && r.body == st.body && r.aborted == st.aborted && r.privateErrors == st.privateErrors
  {
    st.(request := st.request.(span := env.started), header := TracingHeader(st.header, env.started))
  }

  /** The tracing stage around the rest's result `sub`: the span is started
      before and ended after, whether `sub` returned or panicked. */
  function TracingStep(env: GinEnv, st: GinState, sub: GinStep): (r: GinStep)
    ensures r.state == sub.state && r.panic == sub.panic && r.entries == sub.entries
    ensures |r.spans| == |sub.spans| + 2 && r.spans[1..|r.spans| - 1] == sub.spans
    ensures r.spans[0] == SpanStarted(SpanName(st.request), SpanKindServer, env.started)
    ensures r.spans[|r.spans| - 1] == SpanEnded(env.started)
  {
    sub.(spans := [SpanStarted(SpanName(st.request), SpanKindServer, env.started)] + sub.spans + [SpanEnded(env.started)])
  }

  /** The recovery stage around the rest's result: a panic is logged with
      the request as it is then, answered with 500 and ended. */
  function RecoveryStep(env: GinEnv, sub: GinStep): (r: GinStep)
    ensures r.panic.None? && r.spans == sub.spans
    ensures sub.panic.None? ==> r == sub
    ensures sub.panic.Some? ==> r.state.status == 500 && r.state.aborted
    ensures sub.panic.Some? ==> r.state.request == sub.state.request && r.state.header == sub.state.header
    ensures sub.panic.Some? ==> |r.entries| == |sub.entries| + 1 && r.entries[..|sub.entries|] == sub.entries
    ensures sub.panic.Some? ==> r.entries[|sub.entries|].level == Level.Error
  {
    if sub.panic.None? then sub
    else GinStep(Recovered(sub.state), None,
                 sub.entries + [RecoveryEntry(sub.panic.value, sub.state.request.span, sub.state.request, env.stack)],
                 sub.spans)
  }

  /** The logger stage around the rest's result: logged only if it returned. */
  function LoggerStep(env: GinEnv, st: GinState, sub: GinStep): (r: GinStep)
    ensures r.state == sub.state && r.panic == sub.panic && r.spans == sub.spans
    ensures sub.panic.Some? ==> r.entries == sub.entries
    ensures sub.panic.None? ==> |r.entries| == |sub.entries| + 1 && r.entries[..|sub.entries|] == sub.entries
    ensures sub.panic.None? ==> r.entries[|sub.entries|].level == HttpLevel(sub.state.status)
  {
    if sub.panic.Some? then sub
    else sub.(entries := sub.entries + [LoggerEntry(st.request, sub.state, env.elapsedNanos)])
  }

  /** The stages, then the route handler, as `c.Next` runs them. */
  function RunGin(stages: seq<Stage>, env: GinEnv, st: GinState): (r: GinStep)
    ensures |r.entries| <= |stages|
    ensures |r.spans| == 2 * TracingStages(stages)
    ensures stages != [] && stages[0] == GinRecovery ==> r.panic.None?
    decreases |stages|
  {
    if stages == [] then RunHandler(env, st)
    else
      match stages[0]
      case GinTracing => TracingStep(env, st, RunGin(stages[1..], env, EnterTracing(env, st)))
      case GinRecovery => RecoveryStep(env, RunGin(stages[1..], env, st))
      case GinLogger => LoggerStep(env, st, RunGin(stages[1..], env, st))
  }

  function StartedCount(es: seq<SpanEvent>): nat {
    if es == [] then 0 else (if es[0].SpanStarted? then 1 else 0) + StartedCount(es[1..])
  }

  function EndedCount(es: seq<SpanEvent>): nat {
    if es == [] then 0 else (if es[0].SpanEnded? then 1 else 0) + EndedCount(es[1..])
  }

  lemma {:induction false} CountsAppend(a: seq<SpanEvent>, b: seq<SpanEvent>)
    ensures StartedCount(a + b) == StartedCount(a) + StartedCount(b)
    ensures EndedCount(a + b) == EndedCount(a) + EndedCount(b)
  {
    if a == [] {
      assert a + b == b;
    } else {
      assert (a + b)[1..] == a[1..] + b;
      CountsAppend(a[1..], b);
    }
  }

  function TracingStages(stages: seq<Stage>): nat {
    if stages == [] then 0 else (if stages[0] == GinTracing then 1 else 0) + TracingStages(stages[1..])
  }

  /** Every tracing stage starts one span and ends it, whether the rest of
      the chain returned or panicked, and the route handler starts none. */
  lemma {:induction false} SpansAlwaysEnded(stages: seq<Stage>, env: GinEnv, st: GinState)
    ensures StartedCount(RunGin(stages, env, st).spans) == TracingStages(stages)
    ensures EndedCount(RunGin(stages, env, st).spans) == TracingStages(stages)
  {
    if stages != [] {
      match stages[0]
      case GinTracing =>
        var st1 := EnterTracing(env, st);
        var sub := RunGin(stages[1..], env, st1);
        SpansAlwaysEnded(stages[1..], env, st1);
        var a := [SpanStarted(SpanName(st.request), SpanKindServer, env.started)];
        var z := [SpanEnded(env.started)];
        CountsAppend(a, sub.spans);
        CountsAppend(a + sub.spans, z);
        assert StartedCount(z) == 0 && EndedCount(z) == 1 by { assert z[1..] == []; }
        assert StartedCount(a) == 1 && EndedCount(a) == 0 by { assert a[1..] == []; }
      case GinRecovery =>
        SpansAlwaysEnded(stages[1..], env, st);
      case GinLogger =>
        SpansAlwaysEnded(stages[1..], env, st);
    }
  }

  /** The request the route handler receives after the stages ran: only
      the span in its context differs from the one the chain started with. */
  function HandlerRequest(stages: seq<Stage>, env: GinEnv, st: GinState): (q: HttpRequest)
    ensures q.(span := st.request.span) == st.request
    decreases |stages|
  {
    if stages == [] then st.request
    else if stages[0] == GinTracing then HandlerRequest(stages[1..], env, EnterTracing(env, st))
    else HandlerRequest(stages[1..], env, st)
  }

  /** The stages never change the request line, address or user agent
      (`WithContext` keeps them); the request a chain ends with is the one
      the handler received, or the handler's replacement. */
  lemma {:induction false} RequestLineKept(stages: seq<Stage>, env: GinEnv, st: GinState)
    ensures var q := HandlerRequest(stages, env, st);
      RunGin(stages, env, st).state.request == ReplaceRequest(q, env.handler(q).newRequest)
    ensures var q := HandlerRequest(stages, env, st);
      env.handler(q).newRequest.None? ==> RunGin(stages, env, st).state.request.(span := st.request.span) == st.request
  {
    if stages != [] {
      match stages[0]
      case GinTracing =>
        RequestLineKept(stages[1..], env, EnterTracing(env, st));
      case GinRecovery =>
        RequestLineKept(stages[1..], env, st);
      case GinLogger =>
        RequestLineKept(stages[1..], env, st);
    }
  }

  /** The logger reads path and query before `c.Next` and the method,
      address and user agent after it: when the handler replaces the
      request, the record mixes the two requests. */
  lemma LoggerReadsLineAroundNext(env: GinEnv, st: GinState)
    requires env.handler(st.request).Completed?
    ensures var q := ReplaceRequest(st.request, env.handler(st.request).newRequest);
      var fs := RunGin([GinLogger], env, st).entries[0].fields;
      && Lookup(fs, "path") == Some(Str(st.request.path))
      && Lookup(fs, "query") == Some(Str(st.request.rawQuery))
      && Lookup(fs, "method") == Some(Str(q.verb))
      && Lookup(fs, "ip") == Some(Str(q.clientIP))
      && Lookup(fs, "user_agent") == Some(Str(q.userAgent))
  {
    assert [GinLogger][1..] == [];
    LoggerFieldsFixedPart(st.request, RunHandler(env, st).state, env.elapsedNanos);
  }

  /** The request the route handler receives behind `GinMiddleware`: the
      original one, with the tracing span in its context. */
  function TracedRequest(env: GinEnv, req: HttpRequest): HttpRequest {
    req.(span := env.started)
  }

  /** A request that completes normally behind `GinMiddleware`: the
      handler's status and body reach the client, the `X-Trace-ID` header is
      set iff the tracing span has a trace id, one span is started and
      ended, and the only entry is the logger's, at the level of the status
      and carrying the tracing span's ids. */
  lemma MiddlewareNormalRequest(env: GinEnv, req: HttpRequest)
    requires env.handler(TracedRequest(env, req)).Completed?
    ensures var r := RunGin(GinMiddleware(), env, InitialState(req));
      var h := env.handler(TracedRequest(env, req));
      && r.panic.None?
      && r.state.status == h.status && r.state.body == ByHandler && !r.state.aborted
      && (TraceIdHeader in r.state.header <==> HasTraceId(env.started))
      && r.spans == [SpanStarted(SpanName(req), SpanKindServer, env.started), SpanEnded(env.started)]
      && |r.entries| == 1
      && r.entries[0] == LoggerEntry(TracedRequest(env, req), r.state, env.elapsedNanos)
      && r.entries[0].level == HttpLevel(h.status)
  {
    var m := GinMiddleware();
    assert m[1..][1..][1..] == [];
  }

  /** A request whose handler panics behind `GinMiddleware`: the client
      gets 500 and the fixed error body for the request path; the logger's
      post-`Next` code never runs, so the only entry is the recovery record,
      which holds the payload; the span is still ended. */
  lemma MiddlewarePanickingRequest(env: GinEnv, req: HttpRequest)
    requires env.handler(TracedRequest(env, req)).Panicked?
    ensures var r := RunGin(GinMiddleware(), env, InitialState(req));
      var h := env.handler(TracedRequest(env, req));
      var q := ReplaceRequest(TracedRequest(env, req), h.newRequest);
      var sc := q.span;
      && r.panic.None?
      && r.state.status == 500 && r.state.aborted
      && r.state.body == ErrorJson(NewErrorResponse(q.path, TraceIdString(sc)))
      && r.spans == [SpanStarted(SpanName(req), SpanKindServer, env.started), SpanEnded(env.started)]
      && r.entries == [RecoveryEntry(h.payload, sc, q, env.stack)]
  {
    var m := GinMiddleware();
    assert m[1..][1..][1..] == [];
  }

  /** The response to a panicking request does not depend on the payload. */
  lemma PanicPayloadNotEchoed(env1: GinEnv, env2: GinEnv, req: HttpRequest)
    requires env1.started == env2.started
    requires env1.handler(TracedRequest(env1, req)).Panicked? && env2.handler(TracedRequest(env2, req)).Panicked?
    requires env1.handler(TracedRequest(env1, req)).newRequest == env2.handler(TracedRequest(env2, req)).newRequest
    ensures RunGin(GinMiddleware(), env1, InitialState(req)).state == RunGin(GinMiddleware(), env2, InitialState(req)).state
  {
    MiddlewarePanickingRequest(env1, req);
    MiddlewarePanickingRequest(env2, req);
  }

  /** The error body holds the request path and the fixed texts; it has a
      `trace_id` member only for a non-zero trace id. */
  lemma ErrorBodyShape(path: string, sc: SpanContext)
    ensures var r := NewErrorResponse(path, TraceIdString(sc));
      && r.error == InternalServerError && r.message == RecoveryMessage && r.path == path
      && (r.traceId != "" <==> HasTraceId(sc))
      && (HasTraceId(sc) ==> ("trace_id", TraceIdString(sc)) in JsonMembers(r))
  {
    TraceIdFilterAgrees(sc);
  }

  /** Recovery around a handler that returns changes nothing. */
  lemma RecoveryTransparentWithoutPanic(rest: seq<Stage>, env: GinEnv, st: GinState)
    requires RunGin(rest, env, st).panic.None?
    ensures RunGin([GinRecovery] + rest, env, st) == RunGin(rest, env, st)
  {
    assert ([GinRecovery] + rest)[1..] == rest;
  }

  /** A logger used alone logs the ids it found before `c.Next`: a span the
      handler starts and stores in `c.Request` is not logged. */
  lemma LoggerIgnoresHandlerSpan(env: GinEnv, st: GinState)
    requires env.handler(st.request).Completed?
    ensures RunGin([GinLogger], env, st).entries
            == [LoggerEntry(st.request, RunHandler(env, st).state, env.elapsedNanos)]
    ensures Lookup(RunGin([GinLogger], env, st).entries[0].fields, "trace_id")
            == if HasTraceId(st.request.span) then Some(Str(TraceIdString(st.request.span))) else None
  {
    assert [GinLogger][1..] == [];
    LoggerFieldsOptionalPart(st.request, RunHandler(env, st).state, env.elapsedNanos);
  }

  // ---------------------------------------------------------------------
  // The context and the stages as the source runs them

  /** The tracer's record of span starts and ends. */
  class SpanRecorder {
    var events: seq<SpanEvent>

    constructor ()
      ensures events == []
    {
      events := [];
    }

    method Start(name: string, kind: SpanKind, sc: SpanContext)
      modifies this
      ensures events == old(events) + [SpanStarted(name, kind, sc)]
    {
      events := events + [SpanStarted(name, kind, sc)];
    }

    method End(sc: SpanContext)
      modifies this
      ensures events == old(events) + [SpanEnded(sc)]
    {
      events := events + [SpanEnded(sc)];
    }
  }

  /** `*gin.Context`, as far as the stages use it. */
  class Context {
    var request: HttpRequest
    var header: map<string, string>
    var status: int
    var body: Body
    var aborted: bool
    var privateErrors: string

    function State(): GinState
      reads this
    {
      GinState(request, header, status, body, aborted, privateErrors)
    }

    constructor (req: HttpRequest)
      ensures State() == InitialState(req)
    {
      request, header, status, body, aborted, privateErrors := req, map[], 200, Unwritten, false, "";
    }

    /** `c.Request = c.Request.WithContext(ctx)` and, for a span with a
        trace id, `c.Header("X-Trace-ID", …)`. */
    method StoreSpan(sc: SpanContext)
      modifies this
      ensures State() == old(State()).(request := old(request).(span := sc), header := TracingHeader(old(header), sc))
    {
      request := request.(span := sc);
      if HasTraceId(sc) {
        header := header[TraceIdHeader := TraceIdString(sc)];
      }
    }

    /** `c.AbortWithStatusJSON`. */
    method AbortWithStatusJSON(code: int, resp: ErrorResponse)
      modifies this
      ensures State() == old(State()).(status := code, body := ErrorJson(resp), aborted := true)
    {
      status, body, aborted := code, ErrorJson(resp), true;
    }
  }

  /** Runs the route handler on the context. */
  method Handle(c: Context, env: GinEnv) returns (panic: Option<string>)
    modifies c
    ensures var r := RunHandler(env, old(c.State())); c.State() == r.state && panic == r.panic
  {
    match env.handler(c.request)
    case Completed(status, errs, ns) =>
      c.request := ReplaceRequest(c.request, ns);
      c.status, c.body, c.privateErrors := status, ByHandler, errs;
      panic := None;
    case Panicked(p, ns) =>
      c.request := ReplaceRequest(c.request, ns);
      panic := Some(p);
  }

  /** `c.Next()` from the given stage on: each stage's code as the source
      has it, around the rest of the chain. The result is the panic still
      unwinding, if any. */
  method Serve(c: Context, logger: Logger, tracer: SpanRecorder, stages: seq<Stage>, env: GinEnv)
    returns (panic: Option<string>)
    requires logger.Valid()
    modifies c, logger, tracer
    ensures logger.Valid()
    ensures Agrees(RunGin(stages, env, old(c.State())), c, panic, logger, old(logger.records), tracer, old(tracer.events))
    decreases |stages|, 0
  {
    if stages == [] {
      panic := Handle(c, env);
      WrittenOne(logger.settings, Record(Level.Info, "", []));
      assert Written(logger.settings, []) == [];
    } else {
      match stages[0]
      case GinTracing => panic := Tracing(c, logger, tracer, stages[1..], env);
      case GinRecovery => panic := Recovery(c, logger, tracer, stages[1..], env);
      case GinLogger => panic := LogRequest(c, logger, tracer, stages[1..], env);
    }
  }

  /** The context, the panic, the records appended and the span events
      recorded are those of the step `r`. */
  ghost predicate Agrees(r: GinStep, c: Context, panic: Option<string>, logger: Logger, recs: seq<Record>,
                         tracer: SpanRecorder, events: seq<SpanEvent>)
    reads c, logger, tracer
  {
    && c.State() == r.state && panic == r.panic
    && logger.records == recs + Written(logger.settings, r.entries)
    && tracer.events == events + r.spans
  }

  /** `GinTracing`: starts the server span, stores it in the request and
      sets `X-Trace-ID`, runs the rest, and ends the span on the way out. */
  method Tracing(c: Context, logger: Logger, tracer: SpanRecorder, rest: seq<Stage>, env: GinEnv)
    returns (panic: Option<string>)
    requires logger.Valid()
    modifies c, logger, tracer
    ensures logger.Valid()
    ensures Agrees(TracingStep(env, old(c.State()), RunGin(rest, env, EnterTracing(env, old(c.State())))),
                   c, panic, logger, old(logger.records), tracer, old(tracer.events))
    decreases |rest|, 1
  {
    ghost var st := c.State();
    ghost var sub := RunGin(rest, env, EnterTracing(env, st));
    ghost var events := tracer.events;
    tracer.Start(c.request.verb + " " + c.request.path, SpanKindServer, env.started);
    c.StoreSpan(env.started);
    ghost var mid := tracer.events;
    panic := Serve(c, logger, tracer, rest, env);
    ghost var served := tracer.events;
    assert served == mid + sub.spans;
    // the deferred span.End(): it runs on return and while a panic unwinds
    tracer.End(env.started);
    SpansAround(env, st, sub, events, mid, served, tracer.events);
  }

  /** The span events around the rest's: the start before, the end after. */
  lemma SpansAround(env: GinEnv, st: GinState, sub: GinStep, events: seq<SpanEvent>, mid: seq<SpanEvent>,
                    served: seq<SpanEvent>, final: seq<SpanEvent>)
    requires mid == events + [SpanStarted(SpanName(st.request), SpanKindServer, env.started)]
    requires served == mid + sub.spans
    requires final == served + [SpanEnded(env.started)]
    ensures final == events + TracingStep(env, st, sub).spans
  {
  }

  /** `GinRecovery`: runs the rest; if it panicked, logs the panic, answers
      500 with the error body and aborts, ending the panic. */
  method Recovery(c: Context, logger: Logger, tracer: SpanRecorder, rest: seq<Stage>, env: GinEnv)
    returns (panic: Option<string>)
    requires logger.Valid()
    modifies c, logger, tracer
    ensures logger.Valid()
    ensures Agrees(RecoveryStep(env, RunGin(rest, env, old(c.State()))), c, panic, logger, old(logger.records), tracer, old(tracer.events))
    decreases |rest|, 1
  {
    ghost var sub := RunGin(rest, env, c.State());
    ghost var recs := logger.records;
    panic := Serve(c, logger, tracer, rest, env);
    ghost var mid := logger.records;
    assert c.State() == sub.state && panic == sub.panic;
    assert mid == recs + Written(logger.settings, sub.entries);
    if panic.Some? {
      RecoverPanic(c, logger, panic.value, env.stack);
      ghost var entry := RecoveryEntry(sub.panic.value, sub.state.request.span, sub.state.request, env.stack);
      RecordsAfter(logger.settings, recs, sub.entries, mid, entry, logger.records);
      panic := None;
    }
  }

  /** `GinLogger`: notes path, query and span, runs the rest and, if it
      returned, logs the request at the level of its status. */
  method LogRequest(c: Context, logger: Logger, tracer: SpanRecorder, rest: seq<Stage>, env: GinEnv)
    returns (panic: Option<string>)
    requires logger.Valid()
    modifies c, logger, tracer
    ensures logger.Valid()
    ensures Agrees(LoggerStep(env, old(c.State()), RunGin(rest, env, old(c.State()))), c, panic, logger, old(logger.records), tracer, old(tracer.events))
    decreases |rest|, 1
  {
    ghost var st := c.State();
    ghost var sub := RunGin(rest, env, st);
    ghost var recs := logger.records;
    var path := c.request.path;
    var query := c.request.rawQuery;
    var sc := c.request.span;
    panic := Serve(c, logger, tracer, rest, env);
    ghost var mid := logger.records;
    assert c.State() == sub.state && panic == sub.panic;
    assert mid == recs + Written(logger.settings, sub.entries);
    if panic.None? {
      LogCompletedRequest(c, logger, path, query, sc, env.elapsedNanos, st.request);
      ghost var entry := LoggerEntry(st.request, sub.state, env.elapsedNanos);
      RecordsAfter(logger.settings, recs, sub.entries, mid, entry, logger.records);
    }
  }

  /** Records appended after those of `entries` extend the sink as the
      entries and the new one emitted together would. */
  lemma RecordsAfter(s: Settings, recs: seq<Record>, entries: seq<Record>, mid: seq<Record>, entry: Record, final: seq<Record>)
    requires mid == recs + Written(s, entries)
    requires final == mid + Written(s, [entry])
    ensures final == recs + Written(s, entries + [entry])
  {
    WrittenAppend(s, entries, [entry]);
  }

  /** The deferred recover's work once a panic is caught. */
  method RecoverPanic(c: Context, logger: Logger, payload: string, stack: string)
    requires logger.Valid()
    modifies c, logger
    ensures logger.Valid()
    ensures c.State() == Recovered(old(c.State()))
    ensures logger.records == old(logger.records)
              + Written(logger.settings, [RecoveryEntry(payload, old(c.request).span, old(c.request), stack)])
  {
    var traceId := TraceIdString(c.request.span);
    var entry := RecoveryEntry(payload, c.request.span, c.request, stack);
    logger.Error("Panic recovered", entry.fields);
    var resp := ErrorResponse(InternalServerError, RecoveryMessage, "", c.request.path);
    if traceId != "" && traceId != ZeroTraceIdHex {
      resp := resp.(traceId := traceId);
    }
    c.AbortWithStatusJSON(500, resp);
  }

  /** The logger's code after `c.Next` returned, with what it read before
      (`before` is the request it found). */
  method LogCompletedRequest(c: Context, logger: Logger, path: string, query: string, sc: SpanContext,
                             elapsedNanos: nat, ghost before: HttpRequest)
    requires logger.Valid()
    requires before.path == path && before.rawQuery == query && before.span == sc
    modifies logger
    ensures logger.Valid()
    ensures logger.records == old(logger.records) + Written(logger.settings, [LoggerEntry(before, c.State(), elapsedNanos)])
  {
    var fields := BuildLoggerFields(path, query, sc, c.status, c.request.verb, c.request.clientIP,
                                    elapsedNanos, c.request.userAgent, c.privateErrors);
    assert fields == LoggerFields(before, c.State(), elapsedNanos);
    if c.status >= 500 {
      logger.Error("HTTP Server Error", fields);
    } else if c.status >= 400 {
      logger.Warn("HTTP Client Error", fields);
    } else {
      logger.Info("HTTP Request", fields);
    }
  }
}
