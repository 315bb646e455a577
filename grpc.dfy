/** The gRPC interceptors: the logging interceptors (unary and stream),
    which pass the handler's results through and emit one classified
    record, the recovery interceptors, which turn a handler panic into a
    generic Internal status, and the fixed two-member chains. */
module Grpc {
  import opened Wrappers
  import opened TraceIds
  import opened Logging

  /** gRPC status codes. */
  datatype Code =
    | OK | Canceled | Unknown | InvalidArgument | DeadlineExceeded | NotFound
    | AlreadyExists | PermissionDenied | ResourceExhausted | FailedPrecondition
    | Aborted | OutOfRange | Unimplemented | Internal | Unavailable | DataLoss
    | Unauthenticated

  /** `codes.Code.String`. */
  function CodeName(c: Code): string {
    match c
    case OK => "OK"
    case Canceled => "Canceled"
    case Unknown => "Unknown"
    case InvalidArgument => "InvalidArgument"
    case DeadlineExceeded => "DeadlineExceeded"
    case NotFound => "NotFound"
    case AlreadyExists => "AlreadyExists"
    case PermissionDenied => "PermissionDenied"
    case ResourceExhausted => "ResourceExhausted"
    case FailedPrecondition => "FailedPrecondition"
    case Aborted => "Aborted"
    case OutOfRange => "OutOfRange"
    case Unimplemented => "Unimplemented"
    case Internal => "Internal"
    case Unavailable => "Unavailable"
    case DataLoss => "DataLoss"
    case Unauthenticated => "Unauthenticated"
  }

  /** A non-nil Go `error`: a gRPC status error, or any other error. */
  datatype Err = StatusErr(code: Code, desc: string) | PlainErr(text: string)

  /** `status.Code`: OK for nil, Unknown for an error that is not a status. */
  function CodeOf(err: Option<Err>): (c: Code)
    ensures err.None? ==> c == OK
    ensures err.Some? && err.value.PlainErr? ==> c == Unknown
    ensures err.Some? && err.value.StatusErr? ==> c == err.value.code
  {
    match err
    case None => OK
    case Some(StatusErr(code, _)) => code
    case Some(PlainErr(_)) => Unknown
  }

  const StatusErrorPrefix: string := "rpc error: code = "

  /** `err.Error()`: a plain error's own text; a status error names its
      code and ends with its description. */
  function ErrorText(e: Err): (t: string)
    ensures e.PlainErr? ==> t == e.text
    ensures e.StatusErr? ==> |t| >= |StatusErrorPrefix| + |e.desc|
    ensures e.StatusErr? ==> t[..|StatusErrorPrefix|] == StatusErrorPrefix && t[|t| - |e.desc|..] == e.desc
  {
    match e
    case StatusErr(code, desc) =>
      var t := StatusErrorPrefix + CodeName(code) + " desc = " + desc;
      assert t[|t| - |desc|..] == desc;
      t
    case PlainErr(text) => text
  }

  /** The codes the logging interceptors treat as the client's fault. */
  const ClientFaultCodes: set<Code> :=
    {Canceled, InvalidArgument, NotFound, AlreadyExists, PermissionDenied,
     Unauthenticated, FailedPrecondition, OutOfRange}

  /** The severity of a completed call's record. */
  function LevelFor(c: Code): (l: Level)
    ensures l == Level.Info <==> c == OK
    ensures l == Level.Warn <==> c in ClientFaultCodes
    ensures l == Level.Error <==> c != OK && c !in ClientFaultCodes
  {
    match c
    case OK => Level.Info
    case Canceled | InvalidArgument | NotFound | AlreadyExists | PermissionDenied
      | Unauthenticated | FailedPrecondition | OutOfRange => Level.Warn
    case _ => Level.Error
  }

  /** The body of a unary response; its content is the handler's business. */
  datatype Response = Response(body: string)

  /** What the `FullMethod` and stream flags of the server info say. */
  datatype CallInfo =
    | Unary(fullMethod: string)
    | Stream(fullMethod: string, isClientStream: bool, isServerStream: bool)

  /** How a unary handler (or the rest of a chain) ended: it returned a
      response and an error, or it panicked with a value printed by `%v`. */
  datatype Outcome = Returned(resp: Option<Response>, err: Option<Err>) | Panicked(payload: string)

  /** How a stream handler ended. */
  datatype StreamOutcome = StreamReturned(err: Option<Err>) | StreamPanicked(payload: string)

  /** A stream outcome seen as a call outcome without a response. */
  function Lift(o: StreamOutcome): (r: Outcome)
    ensures r.Returned? <==> o.StreamReturned?
    ensures r.Returned? ==> r.resp.None? && r.err == o.err
    ensures r.Panicked? ==> r.payload == o.payload
  {
    match o
    case StreamReturned(err) => Returned(None, err)
    case StreamPanicked(p) => Panicked(p)
  }

  /** `time.Duration.Milliseconds` of a non-negative elapsed time in
      nanoseconds: whole milliseconds, truncated. */
  function Millis(elapsedNanos: nat): (ms: nat)
    ensures ms * 1000000 <= elapsedNanos < (ms + 1) * 1000000
  {
    elapsedNanos / 1000000
  }

  // ---------------------------------------------------------------------
  // The logging interceptors' record

  /** The fields every record of a completed call starts with. */
  function BaseFields(call: CallInfo, elapsedNanos: nat, err: Option<Err>): seq<Field> {
    [Field("method", Str(call.fullMethod)),
     Field("grpc_code", Str(CodeName(CodeOf(err)))),
     Field("latency_ms", Int(Millis(elapsedNanos)))]
    + match call
      case Unary(_) => []
      case Stream(_, c, s) => [Field("is_client_stream", Bool(c)), Field("is_server_stream", Bool(s))]
  }

  function BaseKeys(call: CallInfo): seq<string> {
    ["method", "grpc_code", "latency_ms"]
    + if call.Stream? then ["is_client_stream", "is_server_stream"] else []
  }

  function ErrorField(err: Option<Err>): seq<Field> {
    if err.Some? then [Field("error", Str(ErrorText(err.value)))] else []
  }

  /** The fields of a completed call's record. */
  function RequestFields(call: CallInfo, sc: SpanContext, elapsedNanos: nat, err: Option<Err>): seq<Field> {
    BaseFields(call, elapsedNanos, err) + TraceFields(sc) + ErrorField(err)
  }

  function RequestMessage(call: CallInfo, c: Code): string {
    match (call, LevelFor(c))
    case (Unary(_), Info) => "gRPC Request"
    case (Unary(_), Warn) => "gRPC Client Error"
    case (Unary(_), _) => "gRPC Server Error"
    case (Stream(_, _, _), Info) => "gRPC Stream Request"
    case (Stream(_, _, _), Warn) => "gRPC Stream Client Error"
    case (Stream(_, _, _), _) => "gRPC Stream Server Error"
  }

  /** The record a logging interceptor emits for a completed call: its
      level and message follow the code's class and the call's kind, and
      its keys are the fixed ones followed by the present optional ones,
      none repeated. */
  function RequestEntry(call: CallInfo, sc: SpanContext, elapsedNanos: nat, err: Option<Err>): (r: Record)
    ensures r.level == LevelFor(CodeOf(err))
    ensures CodeOf(err) == OK ==>
              r.msg == (if call.Unary? then "gRPC Request" else "gRPC Stream Request")
    ensures CodeOf(err) in ClientFaultCodes ==>
              r.msg == (if call.Unary? then "gRPC Client Error" else "gRPC Stream Client Error")
    ensures CodeOf(err) != OK && CodeOf(err) !in ClientFaultCodes ==>
              r.msg == (if call.Unary? then "gRPC Server Error" else "gRPC Stream Server Error")
    ensures Keys(r.fields) == BaseKeys(call) + OptionalKeys(HasTraceId(sc), HasSpanId(sc), err.Some?)
    ensures Distinct(Keys(r.fields))
  {
    RequestKeys(call, sc, elapsedNanos, err);
    RequestKeysDistinct(call, sc, elapsedNanos, err);
    Record(LevelFor(CodeOf(err)), RequestMessage(call, CodeOf(err)), RequestFields(call, sc, elapsedNanos, err))
  }

  /** The fixed fields come first, with the call's method, the code's name,
      the latency in whole milliseconds and, for streams, the two flags. */
  lemma RequestFieldsFixedPart(call: CallInfo, sc: SpanContext, elapsedNanos: nat, err: Option<Err>)
    ensures Keys(RequestFields(call, sc, elapsedNanos, err))[..|BaseKeys(call)|] == BaseKeys(call)
    ensures Lookup(RequestFields(call, sc, elapsedNanos, err), "method") == Some(Str(call.fullMethod))
    ensures Lookup(RequestFields(call, sc, elapsedNanos, err), "grpc_code") == Some(Str(CodeName(CodeOf(err))))
    ensures Lookup(RequestFields(call, sc, elapsedNanos, err), "latency_ms") == Some(Int(Millis(elapsedNanos)))
    ensures call.Stream? ==> Lookup(RequestFields(call, sc, elapsedNanos, err), "is_client_stream") == Some(Bool(call.isClientStream))
    ensures call.Stream? ==> Lookup(RequestFields(call, sc, elapsedNanos, err), "is_server_stream") == Some(Bool(call.isServerStream))
  {
    var base := BaseFields(call, elapsedNanos, err);
    var rest := TraceFields(sc) + ErrorField(err);
    assert RequestFields(call, sc, elapsedNanos, err) == base + rest;
    KeysAppend(base, rest);
    BaseKeysAre(call, elapsedNanos, err);
    BaseLookups(call, elapsedNanos, err);
    LookupAppend(base, rest, "method");
    LookupAppend(base, rest, "grpc_code");
    LookupAppend(base, rest, "latency_ms");
    if call.Stream? {
      LookupAppend(base, rest, "is_client_stream");
      LookupAppend(base, rest, "is_server_stream");
    }
  }

  lemma BaseKeysAre(call: CallInfo, elapsedNanos: nat, err: Option<Err>)
    ensures Keys(BaseFields(call, elapsedNanos, err)) == BaseKeys(call)
  {
  }

  lemma BaseLookups(call: CallInfo, elapsedNanos: nat, err: Option<Err>)
    ensures Lookup(BaseFields(call, elapsedNanos, err), "method") == Some(Str(call.fullMethod))
    ensures Lookup(BaseFields(call, elapsedNanos, err), "grpc_code") == Some(Str(CodeName(CodeOf(err))))
    ensures Lookup(BaseFields(call, elapsedNanos, err), "latency_ms") == Some(Int(Millis(elapsedNanos)))
    ensures call.Stream? ==> Lookup(BaseFields(call, elapsedNanos, err), "is_client_stream") == Some(Bool(call.isClientStream))
    ensures call.Stream? ==> Lookup(BaseFields(call, elapsedNanos, err), "is_server_stream") == Some(Bool(call.isServerStream))
  {
    var base := BaseFields(call, elapsedNanos, err);
    LookupFirst(base, 0, "method");
    LookupFirst(base, 1, "grpc_code");
    LookupFirst(base, 2, "latency_ms");
    if call.Stream? {
      LookupFirst(base, 3, "is_client_stream");
      LookupFirst(base, 4, "is_server_stream");
    }
  }

  lemma BaseLacksOptionalKeys(call: CallInfo, elapsedNanos: nat, err: Option<Err>)
    ensures "trace_id" !in Keys(BaseFields(call, elapsedNanos, err))
    ensures "span_id" !in Keys(BaseFields(call, elapsedNanos, err))
    ensures "error" !in Keys(BaseFields(call, elapsedNanos, err))
  {
    assert Keys(BaseFields(call, elapsedNanos, err)) == BaseKeys(call);
  }

  /** The optional fields: `trace_id` iff the trace id is non-zero, `span_id`
      iff the span id is non-zero, `error` iff the handler's error is non-nil,
      with the error's text. */
  lemma RequestFieldsOptionalPart(call: CallInfo, sc: SpanContext, elapsedNanos: nat, err: Option<Err>)
    ensures Lookup(RequestFields(call, sc, elapsedNanos, err), "trace_id") == if HasTraceId(sc) then Some(Str(TraceIdString(sc))) else None
    ensures Lookup(RequestFields(call, sc, elapsedNanos, err), "span_id") == if HasSpanId(sc) then Some(Str(SpanIdString(sc))) else None
    ensures Lookup(RequestFields(call, sc, elapsedNanos, err), "error") == if err.Some? then Some(Str(ErrorText(err.value))) else None
  {
    var base := BaseFields(call, elapsedNanos, err);
    var t := TraceFields(sc);
    var e := ErrorField(err);
    assert RequestFields(call, sc, elapsedNanos, err) == base + (t + e);
    BaseLacksOptionalKeys(call, elapsedNanos, err);
    TraceFieldsByBytes(sc);
    LookupSkip(base, t + e, "trace_id");
    LookupSkip(base, t + e, "span_id");
    LookupSkip(base, t + e, "error");
    LookupAppend(t, e, "trace_id");
    LookupAppend(t, e, "span_id");
    LookupSkip(t, e, "error");
    LookupFound(e, "trace_id");
    LookupFound(e, "span_id");
  }

  /** The keys of a completed call's record: the fixed keys, then `trace_id`
      iff the trace id is non-zero, `span_id` iff the span id is non-zero,
      and `error` iff the handler's error is non-nil, in that order. */
  lemma RequestKeys(call: CallInfo, sc: SpanContext, elapsedNanos: nat, err: Option<Err>)
    ensures Keys(RequestFields(call, sc, elapsedNanos, err)) == BaseKeys(call) + OptionalKeys(HasTraceId(sc), HasSpanId(sc), err.Some?)
  {
    var base := BaseFields(call, elapsedNanos, err);
    var t := TraceFields(sc);
    var e := ErrorField(err);
    assert RequestFields(call, sc, elapsedNanos, err) == base + t + e;
    assert Keys(base + t + e) == Keys(base) + Keys(t) + Keys(e);
    assert Keys(base) == BaseKeys(call);
    TraceFieldsByBytes(sc);
  }

  /** No key of a completed call's record occurs twice. */
  lemma RequestKeysDistinct(call: CallInfo, sc: SpanContext, elapsedNanos: nat, err: Option<Err>)
    ensures Distinct(Keys(RequestFields(call, sc, elapsedNanos, err)))
  {
    RequestKeys(call, sc, elapsedNanos, err);
    assert Distinct(BaseKeys(call));
    OptionalKeysAfterBase(BaseKeys(call), HasTraceId(sc), HasSpanId(sc), err.Some?);
  }

  // ---------------------------------------------------------------------
  // The recovery interceptors' record and response

  const InternalMessage: string := "Internal server error occurred"

  /** The only error a recovered call returns. */
  const PanicStatus: Err := StatusErr(Internal, InternalMessage)

  /** gRPC metadata as ordered key/value pairs. */
  type Metadata = seq<(string, string)>

  function PanicMessage(call: CallInfo): string {
    if call.Unary? then "Panic recovered in gRPC handler" else "Panic recovered in gRPC stream handler"
  }

  /** The fields of a recovered panic's record: the trace id is logged
      unfiltered, and the stack last. */
  function PanicFields(call: CallInfo, sc: SpanContext, payload: string, stack: string): seq<Field> {
    [Field("error", Str(payload)),
     Field("trace_id", Str(TraceIdString(sc))),
     Field("method", Str(call.fullMethod))]
    + (match call
       case Unary(_) => []
       case Stream(_, c, s) => [Field("is_client_stream", Bool(c)), Field("is_server_stream", Bool(s))])
    + [Field("stack", Str(stack))]
  }

  function PanicEntry(call: CallInfo, sc: SpanContext, payload: string, stack: string): (r: Record)
    ensures r.level == Level.Error
    ensures Lookup(r.fields, "error") == Some(Str(payload))
    ensures Lookup(r.fields, "trace_id") == Some(Str(TraceIdString(sc)))
    ensures Lookup(r.fields, "method") == Some(Str(call.fullMethod))
  {
    var fs := PanicFields(call, sc, payload, stack);
    LookupFirst(fs, 0, "error");
    LookupFirst(fs, 1, "trace_id");
    LookupFirst(fs, 2, "method");
    Record(Level.Error, PanicMessage(call), PanicFields(call, sc, payload, stack))
  }

  /** The stack is the last field of the panic record. */
  lemma PanicEntryStack(call: CallInfo, sc: SpanContext, payload: string, stack: string)
    ensures Lookup(PanicEntry(call, sc, payload, stack).fields, "stack") == Some(Str(stack))
    ensures call.Stream? ==> Lookup(PanicEntry(call, sc, payload, stack).fields, "is_client_stream") == Some(Bool(call.isClientStream))
    ensures call.Stream? ==> Lookup(PanicEntry(call, sc, payload, stack).fields, "is_server_stream") == Some(Bool(call.isServerStream))
  {
    var head := [Field("error", Str(payload)), Field("trace_id", Str(TraceIdString(sc))), Field("method", Str(call.fullMethod))];
    var flags := match call
       case Unary(_) => []
       case Stream(_, c, s) => [Field("is_client_stream", Bool(c)), Field("is_server_stream", Bool(s))];
    var tail := [Field("stack", Str(stack))];
    assert PanicFields(call, sc, payload, stack) == head + (flags + tail);
    LookupAppend(head, flags + tail, "stack");
    LookupAppend(flags, tail, "stack");
    LookupAppend(head, flags + tail, "is_client_stream");
    LookupAppend(flags, tail, "is_client_stream");
    LookupAppend(head, flags + tail, "is_server_stream");
    LookupAppend(flags, tail, "is_server_stream");
  }

  /** The trailer a recovered call sets: `trace_id` only for a non-zero id. */
  function PanicTrailer(sc: SpanContext): (md: Metadata)
    ensures md != [] <==> HasTraceId(sc)
    ensures md != [] ==> md == [("trace_id", TraceIdString(sc))]
  {
    TraceIdFilterAgrees(sc);
    if LoggableTraceId(TraceIdString(sc)) then [("trace_id", TraceIdString(sc))] else []
  }

  // ---------------------------------------------------------------------
  // Chains

  datatype Interceptor = RecoveryInterceptor | ServerInterceptor

  /** `GrpcUnaryInterceptors`: recovery first, logging second. */
  function UnaryInterceptors(): (c: seq<Interceptor>)
    ensures |c| == 2 && c[0] == RecoveryInterceptor && c[1] == ServerInterceptor
  {
    [RecoveryInterceptor, ServerInterceptor]
  }

  /** `GrpcStreamInterceptors`: recovery first, logging second. */
  function StreamInterceptors(): (c: seq<Interceptor>)
    ensures |c| == 2 && c[0] == RecoveryInterceptor && c[1] == ServerInterceptor
  {
    [RecoveryInterceptor, ServerInterceptor]
  }

  /** What a call sees that the handler does not decide: the call's info,
      the span in its context, the measured latency and the stack text. */
  datatype Env = Env(call: CallInfo, span: SpanContext, elapsedNanos: nat, stack: string)

  /** The result of running (part of) a chain: the outcome, the entries
      emitted in order, and the trailer metadata set. */
  datatype Step = Step(out: Outcome, entries: seq<Record>, trailer: Metadata)

  /** One interceptor around the step of everything inside it. A panic
      passes through the logging interceptor, which has no deferred code;
      the recovery interceptor lets no panic out. Each adds at most one
      record after those of the inner step and keeps the inner trailer
      as a prefix. */
  function Intercept(i: Interceptor, env: Env, inner: Step): (r: Step)
    ensures |inner.entries| <= |r.entries| <= |inner.entries| + 1 && r.entries[..|inner.entries|] == inner.entries
    ensures |inner.trailer| <= |r.trailer| && r.trailer[..|inner.trailer|] == inner.trailer
    ensures i == ServerInterceptor ==> r.out == inner.out && r.trailer == inner.trailer
    ensures i == ServerInterceptor ==> (|r.entries| == |inner.entries| + 1 <==> inner.out.Returned?)
    ensures i == RecoveryInterceptor ==> r.out.Returned?
    ensures i == RecoveryInterceptor && inner.out.Returned? ==> r == inner
  {
    match i
    case ServerInterceptor =>
      if inner.out.Panicked? then inner
      else Step(inner.out, inner.entries + [RequestEntry(env.call, env.span, env.elapsedNanos, inner.out.err)], inner.trailer)
    case RecoveryInterceptor =>
      if inner.out.Returned? then inner
      else Step(Returned(None, Some(PanicStatus)),
                inner.entries + [PanicEntry(env.call, env.span, inner.out.payload, env.stack)],
                inner.trailer + PanicTrailer(env.span))
  }

  /** A chain as gRPC runs it: the first interceptor is the outermost. */
  function RunChain(chain: seq<Interceptor>, env: Env, handler: Outcome): (r: Step)
    ensures |r.entries| <= |chain|
    ensures chain != [] && chain[0] == RecoveryInterceptor ==> r.out.Returned?
    ensures RecoveryInterceptor !in chain ==> r.out.Panicked? == handler.Panicked? && r.trailer == []
    decreases |chain|
  {
    if chain == [] then Step(handler, [], [])
    else Intercept(chain[0], env, RunChain(chain[1..], env, handler))
  }

  /** Through the standard chain, a normal result reaches the caller
      unchanged, with the logging interceptor's record as the only entry. */
  lemma ChainPassesResultThrough(env: Env, resp: Option<Response>, err: Option<Err>)
    ensures RunChain(UnaryInterceptors(), env, Returned(resp, err))
            == Step(Returned(resp, err), [RequestEntry(env.call, env.span, env.elapsedNanos, err)], [])
  {
    assert UnaryInterceptors()[1..][1..] == [];
  }

  /** Through the standard chain, a panic becomes an Internal status with a
      nil response; its only record is the recovery record, and the
      trailer carries the trace id when it is non-zero. */
  lemma ChainContainsPanic(env: Env, payload: string)
    ensures RunChain(UnaryInterceptors(), env, Panicked(payload))
            == Step(Returned(None, Some(PanicStatus)), [PanicEntry(env.call, env.span, payload, env.stack)], PanicTrailer(env.span))
  {
    assert UnaryInterceptors()[1..][1..] == [];
  }

  /** The standard chain never lets a panic out. */
  lemma ChainNeverPanics(env: Env, handler: Outcome)
    ensures RunChain(UnaryInterceptors(), env, handler).out.Returned?
  {
    match handler
    case Returned(resp, err) => ChainPassesResultThrough(env, resp, err);
    case Panicked(p) => ChainContainsPanic(env, p);
  }

  /** What the caller receives does not depend on the panic payload. */
  lemma PanicPayloadNotEchoed(env: Env, p1: string, p2: string)
    ensures RunChain(UnaryInterceptors(), env, Panicked(p1)).out == RunChain(UnaryInterceptors(), env, Panicked(p2)).out
    ensures RunChain(UnaryInterceptors(), env, Panicked(p1)).trailer == RunChain(UnaryInterceptors(), env, Panicked(p2)).trailer
  {
    ChainContainsPanic(env, p1);
    ChainContainsPanic(env, p2);
  }

  /** The stream chain likewise: a returned stream's error reaches the
      caller with the logging record as the only entry; a panic becomes the
      Internal status with only the recovery record and the trace-id
      trailer. */
  lemma StreamChainOutcomes(env: Env, o: StreamOutcome)
    requires env.call.Stream?
    ensures o.StreamReturned? ==>
              (RunChain(StreamInterceptors(), env, Lift(o))
               == Step(Returned(None, o.err), [RequestEntry(env.call, env.span, env.elapsedNanos, o.err)], []))
    ensures o.StreamPanicked? ==>
              (RunChain(StreamInterceptors(), env, Lift(o))
               == Step(Returned(None, Some(PanicStatus)), [PanicEntry(env.call, env.span, o.payload, env.stack)], PanicTrailer(env.span)))
  {
    assert StreamInterceptors()[1..][1..] == [];
  }

  /** The order matters: with logging outside recovery, a panic would be
      logged twice, once as recovered and once as an Internal error. */
  lemma ReversedChainLogsPanicTwice(env: Env, payload: string)
    ensures |RunChain([ServerInterceptor, RecoveryInterceptor], env, Panicked(payload)).entries| == 2
    ensures RunChain([ServerInterceptor, RecoveryInterceptor], env, Panicked(payload)).entries[1].level == Level.Error
  {
    var c := [ServerInterceptor, RecoveryInterceptor];
    assert c[1..][1..] == [];
    assert CodeOf(Some(PanicStatus)) == Internal;
  }

  // ---------------------------------------------------------------------
  // The interceptors as the source runs them

  /** Builds a completed call's fields by successive appends. */
  method BuildRequestFields(call: CallInfo, sc: SpanContext, elapsedNanos: nat, err: Option<Err>) returns (fields: seq<Field>)
    ensures fields == RequestFields(call, sc, elapsedNanos, err)
  {
    var code := CodeOf(err);
    fields := [Field("method", Str(call.fullMethod)),
               Field("grpc_code", Str(CodeName(code))),
               Field("latency_ms", Int(Millis(elapsedNanos)))];
    if call.Stream? {
      fields := fields + [Field("is_client_stream", Bool(call.isClientStream)),
                          Field("is_server_stream", Bool(call.isServerStream))];
    }
    var traceId := TraceIdString(sc);
    var spanId := SpanIdString(sc);
    if traceId != "" && traceId != ZeroTraceIdHex {
      fields := fields + [Field("trace_id", Str(traceId))];
    }
    if spanId != "" && spanId != ZeroSpanIdHex {
      fields := fields + [Field("span_id", Str(spanId))];
    }
    if err.Some? {
      fields := fields + [Field("error", Str(ErrorText(err.value)))];
    }
  }

  /** Logs a completed call at the level its code calls for. */
  method LogCompleted(logger: Logger, call: CallInfo, sc: SpanContext, elapsedNanos: nat, err: Option<Err>)
    requires logger.Valid()
    modifies logger
    ensures logger.Valid()
    ensures logger.records == old(logger.records) + Written(logger.settings, [RequestEntry(call, sc, elapsedNanos, err)])
  {
    var code := CodeOf(err);
    var fields := BuildRequestFields(call, sc, elapsedNanos, err);
    ghost var entry := RequestEntry(call, sc, elapsedNanos, err);
    match code
    case OK =>
      var msg := if call.Unary? then "gRPC Request" else "gRPC Stream Request";
      assert entry == Record(Level.Info, msg, fields);
      logger.Info(msg, fields);
    case Canceled | InvalidArgument | NotFound | AlreadyExists | PermissionDenied
      | Unauthenticated | FailedPrecondition | OutOfRange =>
      var msg := if call.Unary? then "gRPC Client Error" else "gRPC Stream Client Error";
      assert entry == Record(Level.Warn, msg, fields);
      logger.Warn(msg, fields);
    case _ =>
      var msg := if call.Unary? then "gRPC Server Error" else "gRPC Stream Server Error";
      assert entry == Record(Level.Error, msg, fields);
      logger.Error(msg, fields);
  }

  /** `GrpcUnaryServerInterceptor`: returns the handler's response and
      error unchanged and logs the completed call; a panic passes through
      without a record. */
  method GrpcUnaryServerInterceptor(logger: Logger, fullMethod: string, sc: SpanContext, elapsedNanos: nat, handler: Outcome)
    returns (out: Outcome)
    requires logger.Valid()
    modifies logger
    ensures logger.Valid()
    ensures out == handler
    ensures handler.Panicked? ==> logger.records == old(logger.records)
    ensures handler.Returned? ==>
      logger.records == old(logger.records) + Written(logger.settings, [RequestEntry(Unary(fullMethod), sc, elapsedNanos, handler.err)])
  {
    if handler.Panicked? {
      return handler;
    }
    LogCompleted(logger, Unary(fullMethod), sc, elapsedNanos, handler.err);
    out := handler;
  }

  /** `GrpcStreamServerInterceptor`: the stream counterpart. */
  method GrpcStreamServerInterceptor(logger: Logger, fullMethod: string, isClientStream: bool, isServerStream: bool,
                                     sc: SpanContext, elapsedNanos: nat, handler: StreamOutcome)
    returns (out: StreamOutcome)
    requires logger.Valid()
    modifies logger
    ensures logger.Valid()
    ensures out == handler
    ensures handler.StreamPanicked? ==> logger.records == old(logger.records)
    ensures handler.StreamReturned? ==>
      logger.records == old(logger.records)
        + Written(logger.settings, [RequestEntry(Stream(fullMethod, isClientStream, isServerStream), sc, elapsedNanos, handler.err)])
  {
    if handler.StreamPanicked? {
      return handler;
    }
    LogCompleted(logger, Stream(fullMethod, isClientStream, isServerStream), sc, elapsedNanos, handler.err);
    out := handler;
  }

  /** `setTrailer`: merges the metadata into the call's trailer and never
      reports an error. */
  method SetTrailer(trailer: Metadata, md: Metadata) returns (merged: Metadata, err: Option<Err>)
    ensures merged == trailer + md
    ensures err == None
  {
    merged := trailer + md;
    err := None;
  }

  /** `GrpcUnaryRecoveryInterceptor`. Without a panic it returns the
      handler's results and logs nothing; after a panic it logs one Error
      record, sets the trace-id trailer for a non-zero trace id, and returns
      a nil response with the fixed Internal status. */
  method GrpcUnaryRecoveryInterceptor(logger: Logger, fullMethod: string, sc: SpanContext, stack: string, handler: Outcome)
    returns (resp: Option<Response>, err: Option<Err>, trailer: Metadata)
    requires logger.Valid()
    modifies logger
    ensures logger.Valid()
    ensures handler.Returned? ==>
      resp == handler.resp && err == handler.err && trailer == [] && logger.records == old(logger.records)
    ensures handler.Panicked? ==>
      resp == None && err == Some(PanicStatus) && trailer == PanicTrailer(sc)
      && logger.records == old(logger.records) + Written(logger.settings, [PanicEntry(Unary(fullMethod), sc, handler.payload, stack)])
  {
    trailer := [];
    match handler
    case Returned(r, e) =>
      resp, err := r, e;
    case Panicked(payload) =>
      var traceId := TraceIdString(sc);
      logger.Error("Panic recovered in gRPC handler", PanicFields(Unary(fullMethod), sc, payload, stack));
      if traceId != "" && traceId != ZeroTraceIdHex {
        var setErr;
        trailer, setErr := SetTrailer(trailer, [("trace_id", traceId)]);
        if setErr.Some? {
          // "failed to set trailer" is never logged: setTrailer returns nil.
          assert false;
        }
      }
      resp, err := None, Some(StatusErr(Internal, InternalMessage));
  }

  /** `GrpcStreamRecoveryInterceptor`: the stream counterpart. */
  method GrpcStreamRecoveryInterceptor(logger: Logger, fullMethod: string, isClientStream: bool, isServerStream: bool,
                                       sc: SpanContext, stack: string, handler: StreamOutcome)
    returns (err: Option<Err>, trailer: Metadata)
    requires logger.Valid()
    modifies logger
    ensures logger.Valid()
    ensures handler.StreamReturned? ==> err == handler.err && trailer == [] && logger.records == old(logger.records)
    ensures handler.StreamPanicked? ==>
      err == Some(PanicStatus) && trailer == PanicTrailer(sc)
      && logger.records == old(logger.records)
        + Written(logger.settings, [PanicEntry(Stream(fullMethod, isClientStream, isServerStream), sc, handler.payload, stack)])
  {
    trailer := [];
    match handler
    case StreamReturned(e) =>
      err := e;
    case StreamPanicked(payload) =>
      var traceId := TraceIdString(sc);
      logger.Error("Panic recovered in gRPC stream handler",
                   PanicFields(Stream(fullMethod, isClientStream, isServerStream), sc, payload, stack));
      if traceId != "" && traceId != ZeroTraceIdHex {
        trailer := trailer + [("trace_id", traceId)];
      }
      err := Some(StatusErr(Internal, InternalMessage));
  }
  /** A unary call through `GrpcUnaryInterceptors` as `ChainUnaryInterceptor`
      runs it: the recovery interceptor around the logging interceptor around
      the handler. The caller's results, the trailer and the records
      written are those `RunChain` gives for the chain. */
  method ChainedUnaryCall(logger: Logger, fullMethod: string, sc: SpanContext, elapsedNanos: nat, stack: string,
                          handler: Outcome)
    returns (resp: Option<Response>, err: Option<Err>, trailer: Metadata)
    requires logger.Valid()
    modifies logger
    ensures logger.Valid()
    ensures var r := RunChain(UnaryInterceptors(), Env(Unary(fullMethod), sc, elapsedNanos, stack), handler);
      && Returned(resp, err) == r.out && trailer == r.trailer
      && logger.records == old(logger.records) + Written(logger.settings, r.entries)
  {
    var inner := GrpcUnaryServerInterceptor(logger, fullMethod, sc, elapsedNanos, handler);
    resp, err, trailer := GrpcUnaryRecoveryInterceptor(logger, fullMethod, sc, stack, inner);
    assert UnaryInterceptors()[1..][1..] == [];
    if handler.Panicked? {
      assert Written(logger.settings, []) == [];
    }
  }

  /** A streaming call through `GrpcStreamInterceptors`, likewise. */
  method ChainedStreamCall(logger: Logger, fullMethod: string, isClientStream: bool, isServerStream: bool,
                           sc: SpanContext, elapsedNanos: nat, stack: string, handler: StreamOutcome)
    returns (err: Option<Err>, trailer: Metadata)
    requires logger.Valid()
    modifies logger
    ensures logger.Valid()
    ensures var r := RunChain(StreamInterceptors(), Env(Stream(fullMethod, isClientStream, isServerStream), sc, elapsedNanos, stack),
                              Lift(handler));
      && Returned(None, err) == r.out && trailer == r.trailer
      && logger.records == old(logger.records) + Written(logger.settings, r.entries)
  {
    var inner := GrpcStreamServerInterceptor(logger, fullMethod, isClientStream, isServerStream, sc, elapsedNanos, handler);
    err, trailer := GrpcStreamRecoveryInterceptor(logger, fullMethod, isClientStream, isServerStream, sc, stack, inner);
    assert StreamInterceptors()[1..][1..] == [];
    if handler.StreamPanicked? {
      assert Written(logger.settings, []) == [];
    }
  }
}
