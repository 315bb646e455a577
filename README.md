# go-observability, modelled in Dafny

A model of the observability package `observability` (module
`ecoma-io/go-observability`). The package gives a Go service three things:
- a zap-backed structured `Logger`;
- gRPC interceptors and Gin middleware that log every request with its
  OpenTelemetry trace context and turn handler panics into a generic error;
- `InitOtel`, which installs an OpenTelemetry tracer provider (OTLP/HTTP
  push), a meter provider read through a Prometheus scrape endpoint, and the
  W3C propagators. It returns a shutdown function.

The model has six modules, one file each:

- `Wrappers` (`wrappers.dfy`): `Option` and `Result`.
- `Logging` (`logging.dfy`), for `logger.go`. It covers:
  - zap's levels, and records as ordered key/value fields;
  - how `NewLogger` resolves level, `service` and `version` from an
    optional configuration (zap's `ParseLevel` is a parameter);
  - zap's level filter;
  - the `service`/`version` context fields on every record;
  - a `Logger` class whose `records` field is the sink, with the helper
    methods.
- `TraceIds` (`traceids.dfy`):
  - trace ids of 16 bytes and span ids of 8 bytes, and their lowercase-hex
    rendering;
  - the two zero tests. The byte test (`HasTraceID`, non-zero per sections
    3.2.2.3 and 3.2.2.4 of W3C Trace Context) and the string test the
    middleware writes (not empty, not all zeros) are proved to agree;
  - the `trace_id`/`span_id` fields both transports append.
- `Grpc` (`grpc.dfy`), for `grpc_interceptor.go`. It covers:
  - status codes and `status.Code`;
  - the severity classification;
  - the ordered field assembly;
  - the recovery record and trailer;
  - the two interceptor chains, run by a pure interpreter in which the first
    interceptor is the outermost;
  - the four interceptors themselves, as methods that append to the
    `Logger`.
- `Gin` (`gin_middleware.go`). It models:
  - the tracing, logger and recovery stages and a pure interpreter `RunGin`
    of a stage list around a route handler. A panic unwinds through the
    stages, and only deferred code runs. `Logger`'s post-`Next` code is not
    deferred. `span.End` and the recover are;
  - a `Context` class for `*gin.Context`. `Serve` and the three stage
    methods (`Tracing`, `Recovery`, `LogRequest`) mutate the `Context`, the
    `Logger` and a span recorder step by step, and are proved to agree,
    state for state, with `RunGin`.
- `Otel` (`otel.go`). `InitOtel` is a method that:
  - returns early at the first failing constructor step (each step's
    failure is an input);
  - sets the process globals held by a `Globals` class.

  The shutdown closure is a method that calls the three teardowns in order,
  with each result an input. It collects the labelled messages step by step
  and joins them. `GetTracer` and `GetMeter` are lookups on the globals.

Inputs that no code here decides are parameters:
- the handler's outcome: its status and private errors, or the panic
  payload. The handler may also replace `c.Request`;
- the elapsed time in nanoseconds;
- the `debug.Stack()` text;
- the span `tracer.Start` returns;
- each external constructor's and teardown's error.

The model follows the code, which is narrower than the package's general
design in these places:
- Metrics are always pull mode, through Prometheus. There is no push or
  hybrid mode.
- The trace exporter is always insecure.
- The route is always `/metrics`, whatever the configured path.
- Shutdown stops the metrics server, then the tracer provider, then the
  meter provider. There is no push reader to stop first and no flush.
- The logging stages filter the trace id and the span id independently.
  They do not require both ids to be valid.
- The recovery records log the trace id unfiltered.
- There is no route-skipping middleware.
- There is no gRPC tracing interceptor.
- When the Prometheus exporter fails, `InitOtel` has already installed the
  tracer provider globally (otel.go:51), and nothing shuts that provider
  down. `GlobalsAfterInit` and `FailedInitLeavesGlobals` state this.

## Model

| member | source | states |
|---|---|---|
| `Logging.ResolveSettings` | logger.go:16-27 | With a nil config: level Info, service and version "unknown". With a config: service and version are copied verbatim, and the level is the parsed `LogLevel` when it parses. A level other than Info only comes from a successful parse. |
| `Logging.Written` | logger.go:29-40 | The sink keeps at most one record per emitted entry. Every kept record is at a level the configured one enables, and starts with the `service` and `version` fields. |
| `Logging.WrittenAppend` | logger.go:33-40 | Emitting two batches in turn writes the records of the first, then those of the second. |
| `Logging.WrittenOne` | logger.go:33-40 | One emitted entry becomes exactly one tagged record when its level is enabled, and no record otherwise. |
| `Logging.EnabledThreshold` | logger.go:33-37 | The level filter is a threshold: a level that is written makes every more severe level written. The configured level and Fatal are always written. When a level above Debug is filtered out, so is Debug. |
| `Logging.DefaultLevelEnables` | logger.go:17 | At the default level Info, every level except Debug is written. |
| `Logging.Logger.constructor` | logger.go:16-43 | `NewLogger` uses the resolved settings and the time key `timestamp`, and starts with an empty sink. |
| `Logging.Logger.Info` | logger.go:46 | Appends exactly what the level filter keeps of one Info entry, with the context tags. |
| `Logging.Logger.Error` | logger.go:47 | Likewise for one Error entry. |
| `Logging.Logger.Debug` | logger.go:48 | Likewise for one Debug entry. |
| `Logging.Logger.Warn` | logger.go:49 | Likewise for one Warn entry. |
| `Logging.Logger.Fatal` | logger.go:50 | Always appends the tagged Fatal record, because no level filters Fatal. |
| `Logging.Logger.Sync` | logger.go:51 | Returns nothing (the flush error is discarded) and changes no record. |
| `TraceIds.HexZeros` | grpc_interceptor.go:29-30 | The hex rendering of an id is all zeros iff every byte of the id is zero. |
| `TraceIds.Hex` | grpc_interceptor.go:29-30 | The rendering has two characters per byte. |
| `TraceIds.HexEncodes` | grpc_interceptor.go:29-30 | Byte `i` is rendered at positions `2i` (high nibble) and `2i+1` (low nibble). |
| `TraceIds.HexIsLower` | grpc_interceptor.go:29-30 | Every character of the rendering is one of `0123456789abcdef`. |
| `TraceIds.TraceIdFilterAgrees` | grpc_interceptor.go:49 | The string test "not empty and not 32 zeros" accepts exactly the trace ids with a non-zero byte. |
| `TraceIds.SpanIdFilterAgrees` | grpc_interceptor.go:52 | The string test "not empty and not 16 zeros" accepts exactly the span ids with a non-zero byte. |
| `TraceIds.NoSpanIsFiltered` | grpc_interceptor.go:27-30 | With no span in the context, neither id passes the filter. |
| `TraceIds.TraceFieldsByBytes` | gin_middleware.go:77-83 | The appended keys are `trace_id` iff the trace id is non-zero, then `span_id` iff the span id is non-zero. Each holds its id's hex. |
| `Grpc.CodeOf` | grpc_interceptor.go:39 | `status.Code`: a nil error gives OK, a non-status error gives Unknown, and a status error gives its code. |
| `Grpc.ErrorText` | grpc_interceptor.go:58 | `err.Error()`: a plain error gives its own text. A status error gives text that starts with "rpc error: code = " and ends with its description. |
| `Grpc.LevelFor` | grpc_interceptor.go:62-71 | OK iff Info. The eight client-fault codes iff Warn. Every other code iff Error. |
| `Grpc.Millis` | grpc_interceptor.go:45 | `latency_ms` is the elapsed time truncated to whole milliseconds. |
| `Grpc.RequestEntry` | grpc_interceptor.go:41-71 | The record's level is that of the error's code. Its message is "gRPC Request" for OK, "gRPC Client Error" for the eight client-fault codes and "gRPC Server Error" otherwise (with "Stream" after "gRPC" for streams). Its keys are the fixed keys, then `trace_id`, `span_id` and `error` as present, none repeated. |
| `Grpc.RequestFieldsFixedPart` | grpc_interceptor.go:42-46 | The record starts with `method`, `grpc_code` and `latency_ms`, then, for streams, `is_client_stream` and `is_server_stream`. Each holds the call's value. |
| `Grpc.RequestFieldsOptionalPart` | grpc_interceptor.go:48-59 | `trace_id` iff the trace id is non-zero. `span_id` iff the span id is non-zero. `error` iff the error is non-nil, holding `err.Error()`. |
| `Grpc.RequestKeys` | grpc_interceptor.go:104-123 | The record's keys are the fixed keys followed by the present optional keys, in the order `trace_id`, `span_id`, `error`. |
| `Grpc.RequestKeysDistinct` | grpc_interceptor.go:42-59 | No key of a completed call's record occurs twice. |
| `Grpc.PanicEntry` | grpc_interceptor.go:159-165 | A panic's record is at Error level, with the payload as `error`, the unfiltered `trace_id` and the `method`. |
| `Grpc.PanicEntryStack` | grpc_interceptor.go:212-220 | The panic record also holds `stack` and, for streams, both stream flags. |
| `Grpc.PanicTrailer` | grpc_interceptor.go:167-173 | The recovery sets the trailer iff the trace id is non-zero, and then sets exactly `trace_id` to the id's hex. |
| `Grpc.UnaryInterceptors` | grpc_interceptor.go:239-244 | Exactly two interceptors: recovery, then logging. |
| `Grpc.StreamInterceptors` | grpc_interceptor.go:248-253 | Exactly two interceptors: recovery, then logging. |
| `Grpc.Intercept` | grpc_interceptor.go:17-182 | One interceptor around the inner result. The logging interceptor: <br>- never changes the outcome or the trailer; <br>- adds one record iff the inner call returned. <br>The recovery interceptor: <br>- always returns; <br>- is the identity when the inner call returned. <br>Neither drops an inner record or trailer entry, and each adds at most one record. |
| `Grpc.RunChain` | grpc_interceptor.go:237-253 | A chain, first interceptor outermost, gives at most one record per interceptor. With recovery first, no panic escapes. Without recovery, a panic escapes iff the handler panicked, and no trailer is set. |
| `Grpc.ChainedUnaryCall` | grpc_interceptor.go:239-244 | Running the recovery method around the logging method around the handler gives the caller `RunChain`'s results and trailer for `UnaryInterceptors`. The logger gets what the filter keeps of `RunChain`'s records. |
| `Grpc.ChainedStreamCall` | grpc_interceptor.go:248-253 | The same for `StreamInterceptors` and a streaming handler. |
| `Grpc.ChainPassesResultThrough` | grpc_interceptor.go:180 | Through the unary chain, a returned response and error reach the caller unchanged. The only record is the logging interceptor's, and no trailer is set. |
| `Grpc.ChainContainsPanic` | grpc_interceptor.go:149-177 | Through the unary chain, a panic gives a nil response and Internal "Internal server error occurred". The only record is the recovery record; the logging interceptor writes none. The trailer is the trace-id trailer. |
| `Grpc.ChainNeverPanics` | grpc_interceptor.go:149-180 | The unary chain always returns; no panic escapes it. |
| `Grpc.PanicPayloadNotEchoed` | grpc_interceptor.go:175-176 | The caller's response, status and trailer are the same whatever the panic payload. |
| `Grpc.StreamChainOutcomes` | grpc_interceptor.go:248-253 | Through the stream chain, a returned error reaches the caller unchanged, with only the logging record. A panic becomes Internal "Internal server error occurred" with only the recovery record and the trace-id trailer. |
| `Grpc.ReversedChainLogsPanicTwice` | grpc_interceptor.go:237-244 | Why the order matters: with logging outside recovery, a panic would give two records, the second an Error for the Internal status. |
| `Grpc.BuildRequestFields` | grpc_interceptor.go:41-59 | The successive appends build exactly the record fields described above. |
| `Grpc.LogCompleted` | grpc_interceptor.go:61-71 | The code's `switch` writes exactly the completed call's record, through the helper of its level. |
| `Grpc.GrpcUnaryServerInterceptor` | grpc_interceptor.go:17-75 | Returns the handler's outcome unchanged. A returned call appends its one record, as the level filter keeps it. A panic passes through and writes nothing. |
| `Grpc.GrpcStreamServerInterceptor` | grpc_interceptor.go:78-139 | The same for streams, with the stream flags and the stream messages. |
| `Grpc.SetTrailer` | grpc_interceptor.go:185-190 | Merges the metadata into the trailer and always returns a nil error. |
| `Grpc.GrpcUnaryRecoveryInterceptor` | grpc_interceptor.go:142-182 | Without a panic, returns the handler's results with no record and no trailer. After a panic: one Error record, the trace-id trailer for a non-zero id, and a nil response with the fixed Internal status. "failed to set trailer" is never logged. |
| `Grpc.GrpcStreamRecoveryInterceptor` | grpc_interceptor.go:193-235 | The same for streams. |
| `Gin.GinMiddleware` | gin_middleware.go:155-161 | Exactly three stages: tracing, recovery, logger. |
| `Gin.TracingHeader` | gin_middleware.go:33-37 | `X-Trace-ID` is set, to the trace id's hex, iff the span has a trace id. Other headers are kept. |
| `Gin.HttpLevel` | gin_middleware.go:90-98 | Error iff status ≥ 500. Warn iff 400 ≤ status < 500. Info iff status < 400. |
| `Gin.LoggerEntry` | gin_middleware.go:66-98 | The request record's level is that of its final status. Its message is "HTTP Server Error" for status ≥ 500, "HTTP Client Error" for 400-499 and "HTTP Request" below 400. Its keys are the seven fixed keys, then `trace_id`, `span_id` and `error` as present, none repeated. |
| `Gin.LoggerKeys` | gin_middleware.go:67-88 | Keys in order: `status`, `method`, `path`, `query`, `ip`, `latency_ms`, `user_agent`. Then `trace_id` and `span_id`, each iff that id of the span found before `c.Next` is non-zero. Then `error` iff there are private errors. |
| `Gin.LoggerKeysDistinct` | gin_middleware.go:66-88 | No key of a request record occurs twice. |
| `Gin.LoggerFieldsFixedPart` | gin_middleware.go:46-75 | `path` and `query` are those read before `c.Next`. `status`, `method`, `ip` and `user_agent` are read after it. `latency_ms` is truncated. |
| `Gin.LoggerFieldsOptionalPart` | gin_middleware.go:50-88 | `trace_id`/`span_id` hold the pre-`Next` span's ids, each only when non-zero. `error` holds the private-error text, only when non-empty. |
| `Gin.BuildLoggerFields` | gin_middleware.go:59-88 | The successive appends build exactly the request record's fields. |
| `Gin.NewErrorResponse` | gin_middleware.go:132-142 | `error` is "Internal Server Error", with the fixed message and the request path. The trace id is set only when it is non-empty and non-zero. |
| `Gin.JsonMembers` | gin_middleware.go:102-108 | `error` and `message` always come first. `trace_id` and `path` are members iff non-empty (`omitempty`). |
| `Gin.EnterTracing` | gin_middleware.go:30-37 | After the tracing stage's set-up, the request holds the started span and is otherwise unchanged. The header gets `X-Trace-ID` as `TracingHeader` says. Status, body, abort flag and errors are untouched. |
| `Gin.TracingStep` | gin_middleware.go:24-39 | The tracing stage keeps the rest's state, panic and records. It surrounds the rest's span events with the start of a server span named "METHOD path" and that span's end. |
| `Gin.RecoveryStep` | gin_middleware.go:113-149 | The recovery stage never lets a panic out and adds no span event. Without a panic it changes nothing. After a panic: <br>- status 500 and aborted; <br>- request and headers kept; <br>- the rest's records followed by one Error record. |
| `Gin.LoggerStep` | gin_middleware.go:56-98 | The logger stage keeps state, panic and span events. After a panic it adds no record. Otherwise it appends one record at the final status's level. |
| `Gin.RunGin` | gin_middleware.go:153-161 | A stage list gives at most one record per stage and two span events per tracing stage. With recovery first, no panic escapes. |
| `Gin.RecoveryEntry` | gin_middleware.go:123-130 | The panic record is at Error level, with the payload, the unfiltered `trace_id`, `path`, `method` and `stack`. |
| `Gin.SpansAlwaysEnded` | gin_middleware.go:24-28 | Every tracing stage in any stage list starts one span and ends it, whether the rest returns or panics. |
| `Gin.RequestLineKept` | gin_middleware.go:31 | The request a chain ends with is the handler's replacement, if the handler made one, or else the request the handler received. When the handler keeps its request, the final request differs from the one the chain started with only in its span: method, path, query, address and user agent are kept. |
| `Gin.HandlerRequest` | gin_middleware.go:31 | The request the route handler receives differs from the initial one only in the span its context holds. |
| `Gin.LoggerReadsLineAroundNext` | gin_middleware.go:46-74 | When the handler replaces the request, the record's `path` and `query` come from the request before `c.Next`. Its `method`, `ip` and `user_agent` come from the replacement. |
| `Gin.MiddlewareNormalRequest` | gin_middleware.go:155-161 | A normal request through `GinMiddleware`: <br>- the handler's status and body reach the client, with no abort; <br>- `X-Trace-ID` is set iff there is a trace id; <br>- one server span named "METHOD path" is started and ended; <br>- the only record is the logger's, at the status's level. |
| `Gin.MiddlewarePanickingRequest` | gin_middleware.go:110-151 | A panicking handler through `GinMiddleware`: <br>- the response is 500, aborted, with the error body for the request path; <br>- the only record is the recovery record, because the logger's post-`Next` code never runs; <br>- the span is still ended. |
| `Gin.PanicPayloadNotEchoed` | gin_middleware.go:132-145 | The context after recovery (status, headers and body) is the same whatever the panic payload. |
| `Gin.ErrorBodyShape` | gin_middleware.go:139-142 | The error body's trace id is non-empty iff the span has a trace id. It then appears in the JSON. |
| `Gin.RecoveryTransparentWithoutPanic` | gin_middleware.go:149 | Recovery around a chain that does not panic changes nothing. |
| `Gin.LoggerIgnoresHandlerSpan` | gin_middleware.go:50-57 | The logger logs the ids it found before `c.Next`. A span the handler stores in the request is not logged. |
| `Gin.Serve` | gin_middleware.go:153-161 | Running the stages on the context leaves the context, the panic, the appended records and the span events exactly as `RunGin` gives them. |
| `Gin.Tracing` | gin_middleware.go:16-41 | The tracing stage, step by step, agrees with `RunGin`: start the span, replace the request's span, set the header, run the rest, end the span. |
| `Gin.Recovery` | gin_middleware.go:111-151 | The recovery stage, step by step, agrees with `RunGin`: log, build the body, abort with 500, and end the panic. |
| `Gin.LogRequest` | gin_middleware.go:44-100 | The logger stage, step by step, agrees with `RunGin`. It reads path, query and span first, and logs after the rest returns, through the helper of its level. |
| `Gin.Context.StoreSpan` | gin_middleware.go:30-37 | `c.Request.WithContext` and the `X-Trace-ID` header: the request's span is replaced and the header set as `TracingHeader` says. Nothing else in the context changes. |
| `Gin.RecoverPanic` | gin_middleware.go:113-146 | The deferred recover of a caught panic leaves the context `Recovered`. It appends only what the filter keeps of the recovery record for the request as it is then. |
| `Gin.LogCompletedRequest` | gin_middleware.go:59-98 | The logger's code after `c.Next` appends only what the filter keeps of `LoggerEntry`, built from the request it read before and the context as it is after. |
| `Otel.DecimalRoundTrip` | otel.go:70 | `%d` of the port reads back to the same integer. |
| `Otel.MetricsAddr` | otel.go:70 | The address starts with `0.0.0.0:`. |
| `Otel.MetricsAddrNamesPort` | otel.go:70 | The text after `0.0.0.0:` reads back to the configured port. |
| `Otel.MetricsAddrInjective` | otel.go:69-72 | Different ports give different addresses. |
| `Otel.ResourceFor` | otel.go:27-32 | The resource carries the configured service name and version. |
| `Otel.TracerProviderFor` | otel.go:38-50 | The sampler ratio is passed through unchanged. The batch exporter goes to the configured endpoint and is always insecure. The provider uses the resource. |
| `Otel.MeterProviderFor` | otel.go:59-62 | The same resource, with the Prometheus reader. |
| `Otel.MetricsServerFor` | otel.go:66-72 | The only route is `/metrics`. The address reads back to the configured port. |
| `Otel.InitResult` | otel.go:23-57 | Success iff no step fails. The first failing step decides the error: "failed to create resource: ", "failed to create trace exporter: " or "failed to create prometheus exporter: ", followed by the step's error. On success, the handle holds the server and both providers. |
| `Otel.InitIgnoresUnreadConfig` | otel.go:23-85 | The result does not depend on metrics mode, path or any push setting. |
| `Otel.GlobalsAfterInit` | otel.go:46-85 | The tracer provider is installed iff the resource and exporter steps succeed. When init fails, the meter provider, propagator and listener stay as they were. When it succeeds, they are the built meter provider, [TraceContext, Baggage] and the started metrics server. |
| `Otel.FailedInitLeavesGlobals` | otel.go:46-57 | A failed init leaves the meter provider, propagator and listener unchanged. The tracer provider changes only when the failure comes after the exporter step. |
| `Otel.SuccessfulInitInstallsHandle` | otel.go:51-85 | After success, the globals are the handle's providers, the started listener and the propagator [TraceContext, Baggage]. |
| `Otel.Globals.InitOtel` | otel.go:23-111 | The step-by-step init returns `InitResult` and leaves the globals as `GlobalsAfterInit` describes. |
| `Otel.Globals.GetTracer` | otel.go:114-116 | A tracer with the given name, from the current global provider. |
| `Otel.Globals.GetMeter` | otel.go:119-121 | A meter with the given name, from the current global provider. |
| `Otel.AccessorsAfterInit` | otel.go:113-121 | After a successful init, `GetTracer` and `GetMeter` hand out instruments of the providers it built. |
| `Otel.ShutdownMessages` | otel.go:91-104 | The failure messages are those of the server, tracer-provider and meter-provider teardowns, in that order. |
| `Otel.ShutdownMessagesInOrder` | otel.go:91-104 | One message per failed step, each with its component's label, in teardown order. A failure never hides a later one. |
| `Otel.ShutdownError` | otel.go:106-109 | Nil iff no teardown failed. |
| `Otel.JoinElement` | otel.go:107 | In the joined text, each element sits at its offset, preceded by `; ` unless it is first. The offsets grow with the index. |
| `Otel.Join` | otel.go:107 | `strings.Join`: no elements give the empty text, and one element gives itself. |
| `Otel.JoinLength` | otel.go:107 | The joined text ends where its last element ends. |
| `Otel.ShutdownErrorHoldsMessages` | otel.go:107 | The combined error starts with "otel shutdown failures: ", holds each failed step's message at its place, in order, and ends with the last message. |
| `Otel.TeardownsOf` | otel.go:91-104 | The closure's teardowns stop the handle's metrics server, tracer provider and meter provider, in that order. |
| `Otel.ShutdownStopsWhatInitBuilt` | otel.go:46-104 | After a successful init, the closure stops the very server and providers that init installed. |
| `Otel.Shutdown` | otel.go:88-110 | Calls the three teardowns on the captured objects, in order, whatever fails, and returns `ShutdownError`. |

## Left out

- Caller annotations, error-level stack traces and the ISO-8601 time
  encoding (logger.go:29-39): these are zap's encoder and core options. The
  model keeps only the time key's name.
- JSON encoding of records and of the Gin error body. Records have ordered
  fields, and `JsonMembers` gives the error body's members.
- `Logging.Logger.Fatal`: does not model the process exit after the
  record, which happens in zap.
- `Logging.Logger.Sync`: does not model the flush itself (an I/O effect)
  or its outcome; the method only states that the error is discarded.
- zap's `ParseLevel` is a parameter: the model does not list the level
  names it accepts.
- `fmt.Sprintf("%v", r)` of the panic value: the payload is its printed
  text.
- Header extraction by the propagator, span creation and sampling in the
  OpenTelemetry SDK: the span `tracer.Start` returns is an input.
- The batch span processor, the OTLP exporter, the Prometheus exporter and
  handler, and the wrapping of errors with `%w`: the model keeps only the
  wrapped error's text.
- The float sample ratio is passed through as a `real`, with no numeric
  reasoning.
- The metrics server's goroutine and its printed error (otel.go:75-79):
  concurrency and standard output. The model records the listener as
  started.
- Gin internals: `c.ClientIP()` and `c.Errors.String()` are given values.
  The model also leaves out:
  - the `Content-Type` header `AbortWithStatusJSON` sets;
  - what happens when headers were already written;
  - handlers after an abort.
- The clock and `debug.Stack()`: the elapsed nanoseconds and the stack
  text are inputs. The model does not compute that the two stacks differ.
- Configuration loading (`LoadCfg`, `BaseConfig` validation and defaults):
  config.go is not part of this model. `BaseConfig` holds only the fields as
  given.
- `examples/*/main.go`: process main programs with servers, sleeps and
  randomness.
- Concurrency: the model runs one request at a time against the shared
  logger.
- Status codes outside the seventeen named ones (`codes.Code(42)`, which
  `String` prints as "Code(42)") and status errors wrapped in another error
  (`status.Code` unwraps them) are not representable. An error is either a
  status error with a named code or a plain error, which gives Unknown.
- `grpc.ChainUnaryInterceptor` and `grpc.ChainStreamInterceptor` are
  grpc-go's. The model runs the chain as nested calls, first interceptor
  outermost.
