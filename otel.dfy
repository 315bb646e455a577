/** Telemetry bootstrap: `InitOtel` builds the resource, the trace
    exporter and tracer provider, the Prometheus reader and meter provider,
    the metrics server and the propagator, installing the providers and the
    propagator as process globals; the shutdown it returns tears the
    server and both providers down in a fixed order and folds the failures
    into one error. Each external constructor's and teardown's failure is
    an input. */
module Otel {
  import opened Wrappers

  /** The sample ratio is passed through unchanged and never computed with. */
  type Ratio = real

  /** The configuration fields, named after `BaseConfig`'s; `InitOtel`
      reads only the first five. `metricsInsecure` stands for the push
      connection's insecure flag. */
  datatype BaseConfig = BaseConfig(
    serviceName: string, version: string, otelEndpoint: string,
    otelTracingSampleRate: Ratio, metricsPort: int,
    metricsMode: string, metricsPath: string, metricsPushEndpoint: string,
    metricsPushInterval: int, metricsProtocol: string, metricsInsecure: bool)

  datatype Resource = Resource(serviceName: string, serviceVersion: string)
  datatype TraceExporter = OtlpHttpExporter(endpoint: string, insecure: bool)
  datatype Sampler = TraceIdRatioBased(ratio: Ratio)
  datatype TracerProvider = TracerProvider(sampler: Sampler, resource: Resource, batchExporter: TraceExporter)
  datatype MetricReader = PrometheusReader
  datatype MeterProvider = MeterProvider(resource: Resource, reader: MetricReader)
  datatype MetricsServer = MetricsServer(addr: string, routes: seq<string>)
  datatype Propagator = TraceContext | Baggage

  /** A global provider: the OpenTelemetry default until one is installed. */
  datatype TracerProviderRef = DefaultTracerProvider | InstalledTracerProvider(tp: TracerProvider)
  datatype MeterProviderRef = DefaultMeterProvider | InstalledMeterProvider(mp: MeterProvider)

  /** What each external constructor returned: `Some(text)` is an error. */
  datatype InitSteps = InitSteps(resourceErr: Option<string>, exporterErr: Option<string>, prometheusErr: Option<string>)

  const ResourcePrefix: string := "failed to create resource: "
  const ExporterPrefix: string := "failed to create trace exporter: "
  const PrometheusPrefix: string := "failed to create prometheus exporter: "
  const MetricsRoute: string := "/metrics"
  const ListenHost: string := "0.0.0.0:"

  // ---------------------------------------------------------------------
  // Formatting the port with `%d`

  function DigitChar(d: nat): char
    requires d < 10
  {
    "0123456789"[d]
  }

  function DigitValue(c: char): int {
    c as int - '0' as int
  }

  function Digits(n: nat): (s: string)
    ensures |s| >= 1
    ensures forall i :: 0 <= i < |s| ==> '0' <= s[i] <= '9'
    decreases n
  {
    if n < 10 then [DigitChar(n)] else Digits(n / 10) + [DigitChar(n % 10)]
  }

  /** `%d` of an `int`. */
  function Decimal(n: int): string {
    if n < 0 then "-" + Digits(-n) else Digits(n)
  }

  ghost predicate AllDigits(s: string) {
    forall i :: 0 <= i < |s| ==> '0' <= s[i] <= '9'
  }

  function ValueOf(s: string): int
    decreases |s|
  {
    if s == [] then 0 else ValueOf(s[..|s| - 1]) * 10 + DigitValue(s[|s| - 1])
  }

  /** Reads back a decimal produced by `Decimal`. */
  function ParseDecimal(s: string): Option<int> {
    if s == [] then None
    else if s[0] == '-' then (if |s| > 1 then Some(-ValueOf(s[1..])) else None)
    else Some(ValueOf(s))
  }

  lemma {:induction false} DigitsValue(n: nat)
    ensures ValueOf(Digits(n)) == n
    decreases n
  {
    if n >= 10 {
      var s := Digits(n);
      assert s[..|s| - 1] == Digits(n / 10);
      DigitsValue(n / 10);
    } else {
      assert Digits(n) == [DigitChar(n)];
      assert Digits(n)[..0] == [];
    }
  }

  lemma DigitsRoundTrip(m: nat)
    ensures ParseDecimal(Digits(m)) == Some(m)
  {
    var d := Digits(m);
    assert '0' <= d[0] <= '9';
    DigitsValue(m);
  }

  lemma NegativeRoundTrip(m: nat)
    ensures ParseDecimal("-" + Digits(m)) == Some(-(m as int))
  {
    var d := Digits(m);
    var s := "-" + d;
    assert s[0] == '-' && |s| > 1;
    assert s[1..] == d;
    DigitsValue(m);
  }

  /** `%d` loses nothing: the number is read back from its text. */
  lemma DecimalRoundTrip(n: int)
    ensures ParseDecimal(Decimal(n)) == Some(n)
  {
    if n < 0 {
      var m: nat := -n;
      assert Decimal(n) == "-" + Digits(m);
      NegativeRoundTrip(m);
    } else {
      var m: nat := n;
      assert Decimal(n) == Digits(m);
      DigitsRoundTrip(m);
    }
  }

  /** The listener's address, `"0.0.0.0:%d"`. */
  function MetricsAddr(port: int): (a: string)
    ensures |a| > |ListenHost| && a[..|ListenHost|] == ListenHost
  {
    ListenHost + Decimal(port)
  }

  /** Different ports give different addresses: the address names the port. */
  lemma MetricsAddrNamesPort(port: int)
    ensures ParseDecimal(MetricsAddr(port)[|ListenHost|..]) == Some(port)
  {
    assert MetricsAddr(port)[|ListenHost|..] == Decimal(port);
    DecimalRoundTrip(port);
  }

  lemma MetricsAddrInjective(p: int, q: int)
    requires MetricsAddr(p) == MetricsAddr(q)
    ensures p == q
  {
    MetricsAddrNamesPort(p);
    MetricsAddrNamesPort(q);
  }

  // ---------------------------------------------------------------------
  // What InitOtel builds

  function ResourceFor(cfg: BaseConfig): (r: Resource)
    ensures r.serviceName == cfg.serviceName && r.serviceVersion == cfg.version
  {
    Resource(cfg.serviceName, cfg.version)
  }

  /** The tracer provider: the configured ratio unchanged, the resource, and
      a batching OTLP/HTTP exporter to the configured endpoint, always
      without TLS. */
  function TracerProviderFor(cfg: BaseConfig): (tp: TracerProvider)
    ensures tp.sampler == TraceIdRatioBased(cfg.otelTracingSampleRate)
    ensures tp.batchExporter.endpoint == cfg.otelEndpoint && tp.batchExporter.insecure
    ensures tp.resource == ResourceFor(cfg)
  {
    TracerProvider(TraceIdRatioBased(cfg.otelTracingSampleRate), ResourceFor(cfg), OtlpHttpExporter(cfg.otelEndpoint, true))
  }

  /** The meter provider: the same resource and a Prometheus pull reader. */
  function MeterProviderFor(cfg: BaseConfig): (mp: MeterProvider)
    ensures mp.resource == ResourceFor(cfg) && mp.reader == PrometheusReader
  {
    MeterProvider(ResourceFor(cfg), PrometheusReader)
  }

  /** The metrics server: all interfaces on the configured port and only
      the `/metrics` route, whatever the configured path or mode. */
  function MetricsServerFor(cfg: BaseConfig): (s: MetricsServer)
    ensures s.routes == [MetricsRoute]
    ensures |s.addr| > |ListenHost|
    ensures ParseDecimal(s.addr[|ListenHost|..]) == Some(cfg.metricsPort)
  {
    MetricsAddrNamesPort(cfg.metricsPort);
    MetricsServer(MetricsAddr(cfg.metricsPort), [MetricsRoute])
  }

  /** The global propagator: W3C Trace Context, then W3C Baggage. */
  const CompositePropagator: seq<Propagator> := [TraceContext, Baggage]

  /** What the shutdown closure captures. */
  datatype ShutdownHandle = ShutdownHandle(server: MetricsServer, tp: TracerProvider, mp: MeterProvider)

  /** `InitOtel`'s result: the shutdown handle, or the first failing step's
      error wrapped with that step's prefix. */
  function InitResult(cfg: BaseConfig, steps: InitSteps): (r: Result<ShutdownHandle>)
    ensures r.Success? <==> steps.resourceErr.None? && steps.exporterErr.None? && steps.prometheusErr.None?
    ensures steps.resourceErr.Some? ==> r == Failure(ResourcePrefix + steps.resourceErr.value)
    ensures steps.resourceErr.None? && steps.exporterErr.Some? ==> r == Failure(ExporterPrefix + steps.exporterErr.value)
    ensures steps.resourceErr.None? && steps.exporterErr.None? && steps.prometheusErr.Some?
            ==> r == Failure(PrometheusPrefix + steps.prometheusErr.value)
    ensures r.Success? ==> r.value == ShutdownHandle(MetricsServerFor(cfg), TracerProviderFor(cfg), MeterProviderFor(cfg))
  {
    if steps.resourceErr.Some? then Failure(ResourcePrefix + steps.resourceErr.value)
    else if steps.exporterErr.Some? then Failure(ExporterPrefix + steps.exporterErr.value)
    else if steps.prometheusErr.Some? then Failure(PrometheusPrefix + steps.prometheusErr.value)
    else Success(ShutdownHandle(MetricsServerFor(cfg), TracerProviderFor(cfg), MeterProviderFor(cfg)))
  }

  /** Only the service name, version, endpoint, ratio and port matter:
      mode, path and the push settings are never read. */
  lemma InitIgnoresUnreadConfig(cfg1: BaseConfig, cfg2: BaseConfig, steps: InitSteps)
    requires cfg1.serviceName == cfg2.serviceName && cfg1.version == cfg2.version
    requires cfg1.otelEndpoint == cfg2.otelEndpoint && cfg1.otelTracingSampleRate == cfg2.otelTracingSampleRate
    requires cfg1.metricsPort == cfg2.metricsPort
    ensures InitResult(cfg1, steps) == InitResult(cfg2, steps)
  {
  }

  /** The process globals `InitOtel` touches, with the listener it starts. */
  datatype GlobalState = GlobalState(
    tracerProvider: TracerProviderRef, meterProvider: MeterProviderRef,
    propagator: seq<Propagator>, listening: Option<MetricsServer>)

  /** The globals after `InitOtel`: the tracer provider is installed as
      soon as the exporter exists, so a failing Prometheus step leaves it
      installed (and with no shutdown to release it); the rest is set only
      on success. */
  function GlobalsAfterInit(cfg: BaseConfig, steps: InitSteps, g: GlobalState): (r: GlobalState)
    ensures r.tracerProvider
            == if steps.resourceErr.None? && steps.exporterErr.None? then InstalledTracerProvider(TracerProviderFor(cfg)) else g.tracerProvider
    ensures InitResult(cfg, steps).Failure? ==>
              r.meterProvider == g.meterProvider && r.propagator == g.propagator && r.listening == g.listening
    ensures InitResult(cfg, steps).Success? ==>
              && r.meterProvider == InstalledMeterProvider(MeterProviderFor(cfg))
              && r.propagator == CompositePropagator && r.listening == Some(MetricsServerFor(cfg))
  {
    if steps.resourceErr.Some? || steps.exporterErr.Some? then g
    else if steps.prometheusErr.Some? then g.(tracerProvider := InstalledTracerProvider(TracerProviderFor(cfg)))
    else GlobalState(InstalledTracerProvider(TracerProviderFor(cfg)), InstalledMeterProvider(MeterProviderFor(cfg)),
                     CompositePropagator, Some(MetricsServerFor(cfg)))
  }

  /** A failure leaves meter provider, propagator and listener untouched;
      only a failure after the exporter step changes the tracer provider. */
  lemma FailedInitLeavesGlobals(cfg: BaseConfig, steps: InitSteps, g: GlobalState)
    requires InitResult(cfg, steps).Failure?
    ensures var h := GlobalsAfterInit(cfg, steps, g);
      && h.meterProvider == g.meterProvider && h.propagator == g.propagator && h.listening == g.listening
      && (h.tracerProvider != g.tracerProvider ==> steps.resourceErr.None? && steps.exporterErr.None?)
  {
  }

  /** After a successful init the globals are exactly the handle's. */
  lemma SuccessfulInitInstallsHandle(cfg: BaseConfig, steps: InitSteps, g: GlobalState)
    requires InitResult(cfg, steps).Success?
    ensures var h := GlobalsAfterInit(cfg, steps, g); var sh := InitResult(cfg, steps).value;
      && h.tracerProvider == InstalledTracerProvider(sh.tp) && h.meterProvider == InstalledMeterProvider(sh.mp)
      && h.listening == Some(sh.server) && h.propagator == [TraceContext, Baggage]
  {
  }

  /** A tracer or meter handed out by the global provider. */
  datatype Tracer = Tracer(provider: TracerProviderRef, name: string)
  datatype Meter = Meter(provider: MeterProviderRef, name: string)

  /** The process globals as `InitOtel` changes them. */
  class Globals {
    var tracerProvider: TracerProviderRef
    var meterProvider: MeterProviderRef
    var propagator: seq<Propagator>
    var listening: Option<MetricsServer>

    function State(): GlobalState
      reads this
    {
      GlobalState(tracerProvider, meterProvider, propagator, listening)
    }

    /** A process before any telemetry is set up. */
    constructor ()
      ensures State() == GlobalState(DefaultTracerProvider, DefaultMeterProvider, [], None)
    {
      tracerProvider, meterProvider, propagator, listening := DefaultTracerProvider, DefaultMeterProvider, [], None;
    }

    /** `GetTracer`: a tracer of the given name from the current global
        provider (the default one before `InitOtel`; never nil). */
    function GetTracer(name: string): (t: Tracer)
      reads this
      ensures t.name == name && t.provider == tracerProvider
    {
      Tracer(tracerProvider, name)
    }

    /** `GetMeter`: a meter of the given name from the current global provider. */
    function GetMeter(name: string): (m: Meter)
      reads this
      ensures m.name == name && m.provider == meterProvider
    {
      Meter(meterProvider, name)
    }

    /** `InitOtel`, step by step with early returns. */
    method InitOtel(cfg: BaseConfig, steps: InitSteps) returns (r: Result<ShutdownHandle>)
      modifies this
      ensures r == InitResult(cfg, steps)
      ensures State() == GlobalsAfterInit(cfg, steps, old(State()))
    {
      if steps.resourceErr.Some? {
        return Failure(ResourcePrefix + steps.resourceErr.value);
      }
      var res := Resource(cfg.serviceName, cfg.version);
      if steps.exporterErr.Some? {
        return Failure(ExporterPrefix + steps.exporterErr.value);
      }
      var exporter := OtlpHttpExporter(cfg.otelEndpoint, true);
      var tp := TracerProvider(TraceIdRatioBased(cfg.otelTracingSampleRate), res, exporter);
      tracerProvider := InstalledTracerProvider(tp);
      if steps.prometheusErr.Some? {
        return Failure(PrometheusPrefix + steps.prometheusErr.value);
      }
      var mp := MeterProvider(res, PrometheusReader);
      meterProvider := InstalledMeterProvider(mp);
      var server := MetricsServer(ListenHost + Decimal(cfg.metricsPort), [MetricsRoute]);
      listening := Some(server);
      propagator := [TraceContext, Baggage];
      r := Success(ShutdownHandle(server, tp, mp));
    }
  }

  /** After a successful `InitOtel`, every tracer and meter comes from the
      providers it built. */
  lemma AccessorsAfterInit(cfg: BaseConfig, steps: InitSteps, before: GlobalState, g: Globals, name: string)
    requires InitResult(cfg, steps).Success?
    requires g.State() == GlobalsAfterInit(cfg, steps, before)
    ensures g.GetTracer(name) == Tracer(InstalledTracerProvider(TracerProviderFor(cfg)), name)
    ensures g.GetMeter(name) == Meter(InstalledMeterProvider(MeterProviderFor(cfg)), name)
  {
  }

  // ---------------------------------------------------------------------
  // Shutdown

  datatype Component = MetricsServerComponent | TracerProviderComponent | MeterProviderComponent

  /** What each teardown returned: `Some(text)` is an error. */
  datatype ShutdownResults = ShutdownResults(serverErr: Option<string>, tpErr: Option<string>, mpErr: Option<string>)

  const ShutdownPrefix: string := "otel shutdown failures: "
  const Separator: string := "; "

  function Label(c: Component): string {
    match c
    case MetricsServerComponent => "metrics server shutdown error: "
    case TracerProviderComponent => "tracer provider shutdown error: "
    case MeterProviderComponent => "meter provider shutdown error: "
  }

  /** The teardown order. */
  const ShutdownOrder: seq<Component> := [MetricsServerComponent, TracerProviderComponent, MeterProviderComponent]

  function ResultOf(rs: ShutdownResults, c: Component): Option<string> {
    match c
    case MetricsServerComponent => rs.serverErr
    case TracerProviderComponent => rs.tpErr
    case MeterProviderComponent => rs.mpErr
  }

  /** The labelled message of every failed step, in the order given. */
  function Messages(order: seq<Component>, rs: ShutdownResults): (ms: seq<string>)
    ensures |ms| <= |order|
  {
    if order == [] then [] else StepMessage(order[0], rs) + Messages(order[1..], rs)
  }

  /** A step's labelled message, if it failed. */
  function StepMessage(c: Component, rs: ShutdownResults): (m: seq<string>)
    ensures |m| == (if ResultOf(rs, c).Some? then 1 else 0)
  {
    if ResultOf(rs, c).Some? then [Label(c) + ResultOf(rs, c).value] else []
  }

  /** The messages of the three teardowns. */
  lemma ShutdownMessages(rs: ShutdownResults)
    ensures Messages(ShutdownOrder, rs)
            == StepMessage(MetricsServerComponent, rs) + StepMessage(TracerProviderComponent, rs)
               + StepMessage(MeterProviderComponent, rs)
  {
    var o := ShutdownOrder;
    assert o[1..][1..][1..] == [];
    assert Messages(o[1..][1..][1..], rs) == [];
    assert Messages(o[1..][1..], rs) == StepMessage(MeterProviderComponent, rs);
    assert Messages(o[1..], rs) == StepMessage(TracerProviderComponent, rs) + StepMessage(MeterProviderComponent, rs);
  }

  lemma {:induction false} MessagesAppend(a: seq<Component>, b: seq<Component>, rs: ShutdownResults)
    ensures Messages(a + b, rs) == Messages(a, rs) + Messages(b, rs)
  {
    if a == [] {
      assert a + b == b;
    } else {
      assert (a + b)[1..] == a[1..] + b;
      MessagesAppend(a[1..], b, rs);
    }
  }

  /** `strings.Join`. */
  function Join(xs: seq<string>, sep: string): (j: string)
    ensures xs == [] ==> j == ""
    ensures |xs| == 1 ==> j == xs[0]
    decreases |xs|
  {
    if xs == [] then "" else if |xs| == 1 then xs[0] else xs[0] + sep + Join(xs[1..], sep)
  }

  lemma SliceAfterPrefix(a: string, b: string, lo: int, hi: int)
    requires |a| <= lo <= hi <= |a| + |b|
    ensures (a + b)[lo..hi] == b[lo - |a|..hi - |a|]
  {
    assert forall k :: lo <= k < hi ==> (a + b)[k] == b[k - |a|];
  }

  /** Where the i-th element starts in `Join(xs, sep)`. */
  function JoinOffset(xs: seq<string>, sep: string, i: nat): nat
    requires i <= |xs|
  {
    if i == 0 then 0 else JoinOffset(xs, sep, i - 1) + |xs[i - 1]| + |sep|
  }

  lemma {:induction false} JoinOffsetTail(xs: seq<string>, sep: string, i: nat)
    requires 1 <= i <= |xs|
    ensures JoinOffset(xs, sep, i) == |xs[0]| + |sep| + JoinOffset(xs[1..], sep, i - 1)
  {
    if i > 1 {
      JoinOffsetTail(xs, sep, i - 1);
    }
  }

  /** Each element appears in `Join(xs, sep)` at its offset, preceded by the
      separator unless it is the first; offsets grow with the index, so the
      joined text keeps the elements' order. */
  lemma {:induction false} JoinElement(xs: seq<string>, sep: string, i: nat)
    requires i < |xs|
    ensures JoinOffset(xs, sep, i) + |xs[i]| <= |Join(xs, sep)|
    ensures Join(xs, sep)[JoinOffset(xs, sep, i)..JoinOffset(xs, sep, i) + |xs[i]|] == xs[i]
    ensures i > 0 ==> Join(xs, sep)[JoinOffset(xs, sep, i) - |sep|..JoinOffset(xs, sep, i)] == sep
    decreases |xs|
  {
    if |xs| == 1 {
    } else if i == 0 {
      var j := Join(xs, sep);
      assert j == xs[0] + (sep + Join(xs[1..], sep));
      assert j[..|xs[0]|] == xs[0];
    } else {
      var rest := Join(xs[1..], sep);
      var head := xs[0] + sep;
      assert Join(xs, sep) == head + rest;
      JoinElement(xs[1..], sep, i - 1);
      JoinOffsetTail(xs, sep, i);
      var o := JoinOffset(xs[1..], sep, i - 1);
      assert JoinOffset(xs, sep, i) == |head| + o;
      SliceAfterPrefix(head, rest, |head| + o, |head| + o + |xs[i]|);
      if i == 1 {
        assert o == 0;
        assert head[|xs[0]|..] == sep;
        assert (head + rest)[|head| - |sep|..|head|] == head[|xs[0]|..];
      } else {
        SliceAfterPrefix(head, rest, |head| + o - |sep|, |head| + o);
      }
    }
  }

  /** The joined text ends where its last element ends: it holds the
      elements and the separators between them and nothing else. */
  lemma {:induction false} JoinLength(xs: seq<string>, sep: string)
    requires |xs| > 0
    ensures |Join(xs, sep)| == JoinOffset(xs, sep, |xs| - 1) + |xs[|xs| - 1]|
    decreases |xs|
  {
    if |xs| > 1 {
      JoinLength(xs[1..], sep);
      JoinOffsetTail(xs, sep, |xs| - 1);
    }
  }

  /** The shutdown's combined error: nil iff no step failed, otherwise the
      prefix and the labelled messages joined by `"; "`. */
  function ShutdownError(rs: ShutdownResults): (e: Option<string>)
    ensures e.None? <==> rs.serverErr.None? && rs.tpErr.None? && rs.mpErr.None?
  {
    var ms := Messages(ShutdownOrder, rs);
    ShutdownMessages(rs);
    if |ms| > 0 then Some(ShutdownPrefix + Join(ms, Separator)) else None
  }

  /** One message per failed step, carrying its component's label, and in
      teardown order: a failing step never hides a later one. */
  lemma ShutdownMessagesInOrder(rs: ShutdownResults)
    ensures var ms := Messages(ShutdownOrder, rs);
      && |ms| == (if rs.serverErr.Some? then 1 else 0) + (if rs.tpErr.Some? then 1 else 0) + (if rs.mpErr.Some? then 1 else 0)
      && (rs.serverErr.Some? ==> ms[0] == Label(MetricsServerComponent) + rs.serverErr.value)
      && (rs.mpErr.Some? ==> ms[|ms| - 1] == Label(MeterProviderComponent) + rs.mpErr.value)
      && (rs.tpErr.Some? ==> ms[if rs.serverErr.Some? then 1 else 0] == Label(TracerProviderComponent) + rs.tpErr.value)
  {
    ShutdownMessages(rs);
  }

  /** The combined error holds each failed step's message at its place in
      the joined text, after the prefix, and ends with the last message. */
  lemma ShutdownErrorHoldsMessages(rs: ShutdownResults, i: nat)
    requires i < |Messages(ShutdownOrder, rs)|
    ensures var ms := Messages(ShutdownOrder, rs); var e := ShutdownError(rs).value;
      var k := |ShutdownPrefix| + JoinOffset(ms, Separator, i);
      && e[..|ShutdownPrefix|] == ShutdownPrefix
      && k + |ms[i]| <= |e| && e[k..k + |ms[i]|] == ms[i]
      && |e| == |ShutdownPrefix| + JoinOffset(ms, Separator, |ms| - 1) + |ms[|ms| - 1]|
  {
    var ms := Messages(ShutdownOrder, rs);
    JoinElement(ms, Separator, i);
    JoinLength(ms, Separator);
    var o := JoinOffset(ms, Separator, i);
    var j := Join(ms, Separator);
    SliceAfterPrefix(ShutdownPrefix, j, |ShutdownPrefix| + o, |ShutdownPrefix| + o + |ms[i]|);
  }

  /** One teardown call, naming the object the closure captured. */
  datatype Teardown =
    | StopServer(server: MetricsServer)
    | StopTracerProvider(tp: TracerProvider)
    | StopMeterProvider(mp: MeterProvider)

  function ComponentOf(t: Teardown): Component {
    match t
    case StopServer(_) => MetricsServerComponent
    case StopTracerProvider(_) => TracerProviderComponent
    case StopMeterProvider(_) => MeterProviderComponent
  }

  /** The teardowns of a handle's objects, in shutdown order. */
  function TeardownsOf(h: ShutdownHandle): (ts: seq<Teardown>)
    ensures |ts| == |ShutdownOrder|
    ensures forall i :: 0 <= i < |ts| ==> ComponentOf(ts[i]) == ShutdownOrder[i]
    ensures ts[0].StopServer? && ts[0].server == h.server
    ensures ts[1].StopTracerProvider? && ts[1].tp == h.tp
    ensures ts[2].StopMeterProvider? && ts[2].mp == h.mp
  {
    [StopServer(h.server), StopTracerProvider(h.tp), StopMeterProvider(h.mp)]
  }

  /** The shutdown of a successful `InitOtel` stops the server and the two
      providers that call built and installed, whatever the globals hold
      by then. */
  lemma ShutdownStopsWhatInitBuilt(cfg: BaseConfig, steps: InitSteps, g: GlobalState)
    requires InitResult(cfg, steps).Success?
    ensures var ts := TeardownsOf(InitResult(cfg, steps).value); var after := GlobalsAfterInit(cfg, steps, g);
      && after.listening == Some(ts[0].server)
      && after.tracerProvider == InstalledTracerProvider(ts[1].tp)
      && after.meterProvider == InstalledMeterProvider(ts[2].mp)
  {
  }

  /** The teardowns the closure has called, in order. */
  class TeardownLog {
    var calls: seq<Teardown>

    constructor ()
      ensures calls == []
    {
      calls := [];
    }

    /** Calls one object's `Shutdown` and returns its error. */
    method Call(t: Teardown, rs: ShutdownResults) returns (err: Option<string>)
      modifies this
      ensures calls == old(calls) + [t]
      ensures err == ResultOf(rs, ComponentOf(t))
    {
      calls := calls + [t];
      err := ResultOf(rs, ComponentOf(t));
    }
  }

  /** The closure `InitOtel` returns: all three teardowns of the captured
      objects, in order, even after a failure, collecting the labelled
      messages. */
  method Shutdown(h: ShutdownHandle, rs: ShutdownResults, log: TeardownLog) returns (err: Option<string>)
    modifies log
    ensures log.calls == old(log.calls) + TeardownsOf(h)
    ensures err == ShutdownError(rs)
  {
    var errs: seq<string> := [];
    var e := log.Call(StopServer(h.server), rs);
    if e.Some? {
      errs := errs + [Label(MetricsServerComponent) + e.value];
    }
    assert errs == StepMessage(MetricsServerComponent, rs);
    e := log.Call(StopTracerProvider(h.tp), rs);
    if e.Some? {
      errs := errs + [Label(TracerProviderComponent) + e.value];
    }
    assert errs == StepMessage(MetricsServerComponent, rs) + StepMessage(TracerProviderComponent, rs);
    e := log.Call(StopMeterProvider(h.mp), rs);
    if e.Some? {
      errs := errs + [Label(MeterProviderComponent) + e.value];
    }
    assert errs == StepMessage(MetricsServerComponent, rs) + StepMessage(TracerProviderComponent, rs)
                   + StepMessage(MeterProviderComponent, rs);
    ShutdownMessages(rs);
    if |errs| > 0 {
      err := Some(ShutdownPrefix + Join(errs, Separator));
    } else {
      err := None;
    }
  }
}
