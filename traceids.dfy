/** Trace and span identifiers as OpenTelemetry holds them (16 and 8 raw
    bytes), their lowercase-hex rendering, and the two ways the middleware
    tests them: on the bytes (`SpanContext.HasTraceID`, i.e. non-zero per
    sections 3.2.2.3 and 3.2.2.4 of W3C Trace Context) and on the rendered
    string (not empty and not the all-zero string). */
module TraceIds {
  import opened Wrappers
  import opened Logging

  newtype byte = x: int | 0 <= x < 256

  type TraceId = s: seq<byte> | |s| == 16 witness seq(16, _ => 0 as byte)
  type SpanId = s: seq<byte> | |s| == 8 witness seq(8, _ => 0 as byte)

  /** The trace context carried by a request's `context.Context`. */
  datatype SpanContext = SpanContext(traceId: TraceId, spanId: SpanId)

  /** What `trace.SpanFromContext` yields when no span is attached. */
  const NoSpan: SpanContext := SpanContext(seq(16, _ => 0 as byte), seq(8, _ => 0 as byte))

  /** The literals the source compares rendered identifiers against. */
  const ZeroTraceIdHex: string := "00000000000000000000000000000000"
  const ZeroSpanIdHex: string := "0000000000000000"

  predicate IsZero(b: seq<byte>) {
    forall i :: 0 <= i < |b| ==> b[i] == 0
  }

  /** `SpanContext.HasTraceID` / `TraceID.IsValid`: not all zero. */
  predicate HasTraceId(sc: SpanContext) {
    !IsZero(sc.traceId)
  }

  /** `SpanID.IsValid`: not all zero. */
  predicate HasSpanId(sc: SpanContext) {
    !IsZero(sc.spanId)
  }

  const LowerHexDigits: string := "0123456789abcdef"

  function HexDigit(n: int): (c: char)
    requires 0 <= n < 16
    ensures c == '0' <==> n == 0
  {
    if n < 10 then ('0' as int + n) as char else ('a' as int + n - 10) as char
  }

  lemma HexDigitIsLower(n: int)
    requires 0 <= n < 16
    ensures HexDigit(n) in LowerHexDigits
  {
    assert HexDigit(n) == LowerHexDigits[n];
  }

  /** `hex.EncodeToString`, which `TraceID.String` and `SpanID.String` use. */
  function Hex(b: seq<byte>): (s: string)
    ensures |s| == 2 * |b|
  {
    if b == [] then ""
    else [HexDigit(b[0] as int / 16), HexDigit(b[0] as int % 16)] + Hex(b[1..])
  }

  /** Byte `i` is rendered at positions `2i` and `2i+1`, high nibble first. */
  lemma {:induction false} HexEncodes(b: seq<byte>)
    ensures forall i :: 0 <= i < |b| ==> Hex(b)[2 * i] == HexDigit(b[i] as int / 16) && Hex(b)[2 * i + 1] == HexDigit(b[i] as int % 16)
  {
    if b != [] {
      HexEncodes(b[1..]);
      var tail := Hex(b[1..]);
      assert Hex(b) == [HexDigit(b[0] as int / 16), HexDigit(b[0] as int % 16)] + tail;
      forall i | 1 <= i < |b|
        ensures Hex(b)[2 * i] == HexDigit(b[i] as int / 16) && Hex(b)[2 * i + 1] == HexDigit(b[i] as int % 16)
      {
        var j := i - 1;
        assert b[i] == b[1..][j];
        assert Hex(b)[2 * i] == tail[2 * j];
        assert Hex(b)[2 * i + 1] == tail[2 * j + 1];
      }
    }
  }

  /** The rendering uses lowercase hex digits only. */
  lemma {:induction false} HexIsLower(b: seq<byte>)
    ensures forall k :: 0 <= k < |Hex(b)| ==> Hex(b)[k] in LowerHexDigits
  {
    if b != [] {
      HexIsLower(b[1..]);
      HexDigitIsLower(b[0] as int / 16);
      HexDigitIsLower(b[0] as int % 16);
      assert Hex(b) == [HexDigit(b[0] as int / 16), HexDigit(b[0] as int % 16)] + Hex(b[1..]);
    }
  }

  function TraceIdString(sc: SpanContext): string { Hex(sc.traceId) }
  function SpanIdString(sc: SpanContext): string { Hex(sc.spanId) }

  /** The source's test on a rendered trace id (not "" and not 32 zeros). */
  predicate LoggableTraceId(s: string) {
    s != "" && s != ZeroTraceIdHex
  }

  /** The source's test on a rendered span id (not "" and not 16 zeros). */
  predicate LoggableSpanId(s: string) {
    s != "" && s != ZeroSpanIdHex
  }

  function Zeros(n: nat): (s: string)
    ensures |s| == n
  {
    seq(n, _ => '0')
  }

  /** The hex rendering is all zeros exactly when every byte is zero. */
  lemma {:induction false} HexZeros(b: seq<byte>)
    ensures Hex(b) == Zeros(2 * |b|) <==> IsZero(b)
  {
    if b != [] {
      HexZeros(b[1..]);
      var head := [HexDigit(b[0] as int / 16), HexDigit(b[0] as int % 16)];
      var zs := Zeros(2 * |b[1..]|);
      assert Hex(b) == head + Hex(b[1..]);
      assert Zeros(2 * |b|) == ['0', '0'] + zs;
      assert IsZero(b) <==> b[0] == 0 && IsZero(b[1..]) by {
        assert forall i :: 0 <= i < |b[1..]| ==> b[1..][i] == b[i + 1];
      }
      assert head == ['0', '0'] <==> b[0] == 0;
      assert head + Hex(b[1..]) == ['0', '0'] + zs <==> head == ['0', '0'] && Hex(b[1..]) == zs by {
        if head + Hex(b[1..]) == ['0', '0'] + zs {
          assert (head + Hex(b[1..]))[..2] == head;
          assert (head + Hex(b[1..]))[2..] == Hex(b[1..]);
        }
      }
    }
  }

  lemma ZeroLiterals()
    ensures ZeroTraceIdHex == Zeros(32)
    ensures ZeroSpanIdHex == Zeros(16)
  {
  }

  /** Filtering the rendered trace id, as the logging and recovery stages do,
      keeps exactly the trace ids that `HasTraceID` accepts. */
  lemma TraceIdFilterAgrees(sc: SpanContext)
    ensures LoggableTraceId(TraceIdString(sc)) <==> HasTraceId(sc)
  {
    ZeroLiterals();
    HexZeros(sc.traceId);
  }

  /** Likewise for span ids and `SpanID.IsValid`. */
  lemma SpanIdFilterAgrees(sc: SpanContext)
    ensures LoggableSpanId(SpanIdString(sc)) <==> HasSpanId(sc)
  {
    ZeroLiterals();
    HexZeros(sc.spanId);
  }

  /** With no span in the context, both identifiers are filtered out. */
  lemma NoSpanIsFiltered()
    ensures !LoggableTraceId(TraceIdString(NoSpan)) && !LoggableSpanId(SpanIdString(NoSpan))
  {
    TraceIdFilterAgrees(NoSpan);
    SpanIdFilterAgrees(NoSpan);
  }

  /** The `trace_id` and `span_id` fields both transports append to a
      request record: each present only when its rendered id passes the
      source's string test. */
  function TraceFields(sc: SpanContext): seq<Field> {
    var traceId := TraceIdString(sc);
    var spanId := SpanIdString(sc);
    (if LoggableTraceId(traceId) then [Field("trace_id", Str(traceId))] else [])
    + (if LoggableSpanId(spanId) then [Field("span_id", Str(spanId))] else [])
  }

  /** The trace fields, described by the identifiers' bytes: `trace_id`
      exactly when the trace id is non-zero, then `span_id` exactly when the
      span id is non-zero, each holding the id's hex rendering. */
  lemma TraceFieldsByBytes(sc: SpanContext)
    ensures Keys(TraceFields(sc)) == (if HasTraceId(sc) then ["trace_id"] else []) + (if HasSpanId(sc) then ["span_id"] else [])
    ensures Lookup(TraceFields(sc), "trace_id") == if HasTraceId(sc) then Some(Str(TraceIdString(sc))) else None
    ensures Lookup(TraceFields(sc), "span_id") == if HasSpanId(sc) then Some(Str(SpanIdString(sc))) else None
  {
    TraceIdFilterAgrees(sc);
    SpanIdFilterAgrees(sc);
    var t := if HasTraceId(sc) then [Field("trace_id", Str(TraceIdString(sc)))] else [];
    var u := if HasSpanId(sc) then [Field("span_id", Str(SpanIdString(sc)))] else [];
    assert TraceFields(sc) == t + u;
    assert Keys(t + u) == Keys(t) + Keys(u);
    LookupAppend(t, u, "trace_id");
    LookupAppend(t, u, "span_id");
  }

  /** Position of an optional key in the order the source appends them. */
  function OptionalRank(k: string): int {
    if k == "trace_id" then 0 else if k == "span_id" then 1 else if k == "error" then 2 else 3
  }

  /** The optional keys that are present, in the order the source appends them. */
  function OptionalKeys(hasTrace: bool, hasSpan: bool, hasError: bool): seq<string> {
    (if hasTrace then ["trace_id"] else []) + (if hasSpan then ["span_id"] else []) + (if hasError then ["error"] else [])
  }

  /** Present optional keys are strictly ordered `trace_id` < `span_id` < `error`. */
  lemma OptionalKeysOrdered(hasTrace: bool, hasSpan: bool, hasError: bool)
    ensures forall i :: 0 <= i < |OptionalKeys(hasTrace, hasSpan, hasError)| ==> OptionalRank(OptionalKeys(hasTrace, hasSpan, hasError)[i]) < 3
    ensures forall i, j :: 0 <= i < j < |OptionalKeys(hasTrace, hasSpan, hasError)| ==>
              OptionalRank(OptionalKeys(hasTrace, hasSpan, hasError)[i]) < OptionalRank(OptionalKeys(hasTrace, hasSpan, hasError)[j])
  {
  }

  /** Distinct keys none of which is optional, followed by the optional
      keys, are distinct. */
  lemma OptionalKeysAfterBase(b: seq<string>, hasTrace: bool, hasSpan: bool, hasError: bool)
    requires Distinct(b)
    requires forall i :: 0 <= i < |b| ==> OptionalRank(b[i]) == 3
    ensures Distinct(b + OptionalKeys(hasTrace, hasSpan, hasError))
  {
    var o := OptionalKeys(hasTrace, hasSpan, hasError);
    OptionalKeysOrdered(hasTrace, hasSpan, hasError);
    var ks := b + o;
    forall i, j | 0 <= i < j < |ks| ensures ks[i] != ks[j] {
      if j < |b| {
        assert ks[i] == b[i] && ks[j] == b[j];
      } else if i < |b| {
        assert OptionalRank(ks[i]) == 3 && OptionalRank(ks[j]) < 3;
      } else {
        assert ks[i] == o[i - |b|] && ks[j] == o[j - |b|];
      }
    }
  }
}
