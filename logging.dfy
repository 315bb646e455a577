/** The structured logger: how `NewLogger` resolves its level and its
    service/version tags from an optional configuration, and a log sink
    that stores the records zap would write, one per emitted entry whose
    level is enabled. */
module Logging {
  import opened Wrappers

  /** zap's levels. */
  datatype Level = Debug | Info | Warn | Error | DPanic | Panic | Fatal

  /** zapcore.Level's numeric value; a larger value is more severe. */
  function Severity(l: Level): int {
    match l
    case Debug => -1
    case Info => 0
    case Warn => 1
    case Error => 2
    case DPanic => 3
    case Panic => 4
    case Fatal => 5
  }

  /** A value in a key/value pair of a structured record. */
  datatype Value = Str(s: string) | Int(i: int) | Bool(b: bool)

  datatype Field = Field(key: string, value: Value)

  /** One log entry: its level, message and ordered key/value fields. */
  datatype Record = Record(level: Level, msg: string, fields: seq<Field>)

  function Keys(fs: seq<Field>): (ks: seq<string>)
    ensures |ks| == |fs|
    ensures forall i :: 0 <= i < |fs| ==> ks[i] == fs[i].key
  {
    seq(|fs|, i requires 0 <= i < |fs| => fs[i].key)
  }

  lemma KeysAppend(a: seq<Field>, b: seq<Field>)
    ensures Keys(a + b) == Keys(a) + Keys(b)
  {
  }

  /** The value of the first field named `k`, if any. */
  function Lookup(fs: seq<Field>, k: string): Option<Value> {
    if fs == [] then None
    else if fs[0].key == k then Some(fs[0].value)
    else Lookup(fs[1..], k)
  }

  predicate Distinct(ks: seq<string>) {
    forall i, j :: 0 <= i < j < |ks| ==> ks[i] != ks[j]
  }

  /** A key is found exactly when some field carries it. */
  lemma {:induction false} LookupFound(fs: seq<Field>, k: string)
    ensures Lookup(fs, k).Some? <==> k in Keys(fs)
  {
    if fs != [] {
      LookupFound(fs[1..], k);
      assert Keys(fs) == [fs[0].key] + Keys(fs[1..]);
    }
  }

  /** Looking a key up in two concatenated field lists. */
  lemma {:induction false} LookupAppend(a: seq<Field>, b: seq<Field>, k: string)
    ensures Lookup(a + b, k) == if k in Keys(a) then Lookup(a, k) else Lookup(b, k)
  {
    LookupFound(a, k);
    if a != [] {
      assert (a + b)[1..] == a[1..] + b;
      assert Keys(a) == [a[0].key] + Keys(a[1..]);
      LookupAppend(a[1..], b, k);
    } else {
      assert a + b == b;
    }
  }

  /** The first field carrying `k` decides the lookup. */
  lemma {:induction false} LookupFirst(fs: seq<Field>, i: nat, k: string)
    requires i < |fs| && fs[i].key == k
    requires forall j :: 0 <= j < i ==> fs[j].key != k
    ensures Lookup(fs, k) == Some(fs[i].value)
  {
    if i > 0 {
      LookupFirst(fs[1..], i - 1, k);
    }
  }

  lemma LookupSkip(a: seq<Field>, b: seq<Field>, k: string)
    requires k !in Keys(a)
    ensures Lookup(a + b, k) == Lookup(b, k)
  {
    LookupAppend(a, b, k);
  }

  /** The optional parts of `BaseConfig` that `NewLogger` reads. */
  datatype LoggerConfig = LoggerConfig(serviceName: string, version: string, logLevel: string)

  /** What `NewLogger` decides: the enabled level and the two tags. */
  datatype Settings = Settings(level: Level, service: string, version: string)

  const UnknownTag: string := "unknown"

  /** The key under which the encoder writes each record's time. */
  const TimeKey: string := "timestamp"

  /** `NewLogger`'s resolution. `parseLevel` stands for zap's `ParseLevel`,
      a partial function from level names to levels. */
  function ResolveSettings(cfg: Option<LoggerConfig>, parseLevel: string -> Option<Level>): (s: Settings)
    ensures cfg.None? ==> s == Settings(Info, UnknownTag, UnknownTag)
    ensures cfg.Some? ==> s.service == cfg.value.serviceName && s.version == cfg.value.version
    ensures s.level != Info ==> cfg.Some? && parseLevel(cfg.value.logLevel) == Some(s.level)
    ensures cfg.Some? && parseLevel(cfg.value.logLevel).Some? ==> s.level == parseLevel(cfg.value.logLevel).value
  {
    match cfg
    case None => Settings(Info, UnknownTag, UnknownTag)
    case Some(c) => Settings(parseLevel(c.logLevel).GetOr(Info), c.serviceName, c.version)
  }

  /** zapcore's level enabler: entries below the configured level are dropped. */
  predicate Enabled(s: Settings, l: Level) {
    Severity(l) >= Severity(s.level)
  }

  /** The fields `l.With(service, version)` puts before every call's fields. */
  function ContextFields(s: Settings): seq<Field> {
    [Field("service", Str(s.service)), Field("version", Str(s.version))]
  }

  predicate CarriesTags(s: Settings, r: Record) {
    |r.fields| >= 2 && r.fields[..2] == ContextFields(s)
  }

  function Tagged(s: Settings, r: Record): (t: Record)
    ensures CarriesTags(s, t)
    ensures t.level == r.level && t.msg == r.msg && t.fields[2..] == r.fields
  {
    Record(r.level, r.msg, ContextFields(s) + r.fields)
  }

  /** The records the sink holds after the entries were emitted in order. */
  function Written(s: Settings, entries: seq<Record>): (w: seq<Record>)
    ensures |w| <= |entries|
    ensures forall i :: 0 <= i < |w| ==> CarriesTags(s, w[i])
    ensures forall i :: 0 <= i < |w| ==> Enabled(s, w[i].level)
  {
    if entries == [] then []
    else (if Enabled(s, entries[0].level) then [Tagged(s, entries[0])] else []) + Written(s, entries[1..])
  }

  lemma {:induction false} WrittenAppend(s: Settings, a: seq<Record>, b: seq<Record>)
    ensures Written(s, a + b) == Written(s, a) + Written(s, b)
  {
    if a != [] {
      assert (a + b)[1..] == a[1..] + b;
      WrittenAppend(s, a[1..], b);
    } else {
      assert a + b == b;
    }
  }

  /** A single entry is written, tagged, exactly when its level is enabled. */
  lemma WrittenOne(s: Settings, e: Record)
    ensures Written(s, [e]) == if Enabled(s, e.level) then [Tagged(s, e)] else []
  {
    assert [e][1..] == [];
  }

  /** The filter is a threshold: a level enabled implies every more severe
      level enabled, the configured level itself is enabled, and Fatal
      always is. */
  lemma EnabledThreshold(s: Settings, l: Level, m: Level)
    ensures Enabled(s, l) && Severity(l) <= Severity(m) ==> Enabled(s, m)
    ensures Enabled(s, s.level) && Enabled(s, Fatal)
    ensures l != Debug && !Enabled(s, l) ==> !Enabled(s, Debug)
  {
  }

  /** With the default (Info) level, everything but Debug is written. */
  lemma DefaultLevelEnables(parseLevel: string -> Option<Level>, l: Level)
    ensures Enabled(ResolveSettings(None, parseLevel), l) <==> l != Debug
  {
  }

  /** The log sink behind a `*Logger`: the records written so far. */
  class Logger {
    const settings: Settings
    const timeKey: string
    var records: seq<Record>

    /** Every written record starts with the service and version tags. */
    ghost predicate Valid()
      reads this
    {
      forall i :: 0 <= i < |records| ==> CarriesTags(settings, records[i])
    }

    /** `NewLogger(cfg)`, with `cfg == None` for a nil configuration. */
    constructor (cfg: Option<LoggerConfig>, parseLevel: string -> Option<Level>)
      ensures settings == ResolveSettings(cfg, parseLevel)
      ensures timeKey == TimeKey
      ensures records == [] && Valid()
    {
      settings := ResolveSettings(cfg, parseLevel);
      timeKey := TimeKey;
      records := [];
    }

    /** Emits one entry; zap writes it iff its level is enabled. */
    method Log(level: Level, msg: string, fields: seq<Field>)
      requires Valid()
      modifies this
      ensures Valid()
      ensures records == old(records) + Written(settings, [Record(level, msg, fields)])
    {
      WrittenOne(settings, Record(level, msg, fields));
      if Enabled(settings, level) {
        records := records + [Tagged(settings, Record(level, msg, fields))];
      }
    }

    method Info(msg: string, fields: seq<Field>)
      requires Valid()
      modifies this
      ensures Valid()
      ensures records == old(records) + Written(settings, [Record(Level.Info, msg, fields)])
    {
      Log(Level.Info, msg, fields);
    }

    method Error(msg: string, fields: seq<Field>)
      requires Valid()
      modifies this
      ensures Valid()
      ensures records == old(records) + Written(settings, [Record(Level.Error, msg, fields)])
    {
      Log(Level.Error, msg, fields);
    }

    method Debug(msg: string, fields: seq<Field>)
      requires Valid()
      modifies this
      ensures Valid()
      ensures records == old(records) + Written(settings, [Record(Level.Debug, msg, fields)])
    {
      Log(Level.Debug, msg, fields);
    }

    method Warn(msg: string, fields: seq<Field>)
      requires Valid()
      modifies this
      ensures Valid()
      ensures records == old(records) + Written(settings, [Record(Level.Warn, msg, fields)])
    {
      Log(Level.Warn, msg, fields);
    }

    /** Fatal's record is always written (no level is above Fatal). */
    method Fatal(msg: string, fields: seq<Field>)
      requires Valid()
      modifies this
      ensures Valid()
      ensures records == old(records) + [Tagged(settings, Record(Level.Fatal, msg, fields))]
    {
      Log(Level.Fatal, msg, fields);
    }

    /** The flush error is discarded: nothing is returned and no record changes. */
    method Sync()
      ensures records == old(records)
    {
    }
  }
}
