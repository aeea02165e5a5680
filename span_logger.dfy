/** A zap core that writes every log entry it admits to an OpenTelemetry
    span as an event, and the wrapper that attaches it to a logger. */
module SpanLogger {
  import opened GoTypes
  import opened Attribute
  import opened GoValues
  import opened ZapFields
  import FieldProperties

  /** zapcore.Level: the named levels, from the least to the most severe. */
  datatype Level = DebugLevel | InfoLevel | WarnLevel | ErrorLevel | DPanicLevel | PanicLevel | FatalLevel

  /** The numeric value zap gives each level; `DebugLevel` is -1. */
  function Rank(l: Level): (n: int)
    ensures -1 <= n <= 5
    ensures l == InfoLevel <==> n == 0
  {
    match l
    case DebugLevel => -1
    case InfoLevel => 0
    case WarnLevel => 1
    case ErrorLevel => 2
    case DPanicLevel => 3
    case PanicLevel => 4
    case FatalLevel => 5
  }

  /** zapcore.Level.String: the lower-case name. */
  function LevelName(l: Level): (s: string)
    ensures |s| > 0
  {
    match l
    case DebugLevel => "debug"
    case InfoLevel => "info"
    case WarnLevel => "warn"
    case ErrorLevel => "error"
    case DPanicLevel => "dpanic"
    case PanicLevel => "panic"
    case FatalLevel => "fatal"
  }

  /** Different levels have different ranks and different names. */
  lemma LevelsDistinct(a: Level, b: Level)
    requires a != b
    ensures Rank(a) != Rank(b)
    ensures LevelName(a) != LevelName(b)
  {
  }

  /** zapcore.Entry, the parts of it the sink uses. */
  datatype Entry = Entry(Level: Level, LoggerName: string, Message: string)

  /** A span event: a name and its attributes. */
  datatype Event = Event(Name: string, Attributes: seq<KeyValue>)

  /** A trace.Span: whether it records, and the events added to it so far. */
  class Span {
    const recording: bool
    var events: seq<Event>

    constructor(recording: bool)
      ensures this.recording == recording
      ensures events == []
    {
      this.recording := recording;
      events := [];
    }

    predicate IsRecording(): (b: bool)
      ensures b == recording
    {
      recording
    }

    /** trace.Span.AddEvent with trace.WithAttributes. */
    method AddEvent(name: string, attributes: seq<KeyValue>)
      modifies this
      ensures events == old(events) + [Event(name, attributes)]
    {
      events := events + [Event(name, attributes)];
    }
  }

  /** zapcore.Core: an output core admitting the levels from a minimum on,
      a tee of two cores, or the span sink. */
  datatype Core =
    | IoCore(minLevel: Level)
    | Tee(original: Core, extra: Core)
    | SpanSink(zs: ZapSpanCore)

  /** zapSpanCore: the core it asks about levels, the span it writes to,
      and the context fields gathered by `With`. */
  datatype ZapSpanCore = ZapSpanCore(core: Core, span: Span, with: seq<Field>)

  /** Core.Enabled: an output core by its minimum level, a tee when either
      side is enabled, the span sink as its wrapped core. */
  function CoreEnabled(c: Core, level: Level): (r: bool)
    ensures c.IoCore? ==> (r <==> Rank(level) >= Rank(c.minLevel))
    ensures level == FatalLevel ==> r
    decreases c
  {
    match c
    case IoCore(min) => Rank(level) >= Rank(min)
    case Tee(a, b) => CoreEnabled(a, level) || CoreEnabled(b, level)
    case SpanSink(zs) => CoreEnabled(zs.core, level)
  }

  /** Any core admits every level at least as severe as one it admits. */
  lemma {:induction false} EnabledUpward(c: Core, l1: Level, l2: Level)
    requires Rank(l1) <= Rank(l2) && CoreEnabled(c, l1)
    ensures CoreEnabled(c, l2)
    decreases c
  {
    match c
    case IoCore(_) =>
    case Tee(a, b) =>
      if CoreEnabled(a, l1) { EnabledUpward(a, l1, l2); } else { EnabledUpward(b, l1, l2); }
    case SpanSink(zs) => EnabledUpward(zs.core, l1, l2);
  }

  /** zapSpanCore.Enabled: the decision of the wrapped core. */
  function Enabled(zs: ZapSpanCore, level: Level): (r: bool)
    ensures r == CoreEnabled(SpanSink(zs), level)
  {
    CoreEnabled(zs.core, level)
  }

  /** Teeing a core with a span sink around that same core admits exactly
      the levels the core admits: the sink adds no filtering. */
  lemma SinkAddsNoFiltering(c: Core, span: Span, with: seq<Field>, level: Level)
    ensures CoreEnabled(Tee(c, SpanSink(ZapSpanCore(c, span, with))), level) == CoreEnabled(c, level)
    ensures Enabled(ZapSpanCore(c, span, with), level) == CoreEnabled(c, level)
  {
  }

  /** zapSpanCore.With: a new sink with the same core and span and the
      fields appended to the context fields; the receiver is a value and
      stays as it was. */
  function With(zs: ZapSpanCore, fields: seq<Field>): (r: ZapSpanCore)
    ensures r.core == zs.core && r.span == zs.span
    ensures r.with == zs.with + fields
  {
    ZapSpanCore(zs.core, zs.span, ConcatFields(zs.with, fields))
  }

  /** Chained `With` calls accumulate the fields in call order, and their
      attributes come out in that order too. */
  lemma WithChained(zs: ZapSpanCore, a: seq<Field>, b: seq<Field>, lib: GoLibrary)
    requires AllValid(zs.with) && AllValid(a) && AllValid(b)
    ensures With(With(zs, a), b) == With(zs, a + b)
    ensures AllValid(With(With(zs, a), b).with)
    ensures Converted(With(With(zs, a), b).with, lib) == Converted(zs.with, lib) + Converted(a, lib) + Converted(b, lib)
  {
    assert zs.with + a + b == zs.with + (a + b);
    ConvertedConcat(zs.with, a, lib);
    ConvertedConcat(zs.with + a, b, lib);
  }

  /** Core.With for every kind of core: the span sink gathers the fields;
      an output core hands them to its encoder, which is not modelled. */
  function CoreWith(c: Core, fields: seq<Field>): (r: Core)
    ensures c.IoCore? <==> r.IoCore?
    ensures c.SpanSink? ==> r == SpanSink(With(c.zs, fields))
    ensures c.Tee? ==> r == Tee(CoreWith(c.original, fields), CoreWith(c.extra, fields))
    decreases c
  {
    match c
    case IoCore(min) => IoCore(min)
    case Tee(a, b) => Tee(CoreWith(a, fields), CoreWith(b, fields))
    case SpanSink(zs) => SpanSink(With(zs, fields))
  }

  /** Adding context fields never changes which levels a core admits. */
  lemma {:induction false} CoreWithKeepsLevels(c: Core, fields: seq<Field>, level: Level)
    ensures CoreEnabled(CoreWith(c, fields), level) == CoreEnabled(c, level)
    decreases c
  {
    match c
    case IoCore(_) =>
    case Tee(a, b) =>
      CoreWithKeepsLevels(a, fields, level);
      CoreWithKeepsLevels(b, fields, level);
    case SpanSink(zs) =>
  }

  /** zapcore.CheckedEntry: the entry and the cores that will write it. */
  class CheckedEntry {
    var entry: Entry
    var cores: seq<Core>

    constructor(entry: Entry)
      ensures this.entry == entry && cores == []
    {
      this.entry := entry;
      cores := [];
    }
  }

  /** CheckedEntry.AddCore: a nil checked entry is first allocated for the
      entry; the core is appended. */
  method AddCore(checked: CheckedEntry?, entry: Entry, core: Core) returns (r: CheckedEntry)
    modifies checked
    ensures checked == null ==> fresh(r) && r.entry == entry && r.cores == [core]
    ensures checked != null ==> r == checked && r.entry == old(checked.entry) && r.cores == old(checked.cores) + [core]
  {
    if checked == null {
      r := new CheckedEntry(entry);
    } else {
      r := checked;
    }
    r.cores := r.cores + [core];
  }

  /** zapSpanCore.Check: the sink joins the checked entry exactly when the
      entry's level is enabled; otherwise the checked entry is returned as
      it came, nil or not. */
  method Check(zs: ZapSpanCore, entry: Entry, checked: CheckedEntry?) returns (r: CheckedEntry?)
    modifies checked
    ensures !Enabled(zs, entry.Level) ==> r == checked && (checked != null ==> unchanged(checked))
    ensures Enabled(zs, entry.Level) && checked == null ==>
              r != null && fresh(r) && r.entry == entry && r.cores == [SpanSink(zs)]
    ensures Enabled(zs, entry.Level) && checked != null ==>
              r == checked && r.entry == old(checked.entry) && r.cores == old(checked.cores) + [SpanSink(zs)]
  {
    r := checked;
    if Enabled(zs, entry.Level) {
      r := AddCore(checked, entry, SpanSink(zs));
    }
  }

  /** The two attributes every event starts with: the level's name and the
      logger's name. */
  function EntryAttributes(entry: Entry): (r: seq<KeyValue>)
    ensures |r| == 2 && Keys(r) == ["zap.level", "zap.logger_name"]
  {
    [KeyValue("zap.level", StringValue(LevelName(entry.Level))),
     KeyValue("zap.logger_name", StringValue(entry.LoggerName))]
  }

  /** The attributes of the event `Write` records: the entry's two, then
      the context fields', then the call fields'. */
  function EventAttributes(zs: ZapSpanCore, entry: Entry, fields: seq<Field>, lib: GoLibrary): (r: seq<KeyValue>)
    requires AllValid(zs.with) && AllValid(fields)
    ensures |r| >= 2 && r[..2] == EntryAttributes(entry)
    ensures r[2..] == Converted(zs.with, lib) + Converted(fields, lib)
  {
    var head, w, f := EntryAttributes(entry), Converted(zs.with, lib), Converted(fields, lib);
    assert (head + w + f)[..2] == head;
    assert (head + w + f)[2..] == w + f;
    head + w + f
  }

  /** The layout of an event: two entry attributes, then one attribute per
      field that is not skipped, keyed like the field, context fields
      first. */
  lemma EventLayout(zs: ZapSpanCore, entry: Entry, fields: seq<Field>, lib: GoLibrary)
    requires AllValid(zs.with) && AllValid(fields)
    ensures |EventAttributes(zs, entry, fields, lib)| == 2 + |Kept(zs.with)| + |Kept(fields)|
    ensures Keys(EventAttributes(zs, entry, fields, lib))
            == ["zap.level", "zap.logger_name"] + FieldKeys(Kept(zs.with)) + FieldKeys(Kept(fields))
    ensures EventAttributes(zs, entry, fields, lib)[0] == KeyValue("zap.level", StringValue(LevelName(entry.Level)))
    ensures EventAttributes(zs, entry, fields, lib)[1] == KeyValue("zap.logger_name", StringValue(entry.LoggerName))
  {
    var e := EntryAttributes(entry);
    var w := Converted(zs.with, lib);
    var f := Converted(fields, lib);
    ConvertedKeys(zs.with, lib);
    ConvertedKeys(fields, lib);
    KeysConcat(e, w);
    KeysConcat(e + w, f);
    assert (e + w + f)[0] == e[0] && (e + w + f)[1] == e[1];
  }

  /** zapSpanCore.Write: exactly one event on the span, named by the
      message; no error. */
  method Write(zs: ZapSpanCore, entry: Entry, fields: seq<Field>, lib: GoLibrary) returns (err: Option<string>)
    requires AllValid(zs.with) && AllValid(fields)
    modifies zs.span
    ensures zs.span.events == old(zs.span.events) + [Event(entry.Message, EventAttributes(zs, entry, fields, lib))]
    ensures err == None
  {
    var attrs := AttributesFromZapFields(zs.with, fields, EntryAttributes(entry), lib);
    zs.span.AddEvent(entry.Message, attrs);
    return None;
  }

  /** zapSpanCore.Sync: there is nothing to flush. */
  function Sync(zs: ZapSpanCore): (err: Option<string>)
    ensures err.None?
  {
    None
  }

  /** A zap.Logger: its name and its core. */
  class Logger {
    const name: string
    const core: Core

    constructor(name: string, core: Core)
      ensures this.name == name && this.core == core
    {
      this.name := name;
      this.core := core;
    }
  }

  /** SpanLogger: the logger itself when there is no span or the span does
      not record; otherwise a new logger of the same name whose core tees
      the original core with a span sink around it. */
  method SpanLogger(span: Span?, logger: Logger) returns (r: Logger)
    ensures span == null || !span.IsRecording() ==> r == logger
    ensures span != null && span.IsRecording() ==>
              fresh(r) && r.name == logger.name &&
              r.core == Tee(logger.core, SpanSink(ZapSpanCore(logger.core, span, [])))
  {
    if span == null || !span.IsRecording() {
      return logger;
    }
    r := new Logger(logger.name, Tee(logger.core, SpanSink(ZapSpanCore(logger.core, span, []))));
  }

  /** The fields of the scenario below. */
  function Bar(): Field { Field("bar", StringType, 0, "hello", Nil) }
  function Baz(): Field { Field("baz", Int64Type, 321, "", Nil) }
  function Foo(): Field { Field("foo", Int64Type, 123, "", Nil) }

  /** The sink of the scenario below after its two `With` calls. */
  lemma ScenarioSink(span: Span)
    ensures With(With(ZapSpanCore(IoCore(InfoLevel), span, []), [Bar()]), [Baz()])
            == ZapSpanCore(IoCore(InfoLevel), span, [Bar(), Baz()])
  {
    assert [] + [Bar()] + [Baz()] == [Bar(), Baz()];
  }

  /** The attributes of the scenario's info call. */
  lemma ScenarioAttributes(span: Span, lib: GoLibrary)
    ensures AllValid([Bar(), Baz()]) && AllValid([Foo()])
    ensures EventAttributes(ZapSpanCore(IoCore(InfoLevel), span, [Bar(), Baz()]),
                            Entry(InfoLevel, "my", "my message"), [Foo()], lib)
            == [KeyValue("zap.level", StringValue("info")),
                KeyValue("zap.logger_name", StringValue("my")),
                KeyValue("bar", StringValue("hello")),
                KeyValue("baz", Int64Value(321)),
                KeyValue("foo", Int64Value(123))]
  {
    FieldProperties.StringLikeKinds("bar", "hello", [], lib);
    FieldProperties.IntegerKindsPassThrough(Baz(), lib);
    FieldProperties.IntegerKindsPassThrough(Foo(), lib);
    PairConverted(Bar(), Baz(), lib);
    SingleConverted([Foo()], lib);
  }

  /** A logger named "my" over an info-level core, attached to a recording
      span, with context fields `bar` and `baz`: an info call records one
      event with the entry's attributes first and the fields in call order;
      a debug call records nothing. */
  method InfoAndDebugScenario(lib: GoLibrary) returns (events: seq<Event>)
    ensures events == [Event("my message",
                             [KeyValue("zap.level", StringValue("info")),
                              KeyValue("zap.logger_name", StringValue("my")),
                              KeyValue("bar", StringValue("hello")),
                              KeyValue("baz", Int64Value(321)),
                              KeyValue("foo", Int64Value(123))])]
  {
    var span := new Span(true);
    var logger := new Logger("my", IoCore(InfoLevel));
    var sl := SpanLogger(span, logger);
    var zs := With(With(sl.core.extra.zs, [Bar()]), [Baz()]);
    ScenarioSink(span);
    ScenarioAttributes(span, lib);

    var info := Entry(InfoLevel, sl.name, "my message");
    var checked := Check(zs, info, null);
    if checked != null {
      var _ := Write(zs, info, [Foo()], lib);
    }
    var debug := Entry(DebugLevel, sl.name, "my message");
    checked := Check(zs, debug, null);
    // below the core's minimum level: no core is asked to write
    assert checked == null;
    events := span.events;
  }
}
