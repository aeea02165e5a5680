# otelzap in Dafny

A model of the core of otelzap, a bridge from the zap structured logger to
OpenTelemetry tracing in Go, with proofs about it. The model has two parts.

- **Field conversion** (`zap_fields.go`). This turns zap fields into
  OpenTelemetry attributes in three ways:
  - `appendZapField` converts one field by the field's kind;
  - `Any` converts an arbitrary Go value through a fixed fallback chain:
    exact type, `MarshalText`, `String()`, reflection, JSON, `fmt.Sprint`;
  - `attributesFromZapFields` converts whole field lists.

  The file also has the `toXSlice` helpers, `concatFields` and `excludeMap`.
- **The span sink** (`span_logger.go`). `zapSpanCore` is a zap core. It
  asks its wrapped core whether a level is enabled, gathers context fields
  with `With`, and writes each admitted entry to the span as one event.
  `SpanLogger` attaches such a core to a logger, but only when the span
  records.

How Go is represented:

- Go's `interface{}` is the `Value` datatype. It has a constructor of its
  own for nil, for each predeclared scalar type (`uintptr` included), and
  for the slices `[]bool`, `[]string`, `[]byte`, `[]int`, `[]int64` and
  `[]float64`.
- Every dynamic type without a constructor of its own is an `Object`, for
  example `[]uint64`, `[]interface{}` or `map[string]interface{}`. It
  carries what its `MarshalText`, `String()` and `Error()` return, and what
  reflection sees of it.
- A Go string is a byte sequence. Here each character of a Dafny string
  stands for one byte, for keys, string payloads and method results alike.
  A string written with characters above 255 (such as `"é"` as one
  character) is not the same string as its UTF-8 bytes, although in Go the
  two are one string.
- Go library behaviour the package calls into is passed in as the
  function fields of a `GoLibrary` record:
  - float32 widening;
  - `strconv.FormatComplex`;
  - `Duration.String`;
  - RFC 3339 time formatting;
  - `json.Marshal`, which may fail;
  - `fmt.Sprint`.
- Integer conversions are written out with Go's wrap-around.
- Base64 (section 4 of RFC 4648) is implemented in full, with a decoder
  and a proof that decoding inverts encoding.

The modules:

| file | module | holds |
|---|---|---|
| go_types.dfy | GoTypes | Go integer widths and conversions; floats as bit patterns; byte strings |
| base64.dfy | Base64 | standard padded base64, its decoder and the round trip |
| attribute.dfy | Attribute | OpenTelemetry attribute values and key/value pairs |
| go_values.dfy | GoValues | Go dynamic values, reflection, and the Go library behaviour passed in |
| zap_fields.dfy | ZapFields | the conversion engine |
| field_properties.dfy | FieldProperties | kind-by-kind and value-by-value properties of the conversion |
| span_logger.dfy | SpanLogger | levels, the span, the span sink core, checked entries, `SpanLogger` |

## Model

| member | source | states |
|---|---|---|
| GoTypes.ToInt64 | zap_fields.go:167-176 | `int64(u)` of an unsigned value is congruent to it modulo 2^64, and equals it exactly below 2^63 |
| GoTypes.ToUint64 | zap_fields.go:70-71 | `uint64(i)` is congruent to i modulo 2^64, and equals i exactly when i is non-negative |
| GoTypes.ToUint32 | zap_fields.go:68-69 | `uint32(i)` keeps i modulo 2^32, and is i itself on [0, 2^32) |
| GoTypes.ToUint64ToInt64 | zap_fields.go:259 | converting unsigned to `int64` and back loses nothing |
| GoTypes.BytesToString | zap_fields.go:85 | `string(b)` has one character per byte, each equal to that byte |
| GoTypes.BytesToStringInjective | zap_fields.go:185-188 | `string(b)` of a `MarshalText` result is injective: distinct texts give distinct attribute strings |
| Base64.EncodeToString | zap_fields.go:83 | the output length is 4·⌈n/3⌉; every character is in the alphabet or is the pad; the pad appears only in the last two places |
| Base64.DecodeEncode | zap_fields.go:149 | decoding the encoding of any byte sequence gives it back, so the binary attribute loses nothing |
| Base64.KnownEncodings | zap_fields_test.go:70 | `[1,2,3,4]` encodes to `AQIDBA==` and the empty input to the empty string |
| GoValues.ReflectOf | zap_fields.go:195 | reflection exposes an object's own reflected shape; `[]byte` reflects as a slice of unsigned integers, nil as the invalid kind, a float32 as its widened float, complex numbers as a kind the package does not handle |
| GoValues.StringerOf | zap_fields.go:190-191 | only a non-predeclared dynamic type can be a `fmt.Stringer` |
| GoValues.ErrorOf | zap_fields.go:97-98 | only a non-predeclared dynamic type can be an `error` |
| ZapFields.AppendZapField | zap_fields.go:48-108 | skip and namespace kinds return the list unchanged; every other kind appends exactly one attribute with the field's key and keeps the prefix |
| ZapFields.FieldAttribute | zap_fields.go:54-107 | the attribute for each appending kind carries the field's key |
| ZapFields.Any | zap_fields.go:134-229 | always exactly one attribute with the given key, whose value is the first success of the fallback chain |
| ZapFields.TypeSwitch | zap_fields.go:135-192 | nil gives `<nil>`; `uintptr` and complex values match no case; a failed `MarshalText` leaves the switch with no result; a successful one gives a string |
| ZapFields.ByReflection | zap_fields.go:195-220 | time, location, invalid (nil) and unhandled kinds give no result, and so do slices of float32 or of unhandled element kinds |
| ZapFields.Serialized | zap_fields.go:222-228 | always a string: the JSON text when `json.Marshal` succeeds, `fmt.Sprint` otherwise |
| ZapFields.AnyValue | zap_fields.go:134-229 | the type switch, then reflection, then JSON and `fmt.Sprint`, in program order, coincide with the chain exact type → successful `MarshalText` → `String()` → reflected kind → JSON → `fmt.Sprint` |
| ZapFields.ValidPayloadKinds | zap_fields.go:74-98 | only the kinds whose conversion asserts the payload's type (complex, binary, byte string, stringer, time, error) can make Go panic; a byte-slice kind is well-typed exactly when its payload is a `[]byte` |
| ZapFields.AppendStep | zap_fields.go:35-42 | one loop iteration extends the attributes gathered so far by exactly the next field's conversion |
| ZapFields.FirstSuccessOfFive | zap_fields.go:185-228 | a five-step chain yields its first successful step, or else the fallback |
| ZapFields.Uint64sToInt64s | zap_fields.go:259 | one output element per input element, each the `int64` conversion of the input element, as `ToUint64Slice` computes |
| ZapFields.ToBoolSlice | zap_fields.go:232-240 | same length, same elements, in order |
| ZapFields.ToInt64Slice | zap_fields.go:243-251 | same length, same elements, in order |
| ZapFields.ToUint64Slice | zap_fields.go:254-262 | same length; each element is the `int64` conversion of the input element and converts back to it; the result is the element conversion reflection uses |
| ZapFields.ToFloat64Slice | zap_fields.go:265-273 | same length, same elements, in order |
| ZapFields.ToStringSlice | zap_fields.go:276-284 | same length, same elements, in order |
| ZapFields.ConvertField | zap_fields.go:48-108 | one field on its own gives no attribute when skipped and otherwise exactly one, with the field's key |
| ZapFields.AppendZapFieldExtends | zap_fields.go:48-108 | appending a field extends any list by that field's own conversion, independent of what came before |
| ZapFields.ConvertedKeys | zap_fields.go:35-42 | a converted list has one attribute per non-skipped field, keyed like that field, in field order: no reordering, no deduplication |
| ZapFields.ConvertedConcat | zap_fields.go:35-42 | converting a concatenation gives the concatenation of the conversions |
| ZapFields.ConvertedPrefix | zap_fields.go:35-37 | one more field on the right extends the conversion by that field's attributes |
| ZapFields.SingleConverted | zap_fields.go:35-37 | a one-field list converts like the field alone |
| ZapFields.AllValidConcat | zap_fields.go:287-301 | concatenating lists of well-typed fields gives a list of well-typed fields |
| ZapFields.AttributesFromZapFields | zap_fields.go:20-45 | the result is `extra`, then the conversions of `with`, then those of `fields`; with no fields at all it is `extra` exactly |
| ZapFields.ConcatFields | zap_fields.go:287-301 | the result is `a ++ b`, of length `len(a)+len(b)`, including when either side is empty |
| ZapFields.ExcludeMap | zap_fields.go:121-131 | a key is in the map exactly when it is in the list, and maps to true |
| FieldProperties.SkippedKindsAddNothing | zap_fields.go:50-52 | skip and namespace fields leave any list as it is |
| FieldProperties.BoolKind | zap_fields.go:54-55 | a bool field is true exactly when its integer slot is non-zero |
| FieldProperties.IntegerKindsPassThrough | zap_fields.go:57-66 | all nine integer kinds pass the integer slot through unchanged |
| FieldProperties.StringLikeKinds | zap_fields.go:80-85 | strings are verbatim, byte strings are their raw bytes, binaries are base64 |
| FieldProperties.BinaryRecoverable | zap_fields.go:82-83 | the bytes of a binary field can be recovered from its attribute |
| FieldProperties.BinaryTestValue | zap_fields_test.go:145 | the empty binary field of the tests gives the empty string |
| FieldProperties.AnyByteSliceTestValue | zap_fields_test.go:70 | `Any` on the byte slice `[1,2,3,4]` gives `AQIDBA==` |
| FieldProperties.TimeEncodingsAgree | zap_fields.go:91-95 | both encodings of a time field render the same instant and location the same way, whatever methods the time and location types have |
| FieldProperties.GenericKindsUseAny | zap_fields.go:100-107 | reflect, array, object, inline and unnamed kinds go to `Any` on the interface slot |
| FieldProperties.NilPayloadIsNilString | zap_fields_test.go:124 | a nil payload of a generic kind (a nil `*bool`, a nil marshaler) gives `<nil>`, not false |
| FieldProperties.BoolAgreesWithAny | zap_fields.go:54-55 | a typed bool field and `Any` on the bool agree |
| FieldProperties.Int64AgreesWithAny | zap_fields.go:57-66 | a typed integer field and `Any` on the integer agree |
| FieldProperties.Uint64AgreesWithAny | zap_fields.go:64-66 | a typed unsigned field and `Any` on the unsigned value agree, wrap-around included |
| FieldProperties.Float64AgreesWithAny | zap_fields.go:70-71 | a typed float64 field decodes the same float that `Any` gets |
| FieldProperties.Float32AgreesWithAny | zap_fields.go:68-69 | a typed float32 field and `Any` widen the same float |
| FieldProperties.BinaryAgreesWithAny | zap_fields.go:82-83 | a binary field and `Any` on the same `[]byte` agree |
| FieldProperties.ByteStringDiffersFromAny | zap_fields.go:84-85 | for any non-empty bytes, a byte-string field differs from `Any` on those bytes |
| FieldProperties.AnyNil | zap_fields.go:136-137 | `Any` of nil is the string `<nil>` |
| FieldProperties.AnySignedWidens | zap_fields.go:151-163 | every signed width gives a 64-bit integer with the same value |
| FieldProperties.AnyUnsignedWraps | zap_fields.go:167-176 | unsigned values keep their value below 2^63 and become negative, 2^64 lower, above it |
| FieldProperties.FastPathAgreesWithReflection | zap_fields.go:139-183 | on every predeclared type it names except `[]byte` and nil, the type switch gives what reflection would |
| FieldProperties.ByteSliceFastPathDiffers | zap_fields.go:148-149 | for `[]byte` the switch gives base64 text where reflection would give an integer slice |
| FieldProperties.AnyUintptrByReflection | zap_fields.go:200-201 | a `uintptr`, which the switch does not name, is converted by reflection |
| FieldProperties.TextMarshalerWins | zap_fields.go:185-188 | a successful `MarshalText` decides the result, whatever else the type offers |
| FieldProperties.StringerSecond | zap_fields.go:190-191 | `String()` decides the result for a type that is not a `TextMarshaler` |
| FieldProperties.FailedMarshalTextGoesToReflection | zap_fields.go:185-192 | a failed `MarshalText` leaves the type switch without a result, so the value goes on to reflection and then JSON and `fmt.Sprint`, not to the `Stringer` case |
| FieldProperties.ReflectedScalars | zap_fields.go:195-205 | a capability-free named scalar type converts by its reflected kind |
| FieldProperties.ReflectedLists | zap_fields.go:207-219 | a capability-free slice or array of bool, integer, unsigned, float64 or string elements gives the matching slice, element by element |
| FieldProperties.JSONBeforeSprint | zap_fields.go:222-228 | JSON is used when it succeeds; `fmt.Sprint` only when JSON fails |
| FieldProperties.TestAttributesOrder | zap_fields_test.go:172-182 | an extra attribute, a context field and a call field come out in that order |
| SpanLogger.Rank | span_logger.go:44-46 | zap's numeric level order, which the wrapped core compares: every level lies between -1 (debug) and 5 (fatal), and only info is 0 |
| SpanLogger.LevelName | span_logger.go:71 | every level has a non-empty name |
| SpanLogger.LevelsDistinct | span_logger.go:71 | distinct levels have distinct ranks and distinct names |
| SpanLogger.Span.constructor | span_logger.go:15-16 | a new span has the given recording flag and no events |
| SpanLogger.Span.IsRecording | span_logger.go:16 | reports the span's recording flag |
| SpanLogger.Span.AddEvent | span_logger.go:69-73 | adding an event appends exactly it to the span's events |
| SpanLogger.CoreEnabled | span_logger.go:45 | an output core admits exactly the levels from its minimum on; for the modelled cores, the fatal level is always admitted |
| SpanLogger.EnabledUpward | span_logger.go:44-46 | for the modelled cores, admitting a level implies admitting every more severe level |
| SpanLogger.Enabled | span_logger.go:44-46 | the sink is enabled exactly when its wrapped core is |
| SpanLogger.SinkAddsNoFiltering | span_logger.go:20-26 | a core teed with a span sink around it admits exactly the levels that the core alone admits |
| SpanLogger.With | span_logger.go:49-55 | a new sink with the same core and span, and the fields appended to its context fields |
| SpanLogger.WithChained | span_logger.go:49-55 | chained `With` calls accumulate in call order, and so do their attributes |
| SpanLogger.CoreWith | span_logger.go:51 | adding fields keeps a core's shape: a tee passes them to both sides, and every span sink gathers them |
| SpanLogger.CoreWithKeepsLevels | span_logger.go:51 | adding fields never changes which levels a core admits |
| SpanLogger.CheckedEntry.constructor | span_logger.go:58-60 | a new checked entry holds the entry and no cores |
| SpanLogger.AddCore | span_logger.go:60 | a nil checked entry is allocated for the entry; the core is appended |
| SpanLogger.Check | span_logger.go:58-64 | the sink joins the checked entry exactly when the level is enabled; otherwise the checked entry comes back untouched, nil or not |
| SpanLogger.EntryAttributes | span_logger.go:71-72 | two attributes, `zap.level` and `zap.logger_name`, in that order |
| SpanLogger.EventAttributes | span_logger.go:70-73 | the event's attributes start with the two entry attributes and continue with the context fields' then the call fields' conversions |
| SpanLogger.EventLayout | span_logger.go:68-73 | an event has the two entry attributes first, then one attribute per non-skipped field, keyed like the field, context fields before call fields |
| SpanLogger.Write | span_logger.go:68-76 | exactly one event is appended to the span, named by the message and carrying the entry's, the context fields' and the call fields' attributes; the error is nil |
| SpanLogger.Sync | span_logger.go:79-81 | always nil |
| SpanLogger.Logger.constructor | span_logger.go:15 | a logger with the given name and core |
| SpanLogger.SpanLogger | span_logger.go:15-29 | with no span, or a span that does not record, the very same logger comes back; otherwise a new logger whose core tees the old one with a span sink around it |
| SpanLogger.ScenarioSink | span_logger_test.go:35-37 | two chained `With` calls leave the sink with both fields, in call order |
| SpanLogger.ScenarioAttributes | span_logger_test.go:39-47 | the attributes of the scenario's info call: level, logger name, `bar`, `baz`, `foo` |
| SpanLogger.InfoAndDebugScenario | span_logger_test.go:21-51 | an info call records exactly one event with the expected attributes, and a debug call against an info-level core records none |

## Left out

- The float32 to float64 widening is a parameter, not IEEE-754 arithmetic. So the model cannot show that `float32(132.0)` becomes `132.0` as a float64.
- Floats are kept as bit patterns. No floating-point value is interpreted.
- `strconv.FormatComplex`, `Duration.String` and RFC 3339 formatting are parameters. Their output text is not modelled.
- A `*time.Location` is reduced to its name. RFC 3339 formatting gets the instant and the location's name, not the location's offset, so two fixed zones with the same name and different offsets format alike in the model. TimeEncodingsAgree relies on this reduction.
- `json.Marshal` and `fmt.Sprint` are parameters. `json.Marshal` may fail for any value. The model does not force it to fail on values that the real encoder rejects, such as complex numbers.
- The exact JSON text that zap's own encoder writes is not modelled. That is zap's code.
- `HTTPHeader` is not modelled. Its behaviour is that of `http.Header.WriteSubset`. Only its helper `excludeMap` is modelled.
- `SpanLoggerFromContext` is not modelled. It only looks the span up in a context.
- The following zap and OpenTelemetry plumbing is not modelled: `zapcore.NewTee` beyond a two-core tee, `zap.WrapCore`, `Logger.WithOptions`, the writing side of output cores, and the logger's own check-then-write dispatch. The scenario calls the span sink directly.
- AppendZapField, FieldAttribute, AttributesFromZapFields, Write: a payload of the wrong type makes Go panic in a type assertion. The model requires well-typed payloads (`ValidPayload`) instead of modelling the panic.
- Slice identity is stated as value equality. This applies to `concatFields` returning one of its arguments and to `attributesFromZapFields` returning `extra`. Go's capacity and aliasing are not modelled.
- ToBoolSlice, ToInt64Slice, ToUint64Slice, ToFloat64Slice, ToStringSlice: the reflected elements come in as a sequence of what `reflect.Value`'s accessors return. `reflect` itself is not modelled.
- ExcludeMap: Go returns a nil map for an empty key list. Here that is the empty map, which Go treats the same way when reading.
- Go's `int` and `uint` are taken to be 64 bits wide.
- Levels are zap's seven named levels. Custom numeric levels are not modelled.
- `trace.Span` is reduced to its recording flag and its list of events. It stands for the tests' recording mock: `AddEvent` always appends, and the flag never changes. A real OpenTelemetry span that does not record, or has ended, drops events; that is not modelled.
- CoreEnabled, EnabledUpward: wrapped cores are modelled as level-threshold output cores, two-core tees and the span sink. zap's no-op core (which admits no level) and cores with an arbitrary `LevelEnablerFunc` are not modelled. That every core admits the fatal level, and that admitting a level implies admitting every more severe one, hold only for the modelled cores.
- The package's exported `AppendZapFields` is defined outside zap_fields.go and is not modelled.
