/** Conversion of zap's structured log fields into OpenTelemetry
    attributes: one field at a time (`AppendZapField`), an arbitrary value
    through a fixed fallback chain (`Any`), and whole field lists
    (`AttributesFromZapFields`). */
module ZapFields {
  import opened GoTypes
  import opened Attribute
  import opened GoValues
  import Base64

  /** zapcore.FieldType: the kind tag of a field. `UnknownType` stands for
      every code the package does not name. */
  datatype FieldType =
    | UnknownType
    | ArrayMarshalerType | ObjectMarshalerType | InlineMarshalerType | ReflectType
    | BinaryType | ByteStringType | StringType | StringerType | ErrorType
    | BoolType
    | Complex128Type | Complex64Type
    | DurationType | TimeType | TimeFullType
    | Float64Type | Float32Type
    | Int64Type | Int32Type | Int16Type | Int8Type
    | Uint64Type | Uint32Type | Uint16Type | Uint8Type | UintptrType
    | NamespaceType | SkipType

  /** zapcore.Field: a key, a kind tag and three payload slots; which slot
      carries the value depends on the kind. */
  datatype Field = Field(Key: string, Type: FieldType, Integer: int64, String: string, Interface: Value)

  /** The kinds that produce no attribute. */
  predicate Skipped(t: FieldType) {
    t == SkipType || t == NamespaceType
  }

  /** The payload types that the conversion's type assertions demand: a
      field whose `Interface` slot holds anything else makes Go panic. */
  predicate ValidPayload(field: Field) {
    match field.Type
    case Complex64Type => field.Interface.Complex64?
    case Complex128Type => field.Interface.Complex128?
    case BinaryType | ByteStringType => field.Interface.ByteSlice?
    case StringerType => StringerOf(field.Interface).Some?
    case ErrorType => ErrorOf(field.Interface).Some?
    case TimeType => field.Interface.Other? && field.Interface.o.reflected.RLocation?
    case TimeFullType => field.Interface.Other? && field.Interface.o.reflected.RTime?
    case _ => true
  }

  /** Only the kinds whose conversion asserts the payload's type can be
      ill-typed, and a byte-slice kind is well-typed exactly when its payload
      is a byte slice. */
  lemma ValidPayloadKinds(field: Field)
    ensures (field.Type !in {Complex64Type, Complex128Type, BinaryType, ByteStringType,
                             StringerType, ErrorType, TimeType, TimeFullType}) ==> ValidPayload(field)
    ensures field.Type == BinaryType || field.Type == ByteStringType ==>
              (ValidPayload(field) <==> field.Interface.ByteSlice?)
  {
  }

  predicate AllValid(fields: seq<Field>) {
    forall i :: 0 <= i < |fields| ==> ValidPayload(fields[i])
  }

  /** appendZapField: the input list, unchanged for the skip and namespace
      kinds and otherwise extended by one attribute with the field's key. */
  function AppendZapField(attributes: seq<KeyValue>, field: Field, lib: GoLibrary): (r: seq<KeyValue>)
    requires ValidPayload(field)
    ensures Skipped(field.Type) ==> r == attributes
    ensures !Skipped(field.Type) ==>
              |r| == |attributes| + 1 && r[..|attributes|] == attributes && r[|attributes|].Key == field.Key
  {
    if Skipped(field.Type) then attributes
    else attributes + [FieldAttribute(field, lib)]
  }

  /** The attribute of a field of any kind but skip and namespace: the
      cases of appendZapField's switch that append. */
  function FieldAttribute(field: Field, lib: GoLibrary): (kv: KeyValue)
    requires ValidPayload(field) && !Skipped(field.Type)
    ensures kv.Key == field.Key
  {
    var key := field.Key;
    match field.Type
    case BoolType => KeyValue(key, BoolValue(field.Integer != 0))
    case Int8Type | Int16Type | Int32Type | Int64Type
       | Uint8Type | Uint16Type | Uint32Type | Uint64Type | UintptrType =>
      KeyValue(key, Int64Value(field.Integer))
    case Float32Type =>
      KeyValue(key, Float64Value(lib.widen(Float32frombits(ToUint32(field.Integer)))))
    case Float64Type =>
      KeyValue(key, Float64Value(Float64frombits(ToUint64(field.Integer))))
    case Complex64Type =>
      var c := field.Interface;
      KeyValue(key, StringValue(lib.formatComplex(lib.widen(c.re32), lib.widen(c.im32), 'E', 64)))
    case Complex128Type =>
      var c := field.Interface;
      KeyValue(key, StringValue(lib.formatComplex(c.re, c.im, 'E', 128)))
    case StringType => KeyValue(key, StringValue(field.String))
    case BinaryType => KeyValue(key, StringValue(Base64.EncodeToString(field.Interface.bytes)))
    case ByteStringType => KeyValue(key, StringValue(BytesToString(field.Interface.bytes)))
    case StringerType => KeyValue(key, StringValue(StringerOf(field.Interface).value))
    case DurationType => KeyValue(key, StringValue(lib.durationString(field.Integer)))
    case TimeType =>
      var loc := field.Interface.o.reflected.name;
      KeyValue(key, StringValue(lib.formatRFC3339Nano(field.Integer, loc)))
    case TimeFullType =>
      var t := field.Interface.o.reflected;
      KeyValue(key, StringValue(lib.formatRFC3339Nano(t.unixNanos, t.location)))
    case ErrorType => KeyValue(key, StringValue(ErrorOf(field.Interface).value))
    case ReflectType | ArrayMarshalerType | ObjectMarshalerType | InlineMarshalerType | UnknownType =>
      Any(key, field.Interface, lib)
  }

  /** Any: exactly one attribute, always with the given key. */
  function Any(key: string, value: Value, lib: GoLibrary): (kv: KeyValue)
    ensures kv.Key == key
    ensures Produced(kv.Value, value, lib)
  {
    KeyValue(key, AnyValue(value, lib))
  }

  /** The type switch of `Any`: `Some` when one of its cases returns, `None`
      when no case matches or a failed `MarshalText` breaks out of it. */
  function TypeSwitch(value: Value, lib: GoLibrary): (r: Option<AttrValue>)
    ensures value.Nil? ==> r == Some(StringValue("<nil>"))
    ensures value.Uintptr? || value.Complex64? || value.Complex128? ==> r.None?
    ensures value.Other? && value.o.textMarshal.MarshalFailed? ==> r.None?
    ensures value.Other? && value.o.textMarshal.MarshalOk? ==> r.Some? && r.value.StringValue?
  {
    match value
    case Nil => Some(StringValue("<nil>"))
    case Bool(b) => Some(BoolValue(b))
    case BoolSlice(bs) => Some(BoolSliceValue(bs))
    case String(s) => Some(StringValue(s))
    case StringSlice(ss) => Some(StringSliceValue(ss))
    case ByteSlice(bytes) => Some(StringValue(Base64.EncodeToString(bytes)))
    case Int(i) => Some(Int64Value(i))
    case IntSlice(ints) => Some(Int64SliceValue(ints))
    case Int8(i) => Some(Int64Value(i))
    case Int16(i) => Some(Int64Value(i))
    case Int32(i) => Some(Int64Value(i))
    case Int64(i) => Some(Int64Value(i))
    case Int64Slice(ints) => Some(Int64SliceValue(ints))
    case Uint(u) => Some(Int64Value(ToInt64(u)))
    case Uint8(u) => Some(Int64Value(ToInt64(u)))
    case Uint16(u) => Some(Int64Value(ToInt64(u)))
    case Uint32(u) => Some(Int64Value(ToInt64(u)))
    case Uint64(u) => Some(Int64Value(ToInt64(u)))
    case Float32(f) => Some(Float64Value(lib.widen(f)))
    case Float64(f) => Some(Float64Value(f))
    case Float64Slice(fs) => Some(Float64SliceValue(fs))
    case Other(o) =>
      (match o.textMarshal
       case MarshalOk(text) => Some(StringValue(BytesToString(text)))
       case MarshalFailed => None   // `break`: on to reflection
       case NotTextMarshaler =>
         if o.stringer.Some? then Some(StringValue(o.stringer.value)) else None)
    case Uintptr(_) | Complex64(_, _) | Complex128(_, _) => None
  }

  /** The switch on the reflected kind: `None` when no case matches. */
  function ByReflection(value: Value, lib: GoLibrary): (r: Option<AttrValue>)
    ensures var k := ReflectOf(value, lib);
            k.RTime? || k.RLocation? || k.RInvalid? || k.ROther? ==> r.None?
    ensures var k := ReflectOf(value, lib);
            k.RList? && (k.elems.Float32Elems? || k.elems.OtherElems?) ==> r.None?
    ensures value.Nil? ==> r.None?
  {
    match ReflectOf(value, lib)
    case RBool(b) => Some(BoolValue(b))
    case RInt(i) => Some(Int64Value(i))
    case RUint(u) => Some(Int64Value(ToInt64(u)))
    case RFloat(f) => Some(Float64Value(f))
    case RString(s) => Some(StringValue(s))
    case RList(elems) =>
      (match elems
       case BoolElems(bs) => Some(BoolSliceValue(bs))
       case IntElems(ints) => Some(Int64SliceValue(ints))
       case UintElems(us) => Some(Int64SliceValue(Uint64sToInt64s(us)))
       case Float64Elems(fs) => Some(Float64SliceValue(fs))
       case StringElems(ss) => Some(StringSliceValue(ss))
       case Float32Elems(_) | OtherElems => None)
    case RTime(_, _) | RLocation(_) | RInvalid | ROther => None
  }

  /** The JSON encoding, then `fmt.Sprint` as the final option. */
  function Serialized(value: Value, lib: GoLibrary): (a: AttrValue)
    ensures a.StringValue?
    ensures lib.marshalJSON(value).None? ==> a.s == lib.sprint(value)
    ensures lib.marshalJSON(value).Some? ==> a.s == BytesToString(lib.marshalJSON(value).value)
  {
    match lib.marshalJSON(value)
    case Some(b) => StringValue(BytesToString(b))
    case None => StringValue(lib.sprint(value))
  }

  /** The value part of `Any`, in the order of the source: type switch,
      reflection, JSON, `fmt.Sprint`. */
  function AnyValue(value: Value, lib: GoLibrary): (a: AttrValue)
    ensures Produced(a, value, lib)
  {
    FirstSuccessOfFive(ExactTypeAttempt(value, lib), TextAttempt(value), StringerAttempt(value),
                       ByReflection(value, lib), JSONAttempt(value, lib), StringValue(lib.sprint(value)));
    match TypeSwitch(value, lib)
    case Some(a) => a
    case None =>
      match ByReflection(value, lib)
      case Some(a) => a
      case None => Serialized(value, lib)
  }

  /** `toUint64Slice`'s element conversion, `int64(re.Uint())`. */
  function Uint64sToInt64s(us: seq<uint64>): (r: seq<int64>)
    ensures |r| == |us|
    ensures forall i :: 0 <= i < |us| ==> r[i] == ToInt64(us[i])
  {
    seq(|us|, i requires 0 <= i < |us| => ToInt64(us[i]))
  }

  // ---------------------------------------------------------------------
  // The priority chain of `Any`, stated as an ordered list of attempts.

  /** Exact dynamic type: the predeclared types the switch names. This is
      the type switch restricted to those types; `FastPathAgreesWithReflection`
      checks it against the independent reflection path. */
  function ExactTypeAttempt(value: Value, lib: GoLibrary): Option<AttrValue> {
    if value.Other? || value.Uintptr? || value.Complex64? || value.Complex128? then None
    else TypeSwitch(value, lib)
  }

  /** A successful `MarshalText`. */
  function TextAttempt(value: Value): Option<AttrValue> {
    if value.Other? && value.o.textMarshal.MarshalOk? then Some(StringValue(BytesToString(value.o.textMarshal.text)))
    else None
  }

  /** `String()`, reached only by types that are not `TextMarshaler`s: a
      type switch takes the first case whose type matches, so a type with a
      failing `MarshalText` never reaches the `fmt.Stringer` case. */
  function StringerAttempt(value: Value): Option<AttrValue> {
    if value.Other? && value.o.textMarshal.NotTextMarshaler? && value.o.stringer.Some?
    then Some(StringValue(value.o.stringer.value))
    else None
  }

  function JSONAttempt(value: Value, lib: GoLibrary): Option<AttrValue> {
    match lib.marshalJSON(value)
    case Some(b) => Some(StringValue(BytesToString(b)))
    case None => None
  }

  function Attempts(value: Value, lib: GoLibrary): seq<Option<AttrValue>> {
    [ExactTypeAttempt(value, lib), TextAttempt(value), StringerAttempt(value),
     ByReflection(value, lib), JSONAttempt(value, lib)]
  }

  /** The first attempt that succeeds, or the fallback. */
  function FirstSuccess(attempts: seq<Option<AttrValue>>, fallback: AttrValue): AttrValue {
    if attempts == [] then fallback
    else if attempts[0].Some? then attempts[0].value
    else FirstSuccess(attempts[1..], fallback)
  }

  /** What the chain produces: the first successful attempt, with
      `fmt.Sprint` as the fallback that never fails. */
  ghost predicate Produced(a: AttrValue, value: Value, lib: GoLibrary) {
    a == FirstSuccess(Attempts(value, lib), StringValue(lib.sprint(value)))
  }

  lemma FirstSuccessOfFive(x0: Option<AttrValue>, x1: Option<AttrValue>, x2: Option<AttrValue>,
                           x3: Option<AttrValue>, x4: Option<AttrValue>, fallback: AttrValue)
    ensures FirstSuccess([x0, x1, x2, x3, x4], fallback) ==
      if x0.Some? then x0.value else if x1.Some? then x1.value else if x2.Some? then x2.value
      else if x3.Some? then x3.value else if x4.Some? then x4.value else fallback
  {
    var s := [x0, x1, x2, x3, x4];
    assert s[1..] == [x1, x2, x3, x4];
    assert [x1, x2, x3, x4][1..] == [x2, x3, x4];
    assert [x2, x3, x4][1..] == [x3, x4];
    assert [x3, x4][1..] == [x4];
    assert [x4][1..] == [];
    assert FirstSuccess([x4], fallback) == if x4.Some? then x4.value else fallback;
    assert FirstSuccess([x3, x4], fallback) == if x3.Some? then x3.value else FirstSuccess([x4], fallback);
    assert FirstSuccess([x2, x3, x4], fallback) == if x2.Some? then x2.value else FirstSuccess([x3, x4], fallback);
    assert FirstSuccess([x1, x2, x3, x4], fallback) == if x1.Some? then x1.value else FirstSuccess([x2, x3, x4], fallback);
  }

  // ---------------------------------------------------------------------
  // The toXSlice helpers: each fills a preallocated slice element by element.

  method ToBoolSlice(rv: seq<bool>) returns (r: seq<bool>)
    ensures |r| == |rv|
    ensures forall i :: 0 <= i < |rv| ==> r[i] == rv[i]
    ensures r == rv
  {
    var n := |rv|;
    var out := new bool[n];
    for i := 0 to n
      invariant forall j :: 0 <= j < i ==> out[j] == rv[j]
    {
      out[i] := rv[i];
    }
    r := out[..];
  }

  method ToInt64Slice(rv: seq<int64>) returns (r: seq<int64>)
    ensures |r| == |rv|
    ensures forall i :: 0 <= i < |rv| ==> r[i] == rv[i]
    ensures r == rv
  {
    var n := |rv|;
    var out := new int64[n];
    for i := 0 to n
      invariant forall j :: 0 <= j < i ==> out[j] == rv[j]
    {
      out[i] := rv[i];
    }
    r := out[..];
  }

  /** Unsigned elements are converted with `int64(...)`: values above
      2^63-1 wrap, and nothing is lost. */
  method ToUint64Slice(rv: seq<uint64>) returns (r: seq<int64>)
    ensures |r| == |rv|
    ensures forall i :: 0 <= i < |rv| ==> r[i] == ToInt64(rv[i])
    ensures forall i :: 0 <= i < |rv| ==> ToUint64(r[i]) == rv[i]
    ensures r == Uint64sToInt64s(rv)
  {
    var n := |rv|;
    var out := new int64[n];
    for i := 0 to n
      invariant forall j :: 0 <= j < i ==> out[j] == ToInt64(rv[j])
    {
      out[i] := ToInt64(rv[i]);
    }
    r := out[..];
    forall i | 0 <= i < |rv|
      ensures ToUint64(r[i]) == rv[i]
    {
      ToUint64ToInt64(rv[i]);
    }
  }

  method ToFloat64Slice(rv: seq<float64>) returns (r: seq<float64>)
    ensures |r| == |rv|
    ensures forall i :: 0 <= i < |rv| ==> r[i] == rv[i]
    ensures r == rv
  {
    var n := |rv|;
    var out := new float64[n];
    for i := 0 to n
      invariant forall j :: 0 <= j < i ==> out[j] == rv[j]
    {
      out[i] := rv[i];
    }
    r := out[..];
  }

  method ToStringSlice(rv: seq<string>) returns (r: seq<string>)
    ensures |r| == |rv|
    ensures forall i :: 0 <= i < |rv| ==> r[i] == rv[i]
    ensures r == rv
  {
    var n := |rv|;
    var out := new string[n];
    for i := 0 to n
      invariant forall j :: 0 <= j < i ==> out[j] == rv[j]
    {
      out[i] := rv[i];
    }
    r := out[..];
  }

  // ---------------------------------------------------------------------
  // Field lists.

  /** The attributes of one field on its own: none or one. */
  function ConvertField(field: Field, lib: GoLibrary): (r: seq<KeyValue>)
    requires ValidPayload(field)
    ensures |r| == if Skipped(field.Type) then 0 else 1
    ensures !Skipped(field.Type) ==> r[0].Key == field.Key
  {
    AppendZapField([], field, lib)
  }

  /** The conversions of a field list, each field's in turn. */
  function Converted(fields: seq<Field>, lib: GoLibrary): seq<KeyValue>
    requires AllValid(fields)
    decreases |fields|
  {
    if fields == [] then []
    else Converted(fields[..|fields| - 1], lib) + ConvertField(fields[|fields| - 1], lib)
  }

  /** The fields that produce an attribute, in order. */
  function Kept(fields: seq<Field>): (r: seq<Field>)
    ensures |r| <= |fields|
    decreases |fields|
  {
    if fields == [] then []
    else
      var init := Kept(fields[..|fields| - 1]);
      if Skipped(fields[|fields| - 1].Type) then init else init + [fields[|fields| - 1]]
  }

  function FieldKeys(fields: seq<Field>): (ks: seq<string>)
    ensures |ks| == |fields|
    ensures forall i :: 0 <= i < |fields| ==> ks[i] == fields[i].Key
  {
    seq(|fields|, i requires 0 <= i < |fields| => fields[i].Key)
  }

  /** Appending one field's attribute only ever extends the list by that
      field's own conversion, whatever came before. */
  lemma AppendZapFieldExtends(attributes: seq<KeyValue>, field: Field, lib: GoLibrary)
    requires ValidPayload(field)
    ensures AppendZapField(attributes, field, lib) == attributes + ConvertField(field, lib)
  {
  }

  /** The converted list has one attribute per kept field, with that
      field's key, in the order of the fields: no reordering and no
      deduplication. */
  lemma {:induction false} ConvertedKeys(fields: seq<Field>, lib: GoLibrary)
    requires AllValid(fields)
    ensures Keys(Converted(fields, lib)) == FieldKeys(Kept(fields))
    ensures |Converted(fields, lib)| == |Kept(fields)|
    decreases |fields|
  {
    if fields != [] {
      var init := fields[..|fields| - 1];
      var last := fields[|fields| - 1];
      ConvertedKeys(init, lib);
      var c := Converted(init, lib);
      var k := Kept(init);
      var one := ConvertField(last, lib);
      assert Converted(fields, lib) == c + one;
      KeysConcat(c, one);
      if Skipped(last.Type) {
        assert Keys(one) == [];
        assert Kept(fields) == k;
      } else {
        assert Keys(one) == [last.Key];
        assert Kept(fields) == k + [last];
        assert FieldKeys(k + [last]) == FieldKeys(k) + [last.Key];
      }
    }
  }

  lemma AllValidConcat(a: seq<Field>, b: seq<Field>)
    requires AllValid(a) && AllValid(b)
    ensures AllValid(a + b)
  {
    forall i | 0 <= i < |a + b| ensures ValidPayload((a + b)[i]) {
      if i < |a| { assert (a + b)[i] == a[i]; } else { assert (a + b)[i] == b[i - |a|]; }
    }
  }

  /** Conversion distributes over concatenation of field lists. */
  lemma {:induction false} ConvertedConcat(a: seq<Field>, b: seq<Field>, lib: GoLibrary)
    requires AllValid(a) && AllValid(b)
    ensures AllValid(a + b)
    ensures Converted(a + b, lib) == Converted(a, lib) + Converted(b, lib)
    decreases |b|
  {
    AllValidConcat(a, b);
    if b == [] {
      assert a + b == a;
    } else {
      var init := b[..|b| - 1];
      var last := b[|b| - 1];
      assert AllValid(init);
      ConvertedConcat(a, init, lib);
      assert (a + b)[..|a + b| - 1] == a + init;
      assert (a + b)[|a + b| - 1] == last;
      calc {
        Converted(a + b, lib);
        Converted(a + init, lib) + ConvertField(last, lib);
        Converted(a, lib) + Converted(init, lib) + ConvertField(last, lib);
        Converted(a, lib) + Converted(b, lib);
      }
    }
  }

  /** A list of one field converts like the field on its own. */
  lemma SingleConverted(fields: seq<Field>, lib: GoLibrary)
    requires |fields| == 1 && ValidPayload(fields[0])
    ensures AllValid(fields) && Converted(fields, lib) == ConvertField(fields[0], lib)
  {
    assert fields[..0] == [];
  }

  /** A list of two fields converts like the first, then the second. */
  lemma PairConverted(a: Field, b: Field, lib: GoLibrary)
    requires ValidPayload(a) && ValidPayload(b)
    ensures AllValid([a, b]) && Converted([a, b], lib) == ConvertField(a, lib) + ConvertField(b, lib)
  {
    assert [a, b][..1] == [a];
    SingleConverted([a], lib);
  }

  /** One more field on the right: the loop step of
      `AttributesFromZapFields`. */
  lemma ConvertedPrefix(fields: seq<Field>, i: nat, lib: GoLibrary)
    requires AllValid(fields) && i < |fields|
    ensures AllValid(fields[..i]) && AllValid(fields[..i + 1])
    ensures Converted(fields[..i + 1], lib) == Converted(fields[..i], lib) + ConvertField(fields[i], lib)
  {
    assert fields[..i + 1][..i] == fields[..i];
  }

  /** The loop step of `AttributesFromZapFields`: appending the next field
      to a list that ends in the conversion of the fields so far gives a list
      that ends in the conversion of one field more. */
  lemma AppendStep(prefix: seq<KeyValue>, attrs: seq<KeyValue>, fields: seq<Field>, i: nat, lib: GoLibrary)
    requires AllValid(fields) && i < |fields|
    requires AllValid(fields[..i]) && attrs == prefix + Converted(fields[..i], lib)
    ensures AllValid(fields[..i + 1])
    ensures AppendZapField(attrs, fields[i], lib) == prefix + Converted(fields[..i + 1], lib)
  {
    ConvertedPrefix(fields, i, lib);
    AppendZapFieldExtends(attrs, fields[i], lib);
  }

  /** attributesFromZapFields: the extra attributes as they are, then the
      conversions of the context fields, then those of the call fields.
      With no fields at all the result is exactly `extra`. */
  method AttributesFromZapFields(with: seq<Field>, fields: seq<Field>, extra: seq<KeyValue>, lib: GoLibrary)
    returns (attrs: seq<KeyValue>)
    requires AllValid(with) && AllValid(fields)
    ensures attrs == extra + Converted(with, lib) + Converted(fields, lib)
    ensures |with| + |fields| == 0 ==> attrs == extra
  {
    if |with| + |fields| == 0 {
      return extra;
    }
    attrs := extra;
    for i := 0 to |with|
      invariant AllValid(with[..i])
      invariant attrs == extra + Converted(with[..i], lib)
    {
      AppendStep(extra, attrs, with, i, lib);
      attrs := AppendZapField(attrs, with[i], lib);
    }
    assert with[..|with|] == with;
    for i := 0 to |fields|
      invariant AllValid(fields[..i])
      invariant attrs == extra + Converted(with, lib) + Converted(fields[..i], lib)
    {
      AppendStep(extra + Converted(with, lib), attrs, fields, i, lib);
      attrs := AppendZapField(attrs, fields[i], lib);
    }
    assert fields[..|fields|] == fields;
  }

  /** concatFields: an empty operand gives back the other one unchanged;
      either way the result is the concatenation. */
  function ConcatFields(a: seq<Field>, b: seq<Field>): (r: seq<Field>)
    ensures r == a + b
    ensures |r| == |a| + |b|
  {
    if |a| == 0 then b
    else if |b| == 0 then a
    else a + b
  }

  /** excludeMap: the set of keys, each mapped to true. */
  method ExcludeMap(keys: seq<string>) returns (m: map<string, bool>)
    ensures forall k :: k in m <==> k in keys
    ensures forall k :: k in m ==> m[k]
  {
    if |keys| == 0 {
      return map[];
    }
    m := map[];
    for i := 0 to |keys|
      invariant forall k :: k in m <==> k in keys[..i]
      invariant forall k :: k in m ==> m[k]
    {
      m := m[keys[i] := true];
    }
    assert keys[..|keys|] == keys;
  }
}
