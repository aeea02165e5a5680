/** What the conversion promises about particular kinds of field and
    particular values: typed fields agree with the generic `Any` path,
    the order of `Any`'s fallback chain, and the values pinned down by the
    package's tests. */
module FieldProperties {
  import opened GoTypes
  import opened Attribute
  import opened GoValues
  import opened ZapFields
  import Base64

  /** A field of the given kind whose payload sits in the integer slot. */
  function IntegerField(key: string, t: FieldType, n: int64): (f: Field)
    ensures f.Key == key && f.Type == t && f.Integer == n
  {
    Field(key, t, n, "", Nil)
  }

  /** A field of the given kind whose payload sits in the interface slot. */
  function InterfaceField(key: string, t: FieldType, v: Value): (f: Field)
    ensures f.Key == key && f.Type == t && f.Interface == v
  {
    Field(key, t, 0, "", v)
  }

  // ---------------------------------------------------------------------
  // appendZapField, kind by kind.

  /** Skip and namespace fields add nothing, whatever list they are
      appended to. */
  lemma SkippedKindsAddNothing(attributes: seq<KeyValue>, field: Field, lib: GoLibrary)
    requires ValidPayload(field) && Skipped(field.Type)
    ensures AppendZapField(attributes, field, lib) == attributes
    ensures ConvertField(field, lib) == []
  {
  }

  /** A bool field is true exactly when its integer slot is non-zero. */
  lemma BoolKind(field: Field, lib: GoLibrary)
    requires field.Type == BoolType
    ensures ConvertField(field, lib) == [KeyValue(field.Key, BoolValue(field.Integer != 0))]
  {
  }

  /** The predicate for the nine integer kinds. */
  predicate IntegerKind(t: FieldType) {
    t in {Int8Type, Int16Type, Int32Type, Int64Type,
          Uint8Type, Uint16Type, Uint32Type, Uint64Type, UintptrType}
  }

  /** Every integer kind, signed or not, passes the integer slot through
      unchanged as a 64-bit integer attribute. */
  lemma IntegerKindsPassThrough(field: Field, lib: GoLibrary)
    requires IntegerKind(field.Type)
    ensures ConvertField(field, lib) == [KeyValue(field.Key, Int64Value(field.Integer))]
  {
  }

  /** A string field is its string slot; a byte-string field is its bytes
      verbatim; a binary field is their padded standard base64 encoding. */
  lemma StringLikeKinds(key: string, s: string, bytes: seq<byte>, lib: GoLibrary)
    ensures ConvertField(Field(key, StringType, 0, s, Nil), lib) == [KeyValue(key, StringValue(s))]
    ensures ConvertField(InterfaceField(key, ByteStringType, ByteSlice(bytes)), lib)
            == [KeyValue(key, StringValue(BytesToString(bytes)))]
    ensures ConvertField(InterfaceField(key, BinaryType, ByteSlice(bytes)), lib)
            == [KeyValue(key, StringValue(Base64.EncodeToString(bytes)))]
  {
  }

  /** The binary encoding loses nothing: the bytes can be recovered from
      the attribute. */
  lemma BinaryRecoverable(key: string, bytes: seq<byte>, lib: GoLibrary)
    ensures Base64.DecodeString(ConvertField(InterfaceField(key, BinaryType, ByteSlice(bytes)), lib)[0].Value.s)
            == Some(bytes)
  {
    Base64.DecodeEncode(bytes);
  }

  /** The binary field of the tests: no bytes give the empty string. */
  lemma BinaryTestValue(lib: GoLibrary)
    ensures ConvertField(InterfaceField("binary", BinaryType, ByteSlice([])), lib)
            == [KeyValue("binary", StringValue(""))]
  {
    Base64.KnownEncodings();
  }

  /** `Any` on the byte slice of the tests gives its base64 text. */
  lemma AnyByteSliceTestValue(lib: GoLibrary)
    ensures Any("base64", ByteSlice([1, 2, 3, 4]), lib) == KeyValue("base64", StringValue("AQIDBA=="))
  {
    Base64.KnownEncodings();
  }

  /** Both encodings of a time field render the same instant the same way:
      nanoseconds in the integer slot with a `*time.Location` as the
      payload, or a whole `time.Time` as the payload. The methods these
      types have (`MarshalText`, `String()`) play no part. */
  lemma TimeEncodingsAgree(key: string, nanos: int64, loc: string, location: Object, time: Object, lib: GoLibrary)
    requires location.reflected == RLocation(loc) && time.reflected == RTime(nanos, loc)
    ensures ConvertField(Field(key, TimeType, nanos, "", Other(location)), lib)
            == ConvertField(InterfaceField(key, TimeFullType, Other(time)), lib)
    ensures ConvertField(Field(key, TimeType, nanos, "", Other(location)), lib)
            == [KeyValue(key, StringValue(lib.formatRFC3339Nano(nanos, loc)))]
  {
  }

  /** Reflect, array, object and inline fields, and kinds the package does
      not name, are converted by `Any` on the interface slot. */
  lemma GenericKindsUseAny(field: Field, lib: GoLibrary)
    requires field.Type in {ReflectType, ArrayMarshalerType, ObjectMarshalerType, InlineMarshalerType, UnknownType}
    ensures ConvertField(field, lib) == [Any(field.Key, field.Interface, lib)]
  {
  }

  /** A nil payload of a generic kind (a nil pointer passed to zap's
      `Boolp`, a nil array or object marshaler) gives the string `<nil>`. */
  lemma NilPayloadIsNilString(key: string, t: FieldType, lib: GoLibrary)
    requires t in {ReflectType, ArrayMarshalerType, ObjectMarshalerType, InlineMarshalerType}
    ensures ConvertField(InterfaceField(key, t, Nil), lib) == [KeyValue(key, StringValue("<nil>"))]
  {
  }

  // ---------------------------------------------------------------------
  // Typed fields agree with `Any` on the same Go value.

  /** zap stores a bool as 1 or 0: the typed field gives what `Any` gives
      for the bool itself. */
  lemma BoolAgreesWithAny(key: string, b: bool, lib: GoLibrary)
    ensures ConvertField(IntegerField(key, BoolType, if b then 1 else 0), lib) == [Any(key, Bool(b), lib)]
  {
  }

  /** zap stores a signed integer in the integer slot. */
  lemma Int64AgreesWithAny(key: string, i: int64, lib: GoLibrary)
    ensures ConvertField(IntegerField(key, Int64Type, i), lib) == [Any(key, Int64(i), lib)]
    ensures ConvertField(IntegerField(key, Int64Type, i), lib) == [Any(key, Int(i), lib)]
  {
  }

  /** zap stores an unsigned integer as its `int64` conversion: both paths
      wrap values above 2^63-1 the same way. */
  lemma Uint64AgreesWithAny(key: string, u: uint64, lib: GoLibrary)
    ensures ConvertField(IntegerField(key, Uint64Type, ToInt64(u)), lib) == [Any(key, Uint64(u), lib)]
    ensures ConvertField(IntegerField(key, Uint64Type, ToInt64(u)), lib) == [Any(key, Uint(u), lib)]
  {
  }

  /** zap stores a float64 as its bit pattern in the integer slot; the
      round trip through `int64` gives the same float back. */
  lemma Float64AgreesWithAny(key: string, f: float64, lib: GoLibrary)
    ensures ConvertField(IntegerField(key, Float64Type, ToInt64(f.bits)), lib) == [Any(key, Float64(f), lib)]
  {
    ToUint64ToInt64(f.bits);
  }

  /** zap stores a float32 as its 32-bit pattern; both paths widen it the
      same way. */
  lemma Float32AgreesWithAny(key: string, f: float32, lib: GoLibrary)
    ensures ConvertField(IntegerField(key, Float32Type, f.bits), lib) == [Any(key, Float32(f), lib)]
  {
  }

  /** A binary field and `Any` on the same byte slice agree. */
  lemma BinaryAgreesWithAny(key: string, bytes: seq<byte>, lib: GoLibrary)
    ensures ConvertField(InterfaceField(key, BinaryType, ByteSlice(bytes)), lib) == [Any(key, ByteSlice(bytes), lib)]
  {
  }

  /** A byte-string field differs from `Any` on the same bytes as soon as
      there is one byte: the first is raw, the second base64, which is
      longer. */
  lemma ByteStringDiffersFromAny(key: string, bytes: seq<byte>, lib: GoLibrary)
    requires |bytes| > 0
    ensures ConvertField(InterfaceField(key, ByteStringType, ByteSlice(bytes)), lib) != [Any(key, ByteSlice(bytes), lib)]
  {
    var raw := ConvertField(InterfaceField(key, ByteStringType, ByteSlice(bytes)), lib);
    assert |raw[0].Value.s| == |bytes|;
    assert |Any(key, ByteSlice(bytes), lib).Value.s| == 4 * ((|bytes| + 2) / 3);
  }

  // ---------------------------------------------------------------------
  // Any: the fast path on predeclared types.

  /** nil is the string `<nil>`. */
  lemma AnyNil(key: string, lib: GoLibrary)
    ensures Any(key, Nil, lib) == KeyValue(key, StringValue("<nil>"))
  {
  }

  /** Every signed width widens to a 64-bit integer with the same value. */
  lemma AnySignedWidens(key: string, i: int64, lib: GoLibrary)
    ensures -0x80 <= i < 0x80 ==> Any(key, Int8(i), lib).Value == Int64Value(i)
    ensures -0x8000 <= i < 0x8000 ==> Any(key, Int16(i), lib).Value == Int64Value(i)
    ensures -0x8000_0000 <= i < 0x8000_0000 ==> Any(key, Int32(i), lib).Value == Int64Value(i)
    ensures Any(key, Int64(i), lib).Value == Int64Value(i)
    ensures Any(key, Int(i), lib).Value == Int64Value(i)
  {
  }

  /** Unsigned values keep their value below 2^63 and wrap to negative
      numbers, congruent modulo 2^64, above it. */
  lemma AnyUnsignedWraps(key: string, u: uint64, lib: GoLibrary)
    ensures Any(key, Uint64(u), lib).Value.Int64Value?
    ensures u < TWO_63 ==> Any(key, Uint64(u), lib).Value.i == u
    ensures TWO_63 <= u ==> Any(key, Uint64(u), lib).Value.i == u - TWO_64 < 0
  {
  }

  /** The predeclared types that the type switch names, other than
      `[]byte` and nil, give the same attribute as reflection would: the
      fast path is an optimisation. */
  lemma FastPathAgreesWithReflection(v: Value, lib: GoLibrary)
    requires ExactTypeAttempt(v, lib).Some? && !v.ByteSlice? && !v.Nil?
    ensures ExactTypeAttempt(v, lib) == ByReflection(v, lib)
  {
    if v.Uint8? || v.Uint16? || v.Uint32? || v.Uint? || v.Uint64? {
    }
  }

  /** `[]byte` is where the fast path is not what reflection would give:
      base64 text rather than a slice of integers. */
  lemma ByteSliceFastPathDiffers(bytes: seq<byte>, lib: GoLibrary)
    ensures ExactTypeAttempt(ByteSlice(bytes), lib) == Some(StringValue(Base64.EncodeToString(bytes)))
    ensures ByReflection(ByteSlice(bytes), lib) == Some(Int64SliceValue(Uint64sToInt64s(bytes)))
  {
  }

  /** Types the switch does not name. Uintptr and complex values fall
      through to reflection (uintptr) or JSON (complex). */
  lemma AnyUintptrByReflection(key: string, u: uint64, lib: GoLibrary)
    ensures Any(key, Uintptr(u), lib).Value == Int64Value(ToInt64(u))
  {
  }

  // ---------------------------------------------------------------------
  // Any: the capabilities of named types.

  /** A successful `MarshalText` wins over everything else the type offers. */
  lemma TextMarshalerWins(key: string, o: Object, lib: GoLibrary)
    requires o.textMarshal.MarshalOk?
    ensures Any(key, Other(o), lib) == KeyValue(key, StringValue(BytesToString(o.textMarshal.text)))
  {
  }

  /** `String()` comes next, for types that are not `TextMarshaler`s. */
  lemma StringerSecond(key: string, o: Object, lib: GoLibrary)
    requires o.textMarshal.NotTextMarshaler? && o.stringer.Some?
    ensures Any(key, Other(o), lib) == KeyValue(key, StringValue(o.stringer.value))
  {
  }

  /** A failing `MarshalText` breaks out of the switch and goes on to
      reflection, then JSON and `fmt.Sprint`: the type's `String()` is not
      called by the switch, whether the type has one or not. */
  lemma FailedMarshalTextGoesToReflection(key: string, o: Object, lib: GoLibrary)
    requires o.textMarshal.MarshalFailed?
    ensures TypeSwitch(Other(o), lib).None?
    ensures Any(key, Other(o), lib).Value ==
              match ByReflection(Other(o), lib)
              case Some(a) => a
              case None => Serialized(Other(o), lib)
  {
  }

  /** A named type with none of the capabilities is converted by its
      reflected kind. */
  lemma ReflectedScalars(key: string, o: Object, lib: GoLibrary)
    requires o.textMarshal.NotTextMarshaler? && o.stringer.None?
    ensures o.reflected.RBool? ==> Any(key, Other(o), lib).Value == BoolValue(o.reflected.b)
    ensures o.reflected.RInt? ==> Any(key, Other(o), lib).Value == Int64Value(o.reflected.i)
    ensures o.reflected.RUint? ==> Any(key, Other(o), lib).Value == Int64Value(ToInt64(o.reflected.u))
    ensures o.reflected.RFloat? ==> Any(key, Other(o), lib).Value == Float64Value(o.reflected.f)
    ensures o.reflected.RString? ==> Any(key, Other(o), lib).Value == StringValue(o.reflected.s)
  {
  }

  /** A reflected slice or array of bool, integer, unsigned, float64 or
      string elements maps to the matching homogeneous slice, element by
      element; unsigned elements wrap like `int64(...)` does. */
  lemma ReflectedLists(key: string, o: Object, lib: GoLibrary)
    requires o.textMarshal.NotTextMarshaler? && o.stringer.None? && o.reflected.RList?
    ensures o.reflected.elems.BoolElems? ==> Any(key, Other(o), lib).Value == BoolSliceValue(o.reflected.elems.bs)
    ensures o.reflected.elems.IntElems? ==> Any(key, Other(o), lib).Value == Int64SliceValue(o.reflected.elems.ints)
    ensures o.reflected.elems.UintElems? ==>
              var r := Any(key, Other(o), lib).Value;
              r.Int64SliceValue? && |r.ints| == |o.reflected.elems.us| &&
              forall i :: 0 <= i < |r.ints| ==> ToUint64(r.ints[i]) == o.reflected.elems.us[i]
    ensures o.reflected.elems.Float64Elems? ==> Any(key, Other(o), lib).Value == Float64SliceValue(o.reflected.elems.fs)
    ensures o.reflected.elems.StringElems? ==> Any(key, Other(o), lib).Value == StringSliceValue(o.reflected.elems.ss)
  {
    if o.reflected.elems.UintElems? {
      var us := o.reflected.elems.us;
      forall i | 0 <= i < |us| ensures ToUint64(Uint64sToInt64s(us)[i]) == us[i] {
        ToUint64ToInt64(us[i]);
      }
    }
  }

  /** What reflection does not handle goes to JSON first and to
      `fmt.Sprint` only when JSON fails. */
  lemma JSONBeforeSprint(key: string, o: Object, lib: GoLibrary)
    requires o.textMarshal.NotTextMarshaler? && o.stringer.None?
    requires ByReflection(Other(o), lib).None?
    ensures lib.marshalJSON(Other(o)).Some? ==>
              Any(key, Other(o), lib).Value == StringValue(BytesToString(lib.marshalJSON(Other(o)).value))
    ensures lib.marshalJSON(Other(o)).None? ==> Any(key, Other(o), lib).Value == StringValue(lib.sprint(Other(o)))
  {
  }

  // ---------------------------------------------------------------------
  // Field lists.

  /** The field lists of the tests: one context field and one call field
      after one extra attribute, in that order. */
  lemma TestAttributesOrder(lib: GoLibrary)
    ensures var fields := [IntegerField("bar", Int64Type, 222), IntegerField("baz", Int64Type, 333)];
            AllValid(fields) &&
            [KeyValue("foo", Int64Value(111))] + Converted(fields[..1], lib) + Converted(fields[1..], lib)
            == [KeyValue("foo", Int64Value(111)), KeyValue("bar", Int64Value(222)), KeyValue("baz", Int64Value(333))]
  {
    var fields := [IntegerField("bar", Int64Type, 222), IntegerField("baz", Int64Type, 333)];
    SingleConverted(fields[..1], lib);
    SingleConverted(fields[1..], lib);
  }
}
