/** Go's dynamically typed `interface{}` values as this package inspects
    them: by exact dynamic type, by the capabilities (`encoding.TextMarshaler`,
    `fmt.Stringer`, `error`) the type implements, by what `reflect` reveals,
    and through library functions outside the package. */
module GoValues {
  import opened GoTypes

  /** What calling `MarshalText` on the value gives, if its type has it. */
  datatype TextMarshal =
    | NotTextMarshaler
    | MarshalOk(text: seq<byte>)
    | MarshalFailed

  /** The elements of a reflected slice or array, grouped by the kind of the
      element type as `reflect` reports it. Each element is what the
      matching `reflect.Value` accessor returns: `Bool()`, `Int()` (for the
      kinds int .. int64), `Uint()` (uint .. uint64 and uintptr), `Float()`,
      `String()`. */
  datatype Elems =
    | BoolElems(bs: seq<bool>)
    | IntElems(ints: seq<int64>)
    | UintElems(us: seq<uint64>)
    | Float32Elems(f32s: seq<float32>)
    | Float64Elems(fs: seq<float64>)
    | StringElems(ss: seq<string>)
    | OtherElems   // struct, map, pointer, interface, slice, complex ... elements

  /** What `reflect.ValueOf(v)` reveals of a value: its kind and, for the
      kinds the package reads, the content. `Time` and `Location` stand for
      values of type `time.Time` (a struct) and `*time.Location` (a
      pointer); the package reads them only through type assertions. */
  datatype Reflected =
    | RBool(b: bool)
    | RInt(i: int64)            // kinds int, int8, int16, int32, int64
    | RUint(u: uint64)          // kinds uint, uint8 .. uint64, uintptr
    | RFloat(f: float64)        // kinds float32 (widened), float64
    | RString(s: string)
    | RList(elems: Elems)       // kinds slice and array
    | RTime(unixNanos: int, location: string)
    | RLocation(name: string)
    | RInvalid                  // the nil interface
    | ROther                    // any other kind

  /** A value whose dynamic type has no constructor of its own in `Value`:
      a named type, a struct, a map, a pointer, `[]uint64`, an interface
      slice ... What the methods of its type return is part of the value. */
  datatype Object = Object(
    textMarshal: TextMarshal,
    stringer: Option<string>,   // String(), if the type is a fmt.Stringer
    errorText: Option<string>,  // Error(), if the type is an error
    reflected: Reflected)

  /** A Go `interface{}` value, by dynamic type. Go's `int` and `uint` are
      taken to be 64 bits wide. */
  datatype Value =
    | Nil
    | Bool(b: bool)
    | BoolSlice(bs: seq<bool>)
    | String(s: string)
    | StringSlice(ss: seq<string>)
    | ByteSlice(bytes: seq<byte>)
    | Int(i: int64)
    | IntSlice(ints: seq<int64>)
    | Int8(i8: int8)
    | Int16(i16: int16)
    | Int32(i32: int32)
    | Int64(i64: int64)
    | Int64Slice(i64s: seq<int64>)
    | Uint(u: uint64)
    | Uint8(u8: uint8)
    | Uint16(u16: uint16)
    | Uint32(u32: uint32)
    | Uint64(u64: uint64)
    | Uintptr(uptr: uint64)
    | Float32(f32: float32)
    | Float64(f64: float64)
    | Float64Slice(f64s: seq<float64>)
    | Complex64(re32: float32, im32: float32)
    | Complex128(re: float64, im: float64)
    | Other(o: Object)

  /** Behaviour of Go library code that the package calls and that is not
      modelled: floating-point conversion and formatting, time formatting,
      and the JSON and `%v` encoders. `marshalJSON` may fail. */
  datatype GoLibrary = GoLibrary(
    widen: float32 -> float64,                              // float64(f)
    formatComplex: (float64, float64, char, nat) -> string, // strconv.FormatComplex(complex(re, im), fmt, -1, bitSize)
    durationString: int64 -> string,                        // time.Duration(n).String()
    formatRFC3339Nano: (int, string) -> string,             // instant (ns since the epoch) in a location, time.RFC3339Nano
    marshalJSON: Value -> Option<seq<byte>>,                // json.Marshal(v)
    sprint: Value -> string)                                // fmt.Sprint(v)

  /** `reflect.ValueOf(v)`: what reflection sees of each dynamic type. */
  function ReflectOf(v: Value, lib: GoLibrary): (r: Reflected)
    ensures v.Other? ==> r == v.o.reflected
    ensures v.Nil? ==> r == RInvalid
    ensures v.ByteSlice? ==> r == RList(UintElems(v.bytes))
    ensures v.Float32? ==> r == RFloat(lib.widen(v.f32))
    ensures v.Complex64? || v.Complex128? ==> r == ROther
  {
    match v
    case Nil => RInvalid
    case Bool(b) => RBool(b)
    case BoolSlice(bs) => RList(BoolElems(bs))
    case String(s) => RString(s)
    case StringSlice(ss) => RList(StringElems(ss))
    case ByteSlice(bytes) => RList(UintElems(bytes))
    case Int(i) => RInt(i)
    case IntSlice(ints) => RList(IntElems(ints))
    case Int8(i) => RInt(i)
    case Int16(i) => RInt(i)
    case Int32(i) => RInt(i)
    case Int64(i) => RInt(i)
    case Int64Slice(ints) => RList(IntElems(ints))
    case Uint(u) => RUint(u)
    case Uint8(u) => RUint(u)
    case Uint16(u) => RUint(u)
    case Uint32(u) => RUint(u)
    case Uint64(u) => RUint(u)
    case Uintptr(u) => RUint(u)
    case Float32(f) => RFloat(lib.widen(f))
    case Float64(f) => RFloat(f)
    case Float64Slice(fs) => RList(Float64Elems(fs))
    case Complex64(_, _) => ROther
    case Complex128(_, _) => ROther
    case Other(o) => o.reflected
  }

  /** The value as a `fmt.Stringer`, if its type is one. */
  function StringerOf(v: Value): (r: Option<string>)
    ensures r.Some? ==> v.Other?
  {
    if v.Other? then v.o.stringer else None
  }

  /** The value as an `error`, if its type is one. */
  function ErrorOf(v: Value): (r: Option<string>)
    ensures r.Some? ==> v.Other?
  {
    if v.Other? then v.o.errorText else None
  }
}
