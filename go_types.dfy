/** Go's fixed-width integers, the conversions between them that this
    package relies on, IEEE-754 values as their bit patterns, and Go strings
    as byte sequences. */
module GoTypes {

  datatype Option<+T> = None | Some(value: T)

  const TWO_32: int := 0x1_0000_0000
  const TWO_63: int := 0x8000_0000_0000_0000
  const TWO_64: int := 0x1_0000_0000_0000_0000

  type int8 = x: int | -0x80 <= x < 0x80
  type int16 = x: int | -0x8000 <= x < 0x8000
  type int32 = x: int | -0x8000_0000 <= x < 0x8000_0000
  type int64 = x: int | -0x8000_0000_0000_0000 <= x < 0x8000_0000_0000_0000

  type uint8 = x: int | 0 <= x < 0x100
  type uint16 = x: int | 0 <= x < 0x1_0000
  type uint32 = x: int | 0 <= x < 0x1_0000_0000
  type uint64 = x: int | 0 <= x < 0x1_0000_0000_0000_0000

  /** Go's `byte` is an alias of `uint8`. */
  type byte = uint8

  /** Go's `int64(u)` for a `uint64` u: two's-complement reinterpretation,
      so values above 2^63-1 wrap to negative numbers. */
  function ToInt64(u: uint64): (i: int64)
    ensures (u - i) % TWO_64 == 0
    ensures u < TWO_63 <==> i == u
  {
    if u < TWO_63 then u else u - TWO_64
  }

  /** Go's `uint64(i)` for an `int64` i. */
  function ToUint64(i: int64): (u: uint64)
    ensures (u - i) % TWO_64 == 0
    ensures 0 <= i <==> u == i
  {
    if 0 <= i then i else i + TWO_64
  }

  /** Go's `uint32(i)` for an `int64` i: keeps the low 32 bits. */
  function ToUint32(i: int64): (u: uint32)
    ensures (u - i) % TWO_32 == 0
    ensures 0 <= i < TWO_32 ==> u == i
  {
    i % TWO_32
  }

  /** `uint64(int64(u)) == u`: the wrap loses nothing. */
  lemma ToUint64ToInt64(u: uint64)
    ensures ToUint64(ToInt64(u)) == u
  {
  }

  /** An IEEE-754 binary32 value, kept as its bit pattern
      (`math.Float32frombits`, `math.Float32bits`). */
  datatype float32 = Float32frombits(bits: uint32)

  /** An IEEE-754 binary64 value, kept as its bit pattern
      (`math.Float64frombits`, `math.Float64bits`). */
  datatype float64 = Float64frombits(bits: uint64)

  /** Go's `string(b)` for a byte slice: the bytes verbatim. A Go string is a
      byte sequence; here each character of a Dafny string stands for one
      byte. */
  function BytesToString(b: seq<byte>): (s: string)
    ensures |s| == |b|
    ensures forall i :: 0 <= i < |b| ==> s[i] as int == b[i]
  {
    seq(|b|, i requires 0 <= i < |b| => b[i] as char)
  }

  /** `string(b)` is injective: distinct byte slices give distinct strings. */
  lemma BytesToStringInjective(a: seq<byte>, b: seq<byte>)
    ensures BytesToString(a) == BytesToString(b) ==> a == b
  {
    if BytesToString(a) == BytesToString(b) {
      assert forall i :: 0 <= i < |a| ==> a[i] == BytesToString(a)[i] as int;
    }
  }
}
