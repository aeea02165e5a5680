/** The standard, padded base64 encoding of section 4 of RFC 4648
    (what Go's `base64.StdEncoding.EncodeToString` produces), with a
    decoder that serves as its partner: decoding inverts encoding. */
module Base64 {
  import opened GoTypes

  const PadChar: char := '='

  /** The character for a 6-bit value: table 1 of RFC 4648,
      `A`-`Z`, `a`-`z`, `0`-`9`, `+`, `/`. */
  function CharOf(v: nat): (c: char)
    requires v < 64
    ensures c != PadChar
  {
    if v < 26 then ('A' as int + v) as char
    else if v < 52 then ('a' as int + (v - 26)) as char
    else if v < 62 then ('0' as int + (v - 52)) as char
    else if v == 62 then '+'
    else '/'
  }

  /** The 6-bit value of an alphabet character, `None` for any other
      character (the pad included). */
  function ValueOf(c: char): (r: Option<nat>)
    ensures r.Some? ==> r.value < 64
  {
    if 'A' <= c <= 'Z' then Some(c as int - 'A' as int)
    else if 'a' <= c <= 'z' then Some(c as int - 'a' as int + 26)
    else if '0' <= c <= '9' then Some(c as int - '0' as int + 52)
    else if c == '+' then Some(62)
    else if c == '/' then Some(63)
    else None
  }

  lemma ValueOfCharOf(v: nat)
    requires v < 64
    ensures ValueOf(CharOf(v)) == Some(v)
  {
  }

  predicate InAlphabet(c: char) {
    ValueOf(c).Some?
  }

  /** Three bytes become four characters, 6 bits each, most significant first. */
  function EncodeGroup(b0: byte, b1: byte, b2: byte): (s: string)
    ensures |s| == 4 && forall i :: 0 <= i < 4 ==> InAlphabet(s[i])
  {
    ValueOfCharOf(b0 / 4);
    ValueOfCharOf((b0 % 4) * 16 + b1 / 16);
    ValueOfCharOf((b1 % 16) * 4 + b2 / 64);
    ValueOfCharOf(b2 % 64);
    [CharOf(b0 / 4), CharOf((b0 % 4) * 16 + b1 / 16),
     CharOf((b1 % 16) * 4 + b2 / 64), CharOf(b2 % 64)]
  }

  /** A final group of one byte: two characters and two pads. */
  function EncodeLastOne(b0: byte): (s: string)
    ensures |s| == 4 && InAlphabet(s[0]) && InAlphabet(s[1]) && s[2] == s[3] == PadChar
  {
    ValueOfCharOf(b0 / 4);
    ValueOfCharOf((b0 % 4) * 16);
    [CharOf(b0 / 4), CharOf((b0 % 4) * 16), PadChar, PadChar]
  }

  /** A final group of two bytes: three characters and one pad. */
  function EncodeLastTwo(b0: byte, b1: byte): (s: string)
    ensures |s| == 4 && InAlphabet(s[0]) && InAlphabet(s[1]) && InAlphabet(s[2]) && s[3] == PadChar
  {
    ValueOfCharOf(b0 / 4);
    ValueOfCharOf((b0 % 4) * 16 + b1 / 16);
    ValueOfCharOf((b1 % 16) * 4);
    [CharOf(b0 / 4), CharOf((b0 % 4) * 16 + b1 / 16), CharOf((b1 % 16) * 4), PadChar]
  }

  /** `base64.StdEncoding.EncodeToString`. A final group of one or two bytes
      is padded with `=` to four characters. */
  function EncodeToString(b: seq<byte>): (s: string)
    ensures |s| == 4 * ((|b| + 2) / 3)
    ensures forall i :: 0 <= i < |s| ==> InAlphabet(s[i]) || s[i] == PadChar
    ensures forall i :: 0 <= i < |s| - 2 ==> s[i] != PadChar
    decreases |b|
  {
    if |b| == 0 then ""
    else if |b| == 1 then EncodeLastOne(b[0])
    else if |b| == 2 then EncodeLastTwo(b[0], b[1])
    else EncodeGroup(b[0], b[1], b[2]) + EncodeToString(b[3..])
  }

  /** Four alphabet characters back to three bytes. */
  function DecodeGroup(v0: nat, v1: nat, v2: nat, v3: nat): seq<byte>
    requires v0 < 64 && v1 < 64 && v2 < 64 && v3 < 64
  {
    [v0 * 4 + v1 / 16, (v1 % 16) * 16 + v2 / 4, (v2 % 4) * 64 + v3]
  }

  /** Decodes padded standard base64; `None` for malformed text. */
  function DecodeString(s: string): (r: Option<seq<byte>>)
    decreases |s|
  {
    if |s| == 0 then Some([])
    else if |s| < 4 then None
    else
      var v0, v1, v2, v3 := ValueOf(s[0]), ValueOf(s[1]), ValueOf(s[2]), ValueOf(s[3]);
      if v0.None? || v1.None? then None
      else if |s| == 4 && s[2] == PadChar && s[3] == PadChar then
        Some([v0.value * 4 + v1.value / 16])
      else if v2.None? then None
      else if |s| == 4 && s[3] == PadChar then
        Some([v0.value * 4 + v1.value / 16, (v1.value % 16) * 16 + v2.value / 4])
      else if v3.None? then None
      else
        match DecodeString(s[4..])
        case None => None
        case Some(rest) => Some(DecodeGroup(v0.value, v1.value, v2.value, v3.value) + rest)
  }

  /** Splitting a byte into its high 6 (or 4, 2) bits and the rest and
      joining them again gives the byte back. */
  lemma GroupRoundTrip(b0: byte, b1: byte, b2: byte)
    ensures DecodeGroup(b0 / 4, (b0 % 4) * 16 + b1 / 16, (b1 % 16) * 4 + b2 / 64, b2 % 64) == [b0, b1, b2]
  {
    assert ((b0 % 4) * 16 + b1 / 16) / 16 == b0 % 4;
    assert ((b0 % 4) * 16 + b1 / 16) % 16 == b1 / 16;
    assert ((b1 % 16) * 4 + b2 / 64) / 4 == b1 % 16;
    assert ((b1 % 16) * 4 + b2 / 64) % 4 == b2 / 64;
  }

  /** A full group followed by decodable text decodes to the group's three
      bytes followed by the rest. */
  lemma DecodeAfterGroup(b0: byte, b1: byte, b2: byte, tail: string, bytes: seq<byte>)
    requires DecodeString(tail) == Some(bytes)
    ensures DecodeString(EncodeGroup(b0, b1, b2) + tail) == Some([b0, b1, b2] + bytes)
  {
    var s := EncodeGroup(b0, b1, b2) + tail;
    assert s[4..] == tail;
    ValueOfCharOf(b0 / 4);
    ValueOfCharOf((b0 % 4) * 16 + b1 / 16);
    ValueOfCharOf((b1 % 16) * 4 + b2 / 64);
    ValueOfCharOf(b2 % 64);
    GroupRoundTrip(b0, b1, b2);
  }

  lemma DecodeOneByte(b0: byte)
    ensures DecodeString(EncodeLastOne(b0)) == Some([b0])
  {
    ValueOfCharOf(b0 / 4);
    ValueOfCharOf((b0 % 4) * 16);
    assert ((b0 % 4) * 16) / 16 == b0 % 4;
  }

  lemma DecodeTwoBytes(b0: byte, b1: byte)
    ensures DecodeString(EncodeLastTwo(b0, b1)) == Some([b0, b1])
  {
    ValueOfCharOf(b0 / 4);
    ValueOfCharOf((b0 % 4) * 16 + b1 / 16);
    ValueOfCharOf((b1 % 16) * 4);
    assert ((b0 % 4) * 16 + b1 / 16) / 16 == b0 % 4;
    assert ((b0 % 4) * 16 + b1 / 16) % 16 == b1 / 16;
    assert ((b1 % 16) * 4) / 4 == b1 % 16;
  }

  /** Decoding the encoding of any byte sequence gives it back; in particular
      the encoding is injective. */
  lemma {:induction false} DecodeEncode(b: seq<byte>)
    ensures DecodeString(EncodeToString(b)) == Some(b)
    decreases |b|
  {
    if |b| == 0 {
    } else if |b| == 1 {
      assert b == [b[0]];
      DecodeOneByte(b[0]);
    } else if |b| == 2 {
      assert b == [b[0], b[1]];
      DecodeTwoBytes(b[0], b[1]);
    } else {
      var rest := EncodeToString(b[3..]);
      DecodeEncode(b[3..]);
      EncodeUnfold(b);
      DecodeAfterGroup(b[0], b[1], b[2], rest, b[3..]);
      assert [b[0], b[1], b[2]] + b[3..] == b;
    }
  }

  lemma EncodeUnfold(b: seq<byte>)
    requires |b| >= 3
    ensures EncodeToString(b) == EncodeGroup(b[0], b[1], b[2]) + EncodeToString(b[3..])
  {
  }

  /** The encodings of `[1, 2, 3, 4]` and of the empty slice used in the
      package's tests. */
  lemma KnownEncodings()
    ensures EncodeToString([1, 2, 3, 4]) == "AQIDBA=="
    ensures EncodeToString([]) == ""
  {
    assert EncodeToString([4]) == "BA==";
    assert EncodeToString([1, 2, 3, 4]) == EncodeGroup(1, 2, 3) + EncodeToString([4]);
  }
}
