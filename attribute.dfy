/** The closed attribute vocabulary of OpenTelemetry: a key with a value
    that is a bool, a 64-bit integer, a 64-bit float, a string, or a
    homogeneous slice of one of those. */
module Attribute {
  import opened GoTypes

  datatype AttrValue =
    | BoolValue(b: bool)
    | Int64Value(i: int64)
    | Float64Value(f: float64)
    | StringValue(s: string)
    | BoolSliceValue(bs: seq<bool>)
    | Int64SliceValue(ints: seq<int64>)
    | Float64SliceValue(fs: seq<float64>)
    | StringSliceValue(ss: seq<string>)

  datatype KeyValue = KeyValue(Key: string, Value: AttrValue)

  /** The keys of an attribute list, in order. */
  function Keys(attrs: seq<KeyValue>): (ks: seq<string>)
    ensures |ks| == |attrs|
    ensures forall i :: 0 <= i < |attrs| ==> ks[i] == attrs[i].Key
  {
    seq(|attrs|, i requires 0 <= i < |attrs| => attrs[i].Key)
  }

  lemma KeysConcat(a: seq<KeyValue>, b: seq<KeyValue>)
    ensures Keys(a + b) == Keys(a) + Keys(b)
  {
    assert forall i :: 0 <= i < |a + b| ==> Keys(a + b)[i] == (Keys(a) + Keys(b))[i];
  }
}
