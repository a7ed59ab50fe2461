/**
 * The dynamically typed values of the rencode codec, and the parts of the
 * codec's list and dictionary API that the client relies on (Scan, Values,
 * Zip).  Encoding and decoding bytes is not part of this model: the client
 * model receives values already decoded.
 */
module Rencode {
  import opened Errors

  /** Go's int64. */
  newtype int64 = x: int | -0x8000_0000_0000_0000 <= x < 0x8000_0000_0000_0000

  const MaxInt64: int64 := 0x7FFF_FFFF_FFFF_FFFF
  const MinInt64: int64 := -0x8000_0000_0000_0000

  /**
   * A decoded value.  Byte strings are carried as `string`, one character per
   * byte, because the client only ever converts them to and from Go strings
   * unchanged.  Floating-point numbers are carried by their bit pattern and
   * never interpreted.  A dictionary keeps its entries in wire order.
   */
  datatype Value =
    | Null
    | Bool(b: bool)
    | Int(i: int64)
    | Float(bits: nat)
    | Bytes(data: string)
    | List(items: seq<Value>)
    | Dict(entries: seq<(Value, Value)>)

  type Dictionary = seq<(Value, Value)>

  /** The values of a dictionary, in entry order (`Dictionary.Values`). */
  function DictValues(d: Dictionary): (vs: seq<Value>)
    ensures |vs| == |d|
    ensures forall i :: 0 <= i < |d| ==> vs[i] == d[i].1
  {
    if d == [] then [] else [d[0].1] + DictValues(d[1..])
  }

  /** `rencode.NewList` of Go strings: one byte string per element, in order. */
  function BytesList(ss: seq<string>): (vs: seq<Value>)
    ensures |vs| == |ss|
    ensures forall i :: 0 <= i < |ss| ==> vs[i] == Bytes(ss[i])
  {
    if ss == [] then [] else [Bytes(ss[0])] + BytesList(ss[1..])
  }

  /** Scan of the first value of a list into an `int64`. */
  function ScanInt64(vs: seq<Value>): (r: Result<int64>)
    ensures r.Success? <==> |vs| > 0 && vs[0].Int?
    ensures r.Success? ==> vs[0] == Int(r.value)
    ensures r.Failure? ==> r.error == ScanFailed
  {
    if |vs| > 0 && vs[0].Int? then Success(vs[0].i) else Failure(ScanFailed)
  }

  /** Scan of the first value of a list into a Go string. */
  function ScanString(vs: seq<Value>): (r: Result<string>)
    ensures r.Success? <==> |vs| > 0 && vs[0].Bytes?
    ensures r.Success? ==> vs[0] == Bytes(r.value)
    ensures r.Failure? ==> r.error == ScanFailed
  {
    if |vs| > 0 && vs[0].Bytes? then Success(vs[0].data) else Failure(ScanFailed)
  }

  /** True when no two entries of `d` have the same key. */
  predicate DistinctKeys(d: Dictionary)
  {
    forall i, j :: 0 <= i < j < |d| ==> d[i].0 != d[j].0
  }

  /**
   * `Dictionary.Zip`: the entries as a map from string keys.  It fails when a
   * key is not a byte string or when a key occurs twice.
   */
  function Zip(d: Dictionary): (r: Option<map<string, Value>>)
  {
    if d == [] then Some(map[])
    else
      var rest := Zip(d[1..]);
      if !d[0].0.Bytes? || rest.None? || d[0].0.data in rest.value then None
      else Some(rest.value[d[0].0.data := d[0].1])
  }

  /** Zip succeeds exactly on dictionaries whose keys are distinct byte strings. */
  lemma {:induction false} ZipSucceeds(d: Dictionary)
    ensures Zip(d).Some? <==> (forall i :: 0 <= i < |d| ==> d[i].0.Bytes?) && DistinctKeys(d)
  {
    if d != [] {
      var tail := d[1..];
      ZipSucceeds(tail);
      if Zip(tail).Some? {
        ZipEntries(tail);
      }
      assert forall i :: 1 <= i < |d| ==> d[i] == tail[i - 1];
      var rest := Zip(tail);
      if d[0].0.Bytes? && rest.Some? && d[0].0.data in rest.value {
        var i :| 0 <= i < |tail| && tail[i].0 == Bytes(d[0].0.data);
        assert d[i + 1].0 == d[0].0;
      }
      if d[0].0.Bytes? && rest.Some? && d[0].0.data !in rest.value {
        assert forall i :: 0 <= i < |tail| ==> tail[i].0 != d[0].0;
      }
    }
  }

  /**
   * A zipped dictionary maps the key of every entry to that entry's value and
   * has no other keys.
   */
  lemma {:induction false} ZipEntries(d: Dictionary)
    requires Zip(d).Some?
    ensures forall i :: 0 <= i < |d| ==> d[i].0.Bytes? && d[i].0.data in Zip(d).value && Zip(d).value[d[i].0.data] == d[i].1
    ensures forall k :: k in Zip(d).value ==> exists i :: 0 <= i < |d| && d[i].0 == Bytes(k)
  {
    if d != [] {
      var tail := d[1..];
      ZipEntries(tail);
      assert forall i :: 1 <= i < |d| ==> d[i] == tail[i - 1];
      var m := Zip(d).value;
      forall i | 1 <= i < |d| ensures d[i].0.Bytes? && d[i].0.data in m && m[d[i].0.data] == d[i].1 {
        assert d[i] == tail[i - 1];
      }
      forall k | k in m ensures exists i :: 0 <= i < |d| && d[i].0 == Bytes(k) {
        if k != d[0].0.data {
          var i :| 0 <= i < |tail| && tail[i].0 == Bytes(k);
          assert d[i + 1].0 == Bytes(k);
        }
      }
    }
  }
}
