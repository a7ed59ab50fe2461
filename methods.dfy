/**
 * Decoding of the return values of the client's wrapper calls: torrent
 * hashes, the removal flag, free space and lists of byte strings.  Each
 * decoder receives the return list of a non-error response.
 */
module Methods {
  import opened Errors
  import opened Rencode

  /**
   * What the hash decoders assume without checking: a first return value
   * that is not nil is a byte string (the source type-asserts it).
   */
  predicate HashTyped(values: seq<Value>)
  {
    |values| > 0 && values[0] != Null ==> values[0].Bytes?
  }

  /**
   * The torrent hash returned by `core.add_torrent_magnet` and
   * `core.add_torrent_url`.  The daemon returns nil for a torrent it already
   * has, which the client reports as an empty hash and no error.
   */
  function DecodeTorrentHash(values: seq<Value>): (r: Result<string>)
    requires HashTyped(values)
    ensures |values| == 0 <==> r == Failure(InvalidReturnValue)
    ensures r.Failure? ==> r.error == InvalidReturnValue
    ensures |values| > 0 && values[0] == Null ==> r == Success("")
    ensures |values| > 0 && values[0] != Null ==> r.Success? && values[0] == Bytes(r.value)
  {
    if |values| == 0 then Failure(InvalidReturnValue)
    else if values[0] == Null then Success("")
    else Success(values[0].data)
  }

  /**
   * The empty hash is ambiguous: a nil hash and an empty byte string decode
   * alike, and only extra return values (which are ignored) differ.
   */
  lemma NilHashIsEmptyHash(rest: seq<Value>)
    ensures DecodeTorrentHash([Null] + rest) == DecodeTorrentHash([Bytes("")] + rest) == Success("")
  {
  }

  /** A hash the daemon returned decodes to itself. */
  lemma HashRoundTrip(hash: string, rest: seq<Value>)
    ensures DecodeTorrentHash([Bytes(hash)] + rest) == Success(hash)
  {
  }

  /** What the removal decoder assumes: a first return value is a boolean. */
  predicate BoolTyped(values: seq<Value>)
  {
    |values| > 0 ==> values[0].Bool?
  }

  /** The result of `core.remove_torrent`: the first return value, read as a boolean. */
  function DecodeRemoved(values: seq<Value>): (r: Result<bool>)
    requires BoolTyped(values)
    ensures r.Success? <==> |values| > 0
    ensures r.Failure? ==> r.error == InvalidReturnValue
    ensures r.Success? ==> values[0] == Bool(r.value)
  {
    if |values| == 0 then Failure(InvalidReturnValue) else Success(values[0].b)
  }

  /** The free space reported by `core.get_free_space`: the first return value as an `int64`. */
  function DecodeFreeSpace(values: seq<Value>): (r: Result<int64>)
    ensures r.Success? <==> |values| > 0 && values[0].Int?
    ensures r.Success? ==> values[0] == Int(r.value)
    ensures r.Failure? ==> r.error == ScanFailed
  {
    ScanInt64(values)
  }

  /**
   * What the string-list decoder assumes: once the first return value is a
   * list, each of its elements is a byte string (the source type-asserts them).
   */
  predicate StringListTyped(values: seq<Value>)
  {
    |values| > 0 && values[0].List? ==> forall i :: 0 <= i < |values[0].items| ==> values[0].items[i].Bytes?
  }

  /**
   * The list of byte strings returned by `daemon.get_method_list` and
   * `core.get_session_state`: the first return value is scanned as a list and
   * each element converted to a string at the same position.
   */
  method DecodeStringList(values: seq<Value>) returns (r: Result<seq<string>>)
    requires StringListTyped(values)
    ensures r.Success? <==> |values| > 0 && values[0].List?
    ensures r.Failure? ==> r.error == ScanFailed
    ensures r.Success? ==> BytesList(r.value) == values[0].items
  {
    if |values| == 0 || !values[0].List? {
      return Failure(ScanFailed);
    }
    var items := values[0].items;
    var result := new string[|items|];
    for i := 0 to |items|
      invariant forall j :: 0 <= j < i ==> items[j] == Bytes(result[j])
    {
      result[i] := items[i].data;
    }
    ListOfBytesList(result[..], items);
    return Success(result[..]);
  }

  /** Two lists agree with `BytesList` when they agree element by element. */
  lemma ListOfBytesList(ss: seq<string>, vs: seq<Value>)
    requires |ss| == |vs|
    requires forall j :: 0 <= j < |vs| ==> vs[j] == Bytes(ss[j])
    ensures BytesList(ss) == vs
  {
  }

  /** `BytesList` loses nothing: distinct string lists give distinct value lists. */
  lemma BytesListInjective(ss: seq<string>, ts: seq<string>)
    requires BytesList(ss) == BytesList(ts)
    ensures ss == ts
  {
  }
}
