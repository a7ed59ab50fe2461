/**
 * Torrent status queries: the fixed list of status fields the client asks
 * for, and the decoders of the single-torrent and all-torrents replies.
 * Populating the status structure from a dictionary (`ToStruct`) belongs to
 * the codec library and is an injected function `toStruct` here.
 */
module TorrentStatus {
  import opened Errors
  import opened Rencode

  /** `statusKeys`: the status fields requested for every torrent, in order. */
  const StatusKeys: seq<string> := [
    "state", "download_location", "tracker_host", "tracker_status",
    "next_announce", "name", "total_size", "progress", "num_seeds",
    "total_seeds", "num_peers", "total_peers", "eta",
    "download_payload_rate", "upload_payload_rate", "ratio",
    "distributed_copies", "num_pieces", "piece_length", "total_done",
    "files", "file_priorities", "file_progress", "peers", "is_seed",
    "is_finished", "active_time", "seeding_time", "completed_time",
    "private"]

  /**
   * The position of a status field name in `StatusKeys`, told apart by its
   * length and one or two of its characters; -1 for any other length.
   */
  function KeyIndex(s: string): int
  {
    if |s| == 3 then 12
    else if |s| == 4 then 5
    else if |s| == 5 then (if s[0] == 's' then 0 else if s[0] == 'r' then 15 else if s[0] == 'f' then 20 else 23)
    else if |s| == 7 then (if s[0] == 'i' then 24 else 29)
    else if |s| == 8 then 7
    else if |s| == 9 then (if s[4] == 's' then 8 else 10)
    else if |s| == 10 then (if s[0] == 'n' then 17 else if s[6] == 's' then 6 else 19)
    else if |s| == 11 then (if s[0] == 'i' then 25 else if s[0] == 'a' then 26 else if s[6] == 's' then 9 else 11)
    else if |s| == 12 then (if s[0] == 't' then 2 else if s[0] == 'p' then 18 else 27)
    else if |s| == 13 then (if s[0] == 'n' then 4 else 22)
    else if |s| == 14 then (if s[0] == 't' then 3 else 28)
    else if |s| == 15 then 21
    else if |s| == 17 then 1
    else if |s| == 18 then 16
    else if |s| == 19 then 14
    else if |s| == 21 then 13
    else -1
  }

  /** The status field list has thirty distinct names. */
  lemma StatusKeysShape()
    ensures |StatusKeys| == 30
    ensures "completed_time" in StatusKeys && "private" in StatusKeys
    ensures forall i, j :: 0 <= i < j < |StatusKeys| ==> StatusKeys[i] != StatusKeys[j]
  {
    assert StatusKeys[28] == "completed_time";
    assert StatusKeys[29] == "private";
    forall i | 0 <= i < |StatusKeys|
      ensures KeyIndex(StatusKeys[i]) == i
    {
    }
  }

  /** The status field list as the rencode list argument. */
  function StatusKeysArg(): (a: Value)
    ensures a.List? && |a.items| == |StatusKeys|
    ensures forall i :: 0 <= i < |a.items| ==> a.items[i] == Bytes(StatusKeys[i])
  {
    List(BytesList(StatusKeys))
  }

  /** Arguments of `core.get_torrent_status`: the torrent id and the field list. */
  function TorrentStatusArgs(id: string): (args: seq<Value>)
    ensures |args| == 2 && args[0] == Bytes(id) && args[1] == StatusKeysArg()
  {
    [Bytes(id), StatusKeysArg()]
  }

  /** Arguments of `core.get_torrents_status`: an empty filter and the field list. */
  function TorrentsStatusArgs(): (args: seq<Value>)
    ensures |args| == 2 && args[0] == Dict([]) && args[1] == StatusKeysArg()
  {
    [Dict([]), StatusKeysArg()]
  }

  /** One status value: it must be a dictionary, which then populates the structure. */
  function DecodeStatusValue<S>(v: Value, toStruct: Dictionary -> Result<S>): (r: Result<S>)
    ensures !v.Dict? ==> r == Failure(InvalidListResult)
    ensures v.Dict? ==> r == toStruct(v.entries)
  {
    if v.Dict? then toStruct(v.entries) else Failure(InvalidListResult)
  }

  /** `decodeTorrentStatusResponse`: exactly one return value, a status dictionary. */
  function DecodeTorrentStatus<S>(values: seq<Value>, toStruct: Dictionary -> Result<S>): (r: Result<S>)
    ensures |values| != 1 ==> r == Failure(InvalidReturnValue)
    ensures |values| == 1 && !values[0].Dict? ==> r == Failure(InvalidListResult)
    ensures |values| == 1 && values[0].Dict? ==> r == toStruct(values[0].entries)
  {
    if |values| != 1 then Failure(InvalidReturnValue)
    else DecodeStatusValue(values[0], toStruct)
  }

  /**
   * The outer checks of `decodeTorrentsStatusResponse`: one return value, a
   * dictionary, zipped into a map from torrent id to status value.
   */
  function OuterStatusMap(values: seq<Value>): (r: Result<map<string, Value>>)
    ensures |values| != 1 ==> r == Failure(InvalidReturnValue)
    ensures |values| == 1 && !values[0].Dict? ==> r == Failure(InvalidListResult)
    ensures |values| == 1 && values[0].Dict? && Zip(values[0].entries).None? ==> r == Failure(ZipFailed)
    ensures |values| == 1 && values[0].Dict? && Zip(values[0].entries).Some? ==> r == Success(Zip(values[0].entries).value)
  {
    if |values| != 1 then Failure(InvalidReturnValue)
    else if !values[0].Dict? then Failure(InvalidListResult)
    else
      var d := Zip(values[0].entries);
      if d.None? then Failure(ZipFailed) else Success(d.value)
  }

  /** Every status value of the map decodes. */
  predicate AllDecode<S>(m: map<string, Value>, toStruct: Dictionary -> Result<S>)
  {
    forall k :: k in m ==> DecodeStatusValue(m[k], toStruct).Success?
  }

  /**
   * What `decodeTorrentsStatusResponse` promises.  On success the result has
   * exactly the torrent ids of the zipped dictionary, each mapped to its
   * decoded status.  On failure the error is that of the outer checks, or
   * that of some torrent whose status does not decode: Go's map order is
   * unspecified, so which failing torrent is reported is not determined.
   */
  predicate TorrentsStatusSpec<S(==)>(values: seq<Value>, toStruct: Dictionary -> Result<S>, r: Result<map<string, S>>)
  {
    var outer := OuterStatusMap(values);
    if outer.Failure? then r == Failure(outer.error)
    else
      var m := outer.value;
      if AllDecode(m, toStruct) then
        r.Success? && r.value.Keys == m.Keys &&
        forall k :: k in m ==> r.value[k] == DecodeStatusValue(m[k], toStruct).value
      else
        r.Failure? &&
        exists k :: k in m && DecodeStatusValue(m[k], toStruct) == Failure(r.error)
  }

  /** `decodeTorrentsStatusResponse`. */
  method DecodeTorrentsStatus<S(==)>(values: seq<Value>, toStruct: Dictionary -> Result<S>)
    returns (r: Result<map<string, S>>)
    ensures TorrentsStatusSpec(values, toStruct, r)
  {
    if |values| != 1 {
      return Failure(InvalidReturnValue);
    }
    if !values[0].Dict? {
      return Failure(InvalidListResult);
    }
    var zipped := Zip(values[0].entries);
    if zipped.None? {
      return Failure(ZipFailed);
    }
    var d := zipped.value;
    var result: map<string, S> := map[];
    var pending := d.Keys;
    while pending != {}
      invariant pending <= d.Keys
      invariant result.Keys == d.Keys - pending
      invariant forall k :: k in result ==> DecodeStatusValue(d[k], toStruct) == Success(result[k])
      decreases pending
    {
      var k :| k in pending;
      var rv := d[k];
      if !rv.Dict? {
        return Failure(InvalidListResult);
      }
      var ts := toStruct(rv.entries);
      if ts.Failure? {
        return Failure(ts.error);
      }
      result := result[k := ts.value];
      pending := pending - {k};
    }
    return Success(result);
  }

  /** On success every torrent id of the reply is present once, with its own status, and no other. */
  lemma TorrentsStatusIds<S>(values: seq<Value>, toStruct: Dictionary -> Result<S>, r: Result<map<string, S>>, id: string)
    requires TorrentsStatusSpec(values, toStruct, r)
    requires r.Success?
    ensures |values| == 1 && values[0].Dict? && DistinctKeys(values[0].entries)
    ensures id in r.value <==> exists i :: 0 <= i < |values[0].entries| && values[0].entries[i].0 == Bytes(id)
  {
    var d := values[0].entries;
    ZipSucceeds(d);
    ZipEntries(d);
    if exists i :: 0 <= i < |d| && d[i].0 == Bytes(id) {
      var i :| 0 <= i < |d| && d[i].0 == Bytes(id);
      assert d[i].0.data == id;
    }
  }

  /** A reply holding a torrent whose status is not a dictionary never decodes to a map. */
  lemma NonDictionaryStatusFails<S>(values: seq<Value>, toStruct: Dictionary -> Result<S>, r: Result<map<string, S>>, id: string)
    requires TorrentsStatusSpec(values, toStruct, r)
    requires OuterStatusMap(values).Success?
    requires id in OuterStatusMap(values).value && !OuterStatusMap(values).value[id].Dict?
    ensures r.Failure?
  {
    assert DecodeStatusValue(OuterStatusMap(values).value[id], toStruct).Failure?;
  }
}
