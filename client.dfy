/**
 * The client object: its settings, connection state, call serial and the
 * class id of the logged-in user, and the calls it makes.  Each call takes
 * the `Exchange` that the transport produces for it; dialling and closing
 * the TLS stream take the transport's outcome likewise.
 */
module DelugeClient {
  import opened Errors
  import opened Rencode
  import opened Protocol
  import opened Methods
  import KeepAlive
  import O = Options
  import TS = TorrentStatus

  /** `DefaultReadWriteTimeout`: thirty seconds, in nanoseconds. */
  const DefaultReadWriteTimeout: int64 := (30 * KeepAlive.Second) as int64

  /** `Settings`, without the logger. */
  datatype Settings = Settings(hostname: string, port: nat, login: string, password: string, readWriteTimeout: int64)

  /** The settings `New` keeps: a zero timeout becomes the default, nothing else changes. */
  function WithDefaults(s: Settings): (t: Settings)
    ensures t.readWriteTimeout != 0
    ensures s.readWriteTimeout != 0 ==> t == s
    ensures t.(readWriteTimeout := s.readWriteTimeout) == s
    ensures s.readWriteTimeout == 0 ==> t.readWriteTimeout == DefaultReadWriteTimeout
  {
    if s.readWriteTimeout == 0 then s.(readWriteTimeout := DefaultReadWriteTimeout) else s
  }

  /** Applying the defaults twice is applying them once. */
  lemma WithDefaultsIdempotent(s: Settings)
    ensures WithDefaults(WithDefaults(s)) == WithDefaults(s)
  {
  }

  /** The return values of the reply to a call, when the reply is not an error. */
  function Values(serial: int64, x: Exchange): Result<seq<Value>>
  {
    ReturnValues(Classify(serial, x))
  }

  /** The outcome of a call whose reply carries nothing the caller reads. */
  function Acknowledged(v: Result<seq<Value>>): (r: Outcome)
    ensures r.Pass? <==> v.Success?
    ensures r.Fail? ==> r.error == v.error
  {
    if v.Failure? then Fail(v.error) else Pass
  }

  class Client {
    var settings: Settings
    /** Whether the client holds a connection (`conn != nil`). */
    var open: bool
    var serial: int64
    var classID: int64
    /** The request of every call made so far, oldest first. */
    ghost var requests: seq<Envelope>
    /** The message built for every call made so far, oldest first. */
    ghost var written: seq<Value>

    /**
     * The serial is that of the last request sent (0 before the first), and
     * the `n`-th request carried the `n`-th serial of the cycle 1, 2, ...,
     * MaxInt64 - 1, 1, 2, ...  The message of each call is its request's payload.
     */
    ghost predicate Valid()
      reads this
    {
      |written| == |requests| &&
      (forall n :: 0 <= n < |requests| ==> written[n] == Payload(requests[n])) &&
      (forall n :: 0 <= n < |requests| ==> requests[n].serial as int == SerialOfCall(n)) &&
      serial as int == (if |requests| == 0 then 0 else SerialOfCall(|requests| - 1))
    }

    /** Every serial the client sends or holds lies between 1 and MaxInt64 - 1, or is the initial 0. */
    lemma SerialsInRange()
      requires Valid()
      ensures 0 <= serial < MaxInt64
      ensures forall n :: 0 <= n < |requests| ==> 1 <= requests[n].serial < MaxInt64
    {
    }

    /** `New`: an unconnected client with the defaults applied. */
    constructor New(s: Settings)
      ensures settings == WithDefaults(s)
      ensures !open && serial == 0 && classID == 0 && requests == [] && written == []
      ensures Valid()
    {
      written := [];
      settings := WithDefaults(s);
      open := false;
      serial := 0;
      classID := 0;
      requests := [];
    }

    /**
     * `rpc`: advances the serial, sends the request under it and classifies
     * the reply.  The serial is consumed whether or not the exchange succeeds.
     */
    method Rpc(methodName: string, args: seq<Value>, kwargs: Dictionary, x: Exchange) returns (r: Result<DelugeResponse>)
      requires Valid() && open
      modifies this
      ensures Valid()
      ensures serial == NextSerial(old(serial))
      ensures requests == old(requests) + [Envelope(serial, methodName, args, kwargs)]
      ensures written == old(written) + [Payload(Envelope(serial, methodName, args, kwargs))]
      ensures r == Classify(serial, x)
      ensures settings == old(settings) && open == old(open) && classID == old(classID)
    {
      if |requests| > 0 {
        NextSerialOfCall(|requests| - 1);
      } else {
        NextSerialOfCall(0);
      }
      serial := serial + 1;
      if serial == MaxInt64 {
        serial := 1;
      }
      var request := Envelope(serial, methodName, args, kwargs);
      var payload := Payload(request);
      requests := requests + [request];
      written := written + [payload];
      r := Classify(serial, x);
    }

    /** `Close`: fails on a client without a connection; otherwise drops it and reports how closing went. */
    method Close(closing: Outcome) returns (r: Outcome)
      modifies this
      ensures !old(open) ==> r == Fail(AlreadyClosed)
      ensures old(open) ==> r == closing
      ensures !open
      ensures settings == old(settings) && serial == old(serial) && classID == old(classID)
      ensures requests == old(requests) && written == old(written)
    {
      if !open {
        return Fail(AlreadyClosed);
      }
      r := closing;
      open := false;
    }

    /**
     * `Connect`: dials (a failed dial leaves no connection), then logs in with
     * the configured credentials and keeps the class id the daemon returns.
     */
    method Connect(dial: Outcome, login: Exchange) returns (r: Outcome)
      requires Valid()
      modifies this
      ensures Valid() && settings == old(settings)
      ensures dial.Fail? ==> r == dial && !open && serial == old(serial) && classID == old(classID)
      ensures dial.Fail? ==> requests == old(requests) && written == old(written)
      ensures dial.Pass? ==> open && serial == NextSerial(old(serial))
      ensures dial.Pass? ==> requests == old(requests) + [Envelope(serial, "daemon.login", [Bytes(settings.login), Bytes(settings.password)], [])]
      ensures dial.Pass? ==>
                var v := Values(serial, login);
                var id := if v.Success? then ScanInt64(v.value) else Failure(v.error);
                (id.Success? ==> r == Pass && classID == id.value) &&
                (id.Failure? ==> r == Fail(id.error) && classID == old(classID))
    {
      if dial.Fail? {
        open := false;
        return dial;
      }
      open := true;
      var resp := Rpc("daemon.login", [Bytes(settings.login), Bytes(settings.password)], [], login);
      var v := ReturnValues(resp);
      if v.Failure? {
        return Fail(v.error);
      }
      var id := ScanInt64(v.value);
      if id.Failure? {
        return Fail(id.error);
      }
      classID := id.value;
      r := Pass;
    }

    /** `MethodsList`: the names of the daemon's methods. */
    method MethodsList(x: Exchange) returns (r: Result<seq<string>>)
      requires Valid() && open
      requires var v := Values(NextSerial(serial), x); v.Success? ==> StringListTyped(v.value)
      modifies this
      ensures Valid() && serial == NextSerial(old(serial)) && open && settings == old(settings) && classID == old(classID)
      ensures requests == old(requests) + [Envelope(serial, "daemon.get_method_list", [], [])]
      ensures var v := Values(serial, x);
              (v.Failure? ==> r == Failure(v.error)) &&
              (v.Success? ==> (r.Success? <==> |v.value| > 0 && v.value[0].List?) &&
                              (r.Success? ==> BytesList(r.value) == v.value[0].items) &&
                              (r.Failure? ==> r.error == ScanFailed))
    {
      var resp := Rpc("daemon.get_method_list", [], [], x);
      var v := ReturnValues(resp);
      if v.Failure? {
        return Failure(v.error);
      }
      r := DecodeStringList(v.value);
    }

    /** `DaemonVersion`: the daemon's version string. */
    method DaemonVersion(x: Exchange) returns (r: Result<string>)
      requires Valid() && open
      modifies this
      ensures Valid() && serial == NextSerial(old(serial)) && open && settings == old(settings) && classID == old(classID)
      ensures requests == old(requests) + [Envelope(serial, "daemon.info", [], [])]
      ensures var v := Values(serial, x);
              (v.Failure? ==> r == Failure(v.error)) &&
              (v.Success? ==> r == ScanString(v.value))
    {
      var resp := Rpc("daemon.info", [], [], x);
      var v := ReturnValues(resp);
      if v.Failure? {
        return Failure(v.error);
      }
      r := ScanString(v.value);
    }

    /** `GetFreeSpace`: the free space at `path` (the daemon's default when empty). */
    method GetFreeSpace(path: string, x: Exchange) returns (r: Result<int64>)
      requires Valid() && open
      modifies this
      ensures Valid() && serial == NextSerial(old(serial)) && open && settings == old(settings) && classID == old(classID)
      ensures requests == old(requests) + [Envelope(serial, "core.get_free_space", [Bytes(path)], [])]
      ensures var v := Values(serial, x);
              (v.Failure? ==> r == Failure(v.error)) &&
              (v.Success? ==> r == DecodeFreeSpace(v.value))
    {
      var resp := Rpc("core.get_free_space", [Bytes(path)], [], x);
      var v := ReturnValues(resp);
      if v.Failure? {
        return Failure(v.error);
      }
      r := DecodeFreeSpace(v.value);
    }

    /**
     * The shared body of `AddTorrentMagnet` and `AddTorrentURL`: sends the
     * location and the options dictionary, and decodes the returned hash.
     */
    method AddTorrent(methodName: string, location: string, options: Option<O.Options>, v2daemon: bool, x: Exchange)
      returns (r: Result<string>)
      requires Valid() && open
      requires var v := Values(NextSerial(serial), x); v.Success? ==> HashTyped(v.value)
      modifies this
      ensures Valid() && serial == NextSerial(old(serial)) && open && settings == old(settings) && classID == old(classID)
      ensures requests == old(requests) + [Envelope(serial, methodName, [Bytes(location), Dict(O.Marshal(options, v2daemon))], [])]
      ensures var v := Values(serial, x);
              (v.Failure? ==> r == Failure(v.error)) &&
              (v.Success? ==> r == DecodeTorrentHash(v.value))
    {
      var dict := O.ToDictionary(options, v2daemon);
      var resp := Rpc(methodName, [Bytes(location), Dict(dict)], [], x);
      var v := ReturnValues(resp);
      if v.Failure? {
        return Failure(v.error);
      }
      r := DecodeTorrentHash(v.value);
    }

    /** `AddTorrentMagnet`: adds a torrent by magnet URI and returns its hash. */
    method AddTorrentMagnet(magnetURI: string, options: Option<O.Options>, v2daemon: bool, x: Exchange)
      returns (r: Result<string>)
      requires Valid() && open
      requires var v := Values(NextSerial(serial), x); v.Success? ==> HashTyped(v.value)
      modifies this
      ensures Valid() && serial == NextSerial(old(serial)) && open && settings == old(settings) && classID == old(classID)
      ensures requests == old(requests) + [Envelope(serial, "core.add_torrent_magnet", [Bytes(magnetURI), Dict(O.Marshal(options, v2daemon))], [])]
      ensures var v := Values(serial, x);
              (v.Failure? ==> r == Failure(v.error)) &&
              (v.Success? ==> r == DecodeTorrentHash(v.value))
    {
      r := AddTorrent("core.add_torrent_magnet", magnetURI, options, v2daemon, x);
    }

    /** `AddTorrentURL`: adds a torrent by URL and returns its hash. */
    method AddTorrentURL(url: string, options: Option<O.Options>, v2daemon: bool, x: Exchange)
      returns (r: Result<string>)
      requires Valid() && open
      requires var v := Values(NextSerial(serial), x); v.Success? ==> HashTyped(v.value)
      modifies this
      ensures Valid() && serial == NextSerial(old(serial)) && open && settings == old(settings) && classID == old(classID)
      ensures requests == old(requests) + [Envelope(serial, "core.add_torrent_url", [Bytes(url), Dict(O.Marshal(options, v2daemon))], [])]
      ensures var v := Values(serial, x);
              (v.Failure? ==> r == Failure(v.error)) &&
              (v.Success? ==> r == DecodeTorrentHash(v.value))
    {
      r := AddTorrent("core.add_torrent_url", url, options, v2daemon, x);
    }

    /** `DeleteTorrent`: removes a torrent together with its data. */
    method DeleteTorrent(id: string, x: Exchange) returns (r: Result<bool>)
      requires Valid() && open
      requires var v := Values(NextSerial(serial), x); v.Success? ==> BoolTyped(v.value)
      modifies this
      ensures Valid() && serial == NextSerial(old(serial)) && open && settings == old(settings) && classID == old(classID)
      ensures requests == old(requests) + [Envelope(serial, "core.remove_torrent", [Bytes(id), Bool(true)], [])]
      ensures var v := Values(serial, x);
              (v.Failure? ==> r == Failure(v.error)) &&
              (v.Success? ==> r == DecodeRemoved(v.value))
    {
      var resp := Rpc("core.remove_torrent", [Bytes(id), Bool(true)], [], x);
      var v := ReturnValues(resp);
      if v.Failure? {
        return Failure(v.error);
      }
      r := DecodeRemoved(v.value);
    }

    /** `MoveStorage`: moves the storage of the given torrents to `dest`. */
    method MoveStorage(torrentIDs: seq<string>, dest: string, x: Exchange) returns (r: Outcome)
      requires Valid() && open
      modifies this
      ensures Valid() && serial == NextSerial(old(serial)) && open && settings == old(settings) && classID == old(classID)
      ensures requests == old(requests) + [Envelope(serial, "core.move_storage", [List(BytesList(torrentIDs)), Bytes(dest)], [])]
      ensures r == Acknowledged(Values(serial, x))
    {
      var resp := Rpc("core.move_storage", [List(BytesList(torrentIDs)), Bytes(dest)], [], x);
      var v := ReturnValues(resp);
      if v.Failure? {
        return Fail(v.error);
      }
      r := Pass;
    }

    /** `SessionState`: the ids of the torrents in the session. */
    method SessionState(x: Exchange) returns (r: Result<seq<string>>)
      requires Valid() && open
      requires var v := Values(NextSerial(serial), x); v.Success? ==> StringListTyped(v.value)
      modifies this
      ensures Valid() && serial == NextSerial(old(serial)) && open && settings == old(settings) && classID == old(classID)
      ensures requests == old(requests) + [Envelope(serial, "core.get_session_state", [], [])]
      ensures var v := Values(serial, x);
              (v.Failure? ==> r == Failure(v.error)) &&
              (v.Success? ==> (r.Success? <==> |v.value| > 0 && v.value[0].List?) &&
                              (r.Success? ==> BytesList(r.value) == v.value[0].items) &&
                              (r.Failure? ==> r.error == ScanFailed))
    {
      var resp := Rpc("core.get_session_state", [], [], x);
      var v := ReturnValues(resp);
      if v.Failure? {
        return Failure(v.error);
      }
      r := DecodeStringList(v.value);
    }

    /** `SetLabel`: sets the label of the torrent with the given hash. */
    method SetLabel(hash: string, torrentLabel: string, x: Exchange) returns (r: Outcome)
      requires Valid() && open
      modifies this
      ensures Valid() && serial == NextSerial(old(serial)) && open && settings == old(settings) && classID == old(classID)
      ensures requests == old(requests) + [Envelope(serial, "label.set_torrent", [Bytes(hash), Bytes(torrentLabel)], [])]
      ensures r == Acknowledged(Values(serial, x))
    {
      var resp := Rpc("label.set_torrent", [Bytes(hash), Bytes(torrentLabel)], [], x);
      var v := ReturnValues(resp);
      if v.Failure? {
        return Fail(v.error);
      }
      r := Pass;
    }

    /** `TorrentStatus`: the status of one torrent. */
    method TorrentStatus<S>(id: string, x: Exchange, toStruct: Dictionary -> Result<S>) returns (r: Result<S>)
      requires Valid() && open
      modifies this
      ensures Valid() && serial == NextSerial(old(serial)) && open && settings == old(settings) && classID == old(classID)
      ensures requests == old(requests) + [Envelope(serial, "core.get_torrent_status", TS.TorrentStatusArgs(id), [])]
      ensures var v := Values(serial, x);
              (v.Failure? ==> r == Failure(v.error)) &&
              (v.Success? ==> r == TS.DecodeTorrentStatus(v.value, toStruct))
    {
      var resp := Rpc("core.get_torrent_status", TS.TorrentStatusArgs(id), [], x);
      var v := ReturnValues(resp);
      if v.Failure? {
        return Failure(v.error);
      }
      r := TS.DecodeTorrentStatus(v.value, toStruct);
    }

    /** `TorrentsStatus`: the status of every torrent, by torrent id. */
    method TorrentsStatus<S(==)>(x: Exchange, toStruct: Dictionary -> Result<S>) returns (r: Result<map<string, S>>)
      requires Valid() && open
      modifies this
      ensures Valid() && serial == NextSerial(old(serial)) && open && settings == old(settings) && classID == old(classID)
      ensures requests == old(requests) + [Envelope(serial, "core.get_torrents_status", TS.TorrentsStatusArgs(), [])]
      ensures var v := Values(serial, x);
              (v.Failure? ==> r == Failure(v.error)) &&
              (v.Success? ==> TS.TorrentsStatusSpec(v.value, toStruct, r))
    {
      var resp := Rpc("core.get_torrents_status", TS.TorrentsStatusArgs(), [], x);
      var v := ReturnValues(resp);
      if v.Failure? {
        return Failure(v.error);
      }
      r := TS.DecodeTorrentsStatus(v.value, toStruct);
    }
  }
}
