# go-libdeluge client core, modelled in Dafny

go-libdeluge is a Go client for the RPC interface of the Deluge BitTorrent
daemon. A call is a rencode-encoded, zlib-compressed message on a TLS stream.
The message carries `[[serial, method, args, kwargs]]`. The reply is a list
`[type, id, ...]`: type 1 carries return values, type 2 a remote exception
and type 3 an event. This project models the part of the client that has a
behaviour to state:

- the `Client` object: the call serial,
  whether a connection is held, the class id of the logged-in user, `New`,
  `Close`, `Connect` and the call wrappers (`DelugeClient`);
- the serial sequence, the request envelope and the classification of a
  decoded reply (`Protocol`);
- the conversion of torrent options into the dictionary sent to the daemon,
  including the `compact_allocation` name 1.x daemons use and the V2 block
  only 2.x daemons receive (`Options`);
- the status field list and the decoders of torrent status replies
  (`TorrentStatus`);
- the decoders of hashes, removal flags, free space and string lists
  (`Methods`);
- the positional account parser and its list form (`Account`);
- the rounding of keep-alive durations to whole seconds (`KeepAlive`).

The values the codec produces are the datatype `Rencode.Value`. The codec
helpers the client relies on (`Values`, `Scan`, `Zip`, `NewList`) are
functions over it. The transport is not modelled. Each call takes an
`Exchange`: either the error that interrupted writing or reading, or the
value decoded from the reply. Dialling and closing the stream take the
transport's `Outcome` the same way. `ToStruct`, which fills a status
structure from a dictionary, is a function parameter `toStruct`. A Go type
assertion that would panic becomes a precondition: the `...Typed`
predicates and the `requires` of the wrappers.

A remote error reply is `[2, id, [type, message, traceback, ...]]`: the code
scans the third element as a list of three strings (delugeclient.go:190-199),
so `Protocol.Classify` expects that shape.

Some functions exist in two copies. The model takes one of each:

- the status field list, `TorrentsStatus` and its decoder come from torrent_status.go and
  not from methods.go:96-174;
- `AddTorrentMagnet` comes from methods.go and not from
  delugeclient.go:312-335;
- the options dictionary of `AddTorrentMagnet` and `AddTorrentURL`
  (`mapToRencodeDictionary`, whose definition is not part of this model) is
  `toDictionary`, with the daemon line as a parameter of the call;
- the error of a remote exception is `Remote(type, message, traceback)`,
  both where the code returns `resp.RPCError` and where it returns
  `RPCError{resp.String()}`.

`NewAccount` at account.go:26 declares no results but returns an account or
an error. It is modelled as returning them.

## Model

| member | source | states |
|---|---|---|
| Rencode.DictValues | account.go:31 | the values of a dictionary, one per entry, in entry order |
| Rencode.BytesList | methods.go:201 | a list of Go strings becomes a list of byte strings of the same length, position by position |
| Rencode.ScanInt64 | methods.go:35-39 | scanning an int64 succeeds exactly when the first value is an integer, yields that integer, and otherwise fails with a scan error |
| Rencode.ScanString | delugeclient.go:303-307 | scanning a string succeeds exactly when the first value is a byte string, yields it, and otherwise fails with a scan error |
| Rencode.ZipSucceeds | torrent_status.go:159-162 | zipping a dictionary succeeds exactly when every key is a byte string and no key occurs twice |
| Rencode.ZipEntries | torrent_status.go:159-178 | a zipped map sends each entry's key to that entry's value and has no other keys |
| KeepAlive.TruncDiv | keep_alive.go:63 | `int(d.Seconds())` truncates the float64 number of seconds toward zero: the quotient times the divisor is within one divisor of the dividend, on the side of zero (exact division, which agrees with the float64 route within the admitted bound) |
| KeepAlive.Secs | keep_alive.go:61-64 | the seconds never fall short of the duration, exceed it by less than one second when it is positive, and are at most 0 for a duration that is not positive |
| KeepAlive.SecsExact | keep_alive.go:61-64 | a whole number of seconds converts to exactly that number |
| KeepAlive.SecsMonotone | keep_alive.go:61-64 | a longer duration never converts to fewer seconds |
| KeepAlive.SecsMinusOneSecond | keep_alive.go:62-63 | minus one second converts to 0: truncation rounds negative durations up |
| Account.ToList | account.go:45-51 | an account's list form is three byte strings: username, password and auth level, in that order |
| Account.NewAccount | account.go:26-43 | a dictionary of exactly three entries parses, anything else fails with ErrInvalidListResult; the account's list form is the dictionary's values in order |
| Account.RoundTrip | account.go:26-51 | a dictionary whose values are an account's list form parses back to that account, whatever its keys |
| Account.ParsedIsListForm | account.go:26-51 | every dictionary that parses is the list form of its account under its own keys |
| Options.OnlyPreAllocateStorageIsSoNamed | options.go:71-76 | only the preallocation field has the snake-case name `pre_allocate_storage` |
| Options.OnlyPreAllocationRenamed | options.go:71-76 | a field goes out under a name other than its snake-case name exactly when it is the preallocation flag sent to a 1.x daemon |
| Options.WireNameInverse | options.go:71-90 | which field is sent under each of `compact_allocation`, `pre_allocate_storage`, `sequential_download`, `shared` and `super_seeding`, for either daemon line |
| Options.Fields | options.go:26-44 | Options has fifteen fields, the fifteenth being the nested V2 block |
| Options.Marshal | options.go:52-56 | nil options give the empty dictionary |
| Options.V2Fields | options.go:46-50 | V2Options has three fields |
| Options.AddFields | options.go:61-79 | one reflection loop appends, in field order, one entry per set pointer field, skips the nested struct and renames the preallocation flag for 1.x |
| Options.ToDictionary | options.go:52-96 | the dictionary is empty for nil options, otherwise the top-level walk followed by the V2 walk for a 2.x daemon |
| Options.EntriesSnoc | options.go:61-79 | one more field adds its own entry, if any, after those of the fields before it |
| Options.EntriesAppend | options.go:61-93 | the entries of two runs of fields are the first run's followed by the second's |
| Options.MarshalIsTableWalk | options.go:52-96 | the dictionary is one walk over the top-level fields, then the V2 fields for 2.x |
| Options.EntriesCount | options.go:67-78 | each set field contributes exactly one entry and each unset one none |
| Options.EntriesMembership | options.go:67-78 | an entry is present exactly when some set field has that key and value |
| Options.EntriesKeys | options.go:67-78 | a key is present exactly when some set field is sent under it |
| Options.MarshalKeys | options.go:52-96 | a key of the dictionary is the wire name of a set field of the walked table, and conversely |
| Options.CompactAllocationForV1 | options.go:71-78 | for 1.x, `compact_allocation` is present exactly when preallocation is set, and `pre_allocate_storage` never is |
| Options.HasKeyAppend | options.go:78-91 | a key is in a concatenated dictionary exactly when it is in one of the parts |
| Options.MarshalKeysV2 | options.go:61-93 | for 2.x, a key is present exactly when it comes from the top-level or the V2 entries |
| Options.TopFieldsNeverSendForV2 | options.go:61-79 | no top-level field is sent to 2.x as `compact_allocation` or under a V2 key |
| Options.V2FieldsNeverSendPreAllocation | options.go:81-93 | no V2 field is sent under either preallocation key |
| Options.PreAllocateStorageForV2 | options.go:71-78 | for 2.x, `pre_allocate_storage` is present exactly when preallocation is set, and `compact_allocation` never is |
| Options.PreAllocateStorageKeptForV2 | options.go:71-78 | the top-level walk for 2.x sends preallocation under its own name exactly when it is set |
| Options.V2FieldsSentForV2 | options.go:81-93 | for 2.x, each V2 key is present exactly when its field is set |
| Options.V2KeySentForV2 | options.go:81-93 | for 2.x, the key of the i-th V2 field is present exactly when that field is set |
| Options.V2FieldSent | options.go:81-93 | the V2 walk sends the i-th V2 field's key exactly when it is set |
| Options.V2FieldsDroppedForV1 | options.go:81-93 | for 1.x, no V2 key is ever present, even when its field is set |
| Options.V2FieldDroppedForV1 | options.go:81-93 | for 1.x, the given V2 key is absent |
| Options.MarshalCount | options.go:52-96 | the dictionary has one entry per set top-level field, plus one per set V2 field for 2.x |
| Options.WireNameDeterminesField | options.go:71-76 | the key a field is sent under determines the field, for either daemon line |
| Options.FieldsAtWalkPositions | options.go:26-44 | the top-level fields are walked in declaration order |
| Options.V2FieldsAtWalkPositions | options.go:46-50 | the V2 fields are walked in declaration order, after the top-level ones |
| Options.EntriesDistinct | options.go:61-93 | a walk over fields in declaration order never sends a key twice |
| Options.MarshalZips | options.go:52-96 | the dictionary never repeats a key, so it always zips into a map |
| Options.ZippedKeys | options_test.go:44-49 | the keys of the zipped map are exactly the keys of the dictionary |
| Options.TestOptionsEncoding | options_test.go:21-82 | the test options give `compact_allocation` and no `shared` for 1.x, and `pre_allocate_storage` and `shared` and no `compact_allocation` for 2.x |
| TorrentStatus.StatusKeysShape | torrent_status.go:65-95 | the status field list has thirty names, no name twice, including `completed_time` and `private` |
| TorrentStatus.StatusKeysArg | torrent_status.go:65-95 | the field list goes out as a rencode list holding each status name as a byte string, in order |
| TorrentStatus.TorrentStatusArgs | torrent_status.go:99-101 | `core.get_torrent_status` takes two arguments: the torrent id as a byte string, then the field list |
| TorrentStatus.TorrentsStatusArgs | torrent_status.go:115-117 | `core.get_torrents_status` takes two arguments: an empty filter dictionary, then the field list |
| TorrentStatus.DecodeStatusValue | torrent_status.go:135-144 | a status value that is not a dictionary fails with ErrInvalidListResult; a dictionary gives whatever ToStruct gives |
| TorrentStatus.DecodeTorrentStatus | torrent_status.go:130-147 | not exactly one return value fails with ErrInvalidReturnValue, a non-dictionary with ErrInvalidListResult, and a dictionary gives ToStruct's result |
| TorrentStatus.OuterStatusMap | torrent_status.go:150-162 | the same two checks on the outer value, then the zip, whose failure is reported |
| TorrentStatus.DecodeTorrentsStatus | torrent_status.go:149-180 | on success the map has exactly the zipped torrent ids, each with its decoded status; on failure the error is that of the outer checks or of some torrent whose status does not decode, and no partial map is returned |
| TorrentStatus.TorrentsStatusIds | torrent_status.go:159-178 | on success the reply's torrent ids are distinct, and an id is in the result exactly when it is a key of the reply |
| TorrentStatus.NonDictionaryStatusFails | torrent_status.go:165-169 | a torrent whose status is not a dictionary makes the whole call fail |
| Methods.DecodeTorrentHash | methods.go:57-67 | no return value fails with ErrInvalidReturnValue, nil gives the empty hash, and otherwise the hash is the first value's bytes |
| Methods.NilHashIsEmptyHash | methods.go:63-67 | nil and an empty byte string give the same empty hash |
| Methods.HashRoundTrip | methods.go:67 | a returned hash decodes to itself |
| Methods.DecodeRemoved | methods.go:189-196 | no return value fails with ErrInvalidReturnValue, and otherwise the result is the first value's boolean |
| Methods.DecodeFreeSpace | methods.go:35-41 | the free space is the first return value when it is an integer, and otherwise a scan error |
| Methods.DecodeStringList | methods.go:223-233 | the first return value must be a list; the result has one string per element, in order, each the element's bytes |
| Methods.BytesListInjective | methods.go:228-231 | different string lists have different byte-string lists, so the decoded list is the only one that matches |
| Protocol.DelugeResponse.IsError | delugeclient.go:91-93 | a response is an error exactly when its type is 2 |
| Protocol.NextSerial | delugeclient.go:116-119 | from a serial in [0, MaxInt64) the next serial is one more, except that the one after MaxInt64 - 1 is 1; it is never 0 and never MaxInt64 |
| Protocol.SerialOfCall | delugeclient.go:116-119 | the serial of every call lies between 1 and MaxInt64 - 1 |
| Protocol.NextSerialOfCall | delugeclient.go:116-119 | starting from 0, the calls use 1, 2, ..., MaxInt64 - 1, then 1 again |
| Protocol.SerialsDistinctWithinCycle | delugeclient.go:116-119 | calls fewer than MaxInt64 - 1 apart never share a serial |
| Protocol.Payload | delugeclient.go:126-128 | the message of a request is a one-element list holding `[serial, method, args, kwargs]`, and reads back as that request through `ParsePayload` |
| Protocol.ParsedIsPayload | delugeclient.go:126-128 | every value that `ParsePayload` reads as a request is the message of that request, so `ParsePayload` is the exact inverse of `Payload` |
| Protocol.Classify | delugeclient.go:167-204 | a transport error is returned as is; an accepted response echoes the serial, has type 1 or 2, carries the rest of the reply as return values for type 1 and none for type 2 |
| Protocol.MismatchCheckedFirst | delugeclient.go:175-182 | an id other than the serial fails with a serial mismatch, whatever the message type |
| Protocol.MalformedHeader | delugeclient.go:167-178 | a reply that is not a list starting with two integers fails to scan |
| Protocol.ResponseAccepted | delugeclient.go:185-189 | a type 1 reply echoing the serial is accepted, is not an error, and returns the reply without its first two elements |
| Protocol.RemoteErrorShape | delugeclient.go:190-199 | a type 2 reply echoing the serial is accepted exactly when its third element is a list starting with three byte strings, which become type, message and traceback; otherwise it fails to scan |
| Protocol.OtherTypesRefused | delugeclient.go:200-204 | type 3 fails with "event support not available" and every other type with "unknown message type" |
| Protocol.ReturnValues | torrent_status.go:103-109 | a call error passes through, a remote error becomes the RPC error before anything is decoded, and otherwise the return values are handed on |
| Protocol.ReturnValuesOnlyFromResponses | delugeclient.go:179-189 | return values reach a decoder only from a type 1 reply that echoed the serial |
| Protocol.LoginReplyExample | delugeclient.go:249-261 | a client at serial 0 accepts the login reply `[1, 1, 10]`, whose return value is 10 |
| DelugeClient.WithDefaults | delugeclient.go:214-221 | a zero timeout becomes the 30-second default, any other timeout and every other setting is kept |
| DelugeClient.WithDefaultsIdempotent | delugeclient.go:214-221 | applying the defaults twice changes nothing more |
| DelugeClient.Acknowledged | methods.go:203-211 | a call with no result succeeds exactly when its reply is not an error |
| DelugeClient.Client.SerialsInRange | delugeclient.go:116-119 | the serial held and every serial sent lie below MaxInt64, and every serial sent is at least 1 |
| DelugeClient.Client.constructor | delugeclient.go:214-221 | a new client holds no connection, serial 0 and the settings with the default timeout, and has sent nothing |
| DelugeClient.Client.Rpc | delugeclient.go:114-211 | the serial advances before anything can fail, the request goes out under it as the message `Payload` builds, which is appended to the written messages, and the result is the classified reply |
| DelugeClient.Client.Close | delugeclient.go:224-231 | without a connection it fails with ErrAlreadyClosed; with one it returns the close result and holds no connection, so a second close fails |
| DelugeClient.Client.Connect | delugeclient.go:234-268 | a failed dial leaves no connection and sends nothing; otherwise it logs in with the configured credentials and keeps the first return value as the class id, which is unchanged on failure |
| DelugeClient.Client.MethodsList | delugeclient.go:270-291 | sends `daemon.get_method_list` with no arguments and returns the names, one per element |
| DelugeClient.Client.DaemonVersion | delugeclient.go:293-310 | sends `daemon.info` with no arguments and returns the first return value as a string |
| DelugeClient.Client.GetFreeSpace | methods.go:22-42 | sends `core.get_free_space` with the path and returns the first return value as an int64 |
| DelugeClient.Client.AddTorrent | methods.go:44-94 | sends the location and the options dictionary and decodes the returned hash |
| DelugeClient.Client.AddTorrentMagnet | methods.go:44-68 | sends `core.add_torrent_magnet` with the URI and the options dictionary and decodes the returned hash |
| DelugeClient.Client.AddTorrentURL | methods.go:70-94 | sends `core.add_torrent_url` with the URL and the options dictionary and decodes the returned hash |
| DelugeClient.Client.DeleteTorrent | methods.go:176-197 | sends `core.remove_torrent` with the id and `true` and returns the first return value as a boolean |
| DelugeClient.Client.MoveStorage | methods.go:199-212 | sends `core.move_storage` with the id list and the destination and succeeds exactly when the reply is not an error |
| DelugeClient.Client.SessionState | methods.go:214-234 | sends `core.get_session_state` with no arguments and returns the ids, one per element |
| DelugeClient.Client.SetLabel | methods.go:236-250 | sends `label.set_torrent` with the hash and the label and succeeds exactly when the reply is not an error |
| DelugeClient.Client.TorrentStatus | torrent_status.go:98-112 | sends `core.get_torrent_status` with the id and the status field list and decodes one status |
| DelugeClient.Client.TorrentsStatus | torrent_status.go:114-128 | sends `core.get_torrents_status` with an empty filter and the status field list and decodes the map of statuses |

## Left out

- TLS dialling, deadlines, keep-alive socket options, zlib and the rencode byte format are I/O or library code. A call's reply arrives decoded, as an `Exchange`; dialling and closing take an `Outcome`.
- The logger and `DelugeResponse.String` only produce text. `RPCError{resp.String()}` is modelled by the exception triple, not the formatted text.
- Floating-point values (`StopRatio`, `RemoveAtRatio` and the float status fields) are carried by bit pattern and never interpreted.
- `ToStruct` is a function parameter, because filling a Go struct by reflection belongs to the codec library. The status structure itself is a type parameter.
- The event fields of `DelugeResponse` are never filled by the code, so they are not modelled.
- KeepAlive.Secs: the float64 path (`d.Seconds()`, then `int`) is modelled as exact integer division, for durations up to 2^22 seconds either way, where the two agree.
- Protocol.Classify: how the codec's `Scan` converts between integer widths and between byte strings and strings is not modelled. An integer target needs an integer value, and a string target needs a byte string.
- Rencode.Zip: the codec's `Zip` is assumed to fail on a key that is not a byte string or that occurs twice, and to succeed otherwise.
- DelugeClient.Client.Connect: `Scan` is assumed to leave `classID` unchanged when it fails.
- The wrappers require a connection, because the source would dereference a nil connection otherwise. Their `requires` clauses also exclude the return values whose type assertions would panic.
- Plugins, session status and statistics, accounts over RPC, and the other wrappers outside the files above are out of scope.
- The versioned message header, the v2 error shape and the v2 login tag are not part of the shown code and are not modelled.
