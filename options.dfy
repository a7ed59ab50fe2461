/**
 * Options for adding a torrent, and their conversion to the generic
 * dictionary sent to the daemon (`Options.toDictionary`).  Reflection over
 * the struct is replaced by a fixed table of fields in declaration order,
 * each with the snake-case name that the conversion gives it.
 */
module Options {
  import opened Errors
  import opened Rencode

  /** `V2Options`: fields that only daemons of the 2.x line accept. */
  datatype V2Options = V2Options(
    sequentialDownload: Option<bool>,
    shared: Option<bool>,
    superSeeding: Option<bool>)

  /** `Options`; every field may be unset (a nil pointer). */
  datatype Options = Options(
    maxConnections: Option<int64>,
    maxUploadSlots: Option<int64>,
    maxUploadSpeed: Option<int64>,
    maxDownloadSpeed: Option<int64>,
    prioritizeFirstLastPieces: Option<bool>,
    preAllocateStorage: Option<bool>,
    downloadLocation: Option<string>,
    autoManaged: Option<bool>,
    stopAtRatio: Option<bool>,
    stopRatio: Option<nat>,          // float32, by bit pattern
    removeAtRatio: Option<nat>,      // float32, by bit pattern
    moveCompleted: Option<bool>,
    moveCompletedPath: Option<string>,
    addPaused: Option<bool>,
    v2: V2Options)

  /** The pointer fields of `Options` and `V2Options`, by their Go names. */
  datatype FieldName =
    | MaxConnections | MaxUploadSlots | MaxUploadSpeed | MaxDownloadSpeed
    | PrioritizeFirstLastPieces | PreAllocateStorage | DownloadLocation | AutoManaged
    | StopAtRatio | StopRatio | RemoveAtRatio | MoveCompleted | MoveCompletedPath | AddPaused
    | SequentialDownload | Shared | SuperSeeding

  /** `ToSnakeCase` of each field name. */
  function SnakeCase(n: FieldName): string
  {
    match n
    case MaxConnections => "max_connections"
    case MaxUploadSlots => "max_upload_slots"
    case MaxUploadSpeed => "max_upload_speed"
    case MaxDownloadSpeed => "max_download_speed"
    case PrioritizeFirstLastPieces => "prioritize_first_last_pieces"
    case PreAllocateStorage => "pre_allocate_storage"
    case DownloadLocation => "download_location"
    case AutoManaged => "auto_managed"
    case StopAtRatio => "stop_at_ratio"
    case StopRatio => "stop_ratio"
    case RemoveAtRatio => "remove_at_ratio"
    case MoveCompleted => "move_completed"
    case MoveCompletedPath => "move_completed_path"
    case AddPaused => "add_paused"
    case SequentialDownload => "sequential_download"
    case Shared => "shared"
    case SuperSeeding => "super_seeding"
  }

  /** Only the preallocation field is called `pre_allocate_storage`. */
  lemma OnlyPreAllocateStorageIsSoNamed(n: FieldName)
    ensures SnakeCase(n) == "pre_allocate_storage" <==> n == PreAllocateStorage
  {
  }

  /** The preallocation flag for a 1.x daemon is the only field sent under another name than its own. */
  lemma OnlyPreAllocationRenamed(n: FieldName, legacy: bool)
    ensures WireName(n, legacy) != SnakeCase(n) <==> legacy && n == PreAllocateStorage
  {
  }

  /** Which fields are sent under the keys that depend on the daemon's line. */
  lemma WireNameInverse(n: FieldName, legacy: bool)
    ensures WireName(n, legacy) == "compact_allocation" <==> legacy && n == PreAllocateStorage
    ensures WireName(n, legacy) == "pre_allocate_storage" <==> !legacy && n == PreAllocateStorage
    ensures WireName(n, legacy) == "sequential_download" <==> n == SequentialDownload
    ensures WireName(n, legacy) == "shared" <==> n == Shared
    ensures WireName(n, legacy) == "super_seeding" <==> n == SuperSeeding
  {
  }

  /** One struct field as reflection sees it: a pointer field or the nested V2 struct. */
  datatype Field = Scalar(name: FieldName, value: Option<Value>) | Nested

  function IntField(x: Option<int64>): Option<Value> { if x.Some? then Some(Int(x.value)) else None }
  function BoolField(x: Option<bool>): Option<Value> { if x.Some? then Some(Bool(x.value)) else None }
  function StringField(x: Option<string>): Option<Value> { if x.Some? then Some(Bytes(x.value)) else None }
  function FloatField(x: Option<nat>): Option<Value> { if x.Some? then Some(Float(x.value)) else None }

  /** The fields of `Options` in declaration order; V2 is the nested struct, declared last. */
  function Fields(o: Options): (fs: seq<Field>)
    ensures |fs| == 15 && fs[14] == Nested
  {
    [ Scalar(MaxConnections, IntField(o.maxConnections)),
      Scalar(MaxUploadSlots, IntField(o.maxUploadSlots)),
      Scalar(MaxUploadSpeed, IntField(o.maxUploadSpeed)),
      Scalar(MaxDownloadSpeed, IntField(o.maxDownloadSpeed)),
      Scalar(PrioritizeFirstLastPieces, BoolField(o.prioritizeFirstLastPieces)),
      Scalar(PreAllocateStorage, BoolField(o.preAllocateStorage)),
      Scalar(DownloadLocation, StringField(o.downloadLocation)),
      Scalar(AutoManaged, BoolField(o.autoManaged)),
      Scalar(StopAtRatio, BoolField(o.stopAtRatio)),
      Scalar(StopRatio, FloatField(o.stopRatio)),
      Scalar(RemoveAtRatio, FloatField(o.removeAtRatio)),
      Scalar(MoveCompleted, BoolField(o.moveCompleted)),
      Scalar(MoveCompletedPath, StringField(o.moveCompletedPath)),
      Scalar(AddPaused, BoolField(o.addPaused)),
      Nested ]
  }

  /** The fields of `V2Options` in declaration order. */
  function V2Fields(v: V2Options): (fs: seq<Field>)
    ensures |fs| == 3
  {
    [ Scalar(SequentialDownload, BoolField(v.sequentialDownload)),
      Scalar(Shared, BoolField(v.shared)),
      Scalar(SuperSeeding, BoolField(v.superSeeding)) ]
  }

  /** The key a field is sent under; 1.x daemons call the preallocation flag `compact_allocation`. */
  function WireName(n: FieldName, legacy: bool): string
  {
    if legacy && n == PreAllocateStorage then "compact_allocation" else SnakeCase(n)
  }

  /** The entry one field contributes: none when it is unset or is the nested struct. */
  function Entry(f: Field, legacy: bool): seq<(Value, Value)>
  {
    if f.Scalar? && f.value.Some? then [(Bytes(WireName(f.name, legacy)), f.value.value)] else []
  }

  /** The entries a run of fields contributes, in field order. */
  function Entries(fs: seq<Field>, legacy: bool): seq<(Value, Value)>
  {
    if fs == [] then [] else Entries(fs[..|fs| - 1], legacy) + Entry(fs[|fs| - 1], legacy)
  }

  /** The dictionary `toDictionary` builds; a nil `Options` gives the empty dictionary. */
  function Marshal(o: Option<Options>, v2daemon: bool): (d: seq<(Value, Value)>)
    ensures o.None? ==> d == []
  {
    if o.None? then []
    else Entries(Fields(o.value), !v2daemon) + (if v2daemon then Entries(V2Fields(o.value.v2), false) else [])
  }

  /**
   * One reflection loop of `toDictionary`: appends an entry for every set
   * pointer field of `fields`, skipping the nested struct and renaming the
   * preallocation flag when `legacy` holds.
   */
  method AddFields(dict: seq<(Value, Value)>, fields: seq<Field>, legacy: bool) returns (out: seq<(Value, Value)>)
    ensures out == dict + Entries(fields, legacy)
  {
    out := dict;
    for i := 0 to |fields|
      invariant out == dict + Entries(fields[..i], legacy)
    {
      EntriesSnoc(fields, i, legacy);
      var f := fields[i];
      if f.Nested? {
        // the single struct field, V2, is handled by a loop of its own
        continue;
      }
      if f.value.None? {
        continue;
      }
      var name := SnakeCase(f.name);
      if legacy {
        OnlyPreAllocateStorageIsSoNamed(f.name);
        if name == "pre_allocate_storage" {
          name := "compact_allocation";
        }
      }
      out := out + [(Bytes(name), f.value.value)];
    }
    assert fields[..|fields|] == fields;
  }

  /** `Options.toDictionary`. */
  method ToDictionary(o: Option<Options>, v2daemon: bool) returns (dict: seq<(Value, Value)>)
    ensures dict == Marshal(o, v2daemon)
  {
    dict := [];
    if o.None? {
      return;
    }
    dict := AddFields(dict, Fields(o.value), !v2daemon);
    if v2daemon {
      dict := AddFields(dict, V2Fields(o.value.v2), false);
    }
  }

  /** Walking one more field appends that field's entry. */
  lemma EntriesSnoc(fs: seq<Field>, i: nat, legacy: bool)
    requires i < |fs|
    ensures Entries(fs[..i + 1], legacy) == Entries(fs[..i], legacy) + Entry(fs[i], legacy)
  {
    assert fs[..i + 1][..i] == fs[..i];
  }

  /** True when some entry of `d` has the byte-string key `k`. */
  predicate HasKey(d: seq<(Value, Value)>, k: string)
  {
    exists e :: e in d && e.0 == Bytes(k)
  }

  /** The number of fields that are set. */
  function SetCount(fs: seq<Field>): nat
  {
    if fs == [] then 0 else SetCount(fs[..|fs| - 1]) + (if fs[|fs| - 1].Scalar? && fs[|fs| - 1].value.Some? then 1 else 0)
  }

  /** The fields a daemon of the given line is sent, in the order they are walked. */
  function Table(o: Options, v2daemon: bool): seq<Field>
  {
    if v2daemon then Fields(o) + V2Fields(o.v2) else Fields(o)
  }

  /** `toDictionary` is one walk over the table, renaming only for a 1.x daemon. */
  lemma MarshalIsTableWalk(o: Options, v2daemon: bool)
    ensures Marshal(Some(o), v2daemon) == Entries(Table(o, v2daemon), !v2daemon)
  {
    if v2daemon {
      EntriesAppend(Fields(o), V2Fields(o.v2), false);
    }
  }

  /** The entries of consecutive runs of fields are the runs' entries, in order. */
  lemma {:induction false} EntriesAppend(a: seq<Field>, b: seq<Field>, legacy: bool)
    ensures Entries(a + b, legacy) == Entries(a, legacy) + Entries(b, legacy)
  {
    if b == [] {
      assert a + b == a;
    } else {
      assert (a + b)[..|a + b| - 1] == a + b[..|b| - 1];
      EntriesAppend(a, b[..|b| - 1], legacy);
    }
  }

  /** Each set field contributes exactly one entry, each unset field none. */
  lemma {:induction false} EntriesCount(fs: seq<Field>, legacy: bool)
    ensures |Entries(fs, legacy)| == SetCount(fs)
  {
    if fs != [] {
      EntriesCount(fs[..|fs| - 1], legacy);
    }
  }

  /**
   * An entry (k, v) is produced exactly when some field is set to v and is
   * sent under the key k.
   */
  lemma {:induction false} EntriesMembership(fs: seq<Field>, legacy: bool, k: string, v: Value)
    ensures (Bytes(k), v) in Entries(fs, legacy) <==>
            exists f :: f in fs && f.Scalar? && f.value == Some(v) && WireName(f.name, legacy) == k
  {
    if fs != [] {
      var init := fs[..|fs| - 1];
      EntriesMembership(init, legacy, k, v);
      assert fs == init + [fs[|fs| - 1]];
    }
  }

  /** A key is present exactly when some field sent under that key is set. */
  lemma {:induction false} EntriesKeys(fs: seq<Field>, legacy: bool, k: string)
    ensures HasKey(Entries(fs, legacy), k) <==>
            exists f :: f in fs && f.Scalar? && f.value.Some? && WireName(f.name, legacy) == k
  {
    if fs != [] {
      var init := fs[..|fs| - 1];
      var last := fs[|fs| - 1];
      EntriesKeys(init, legacy, k);
      assert fs == init + [last];
      assert Entries(fs, legacy) == Entries(init, legacy) + Entry(last, legacy);
    }
  }

  /** The marshaled options have key k exactly when a field walked and sent under k is set. */
  lemma MarshalKeys(o: Options, v2daemon: bool, k: string)
    ensures HasKey(Marshal(Some(o), v2daemon), k) <==>
            exists f :: f in Table(o, v2daemon) && f.Scalar? && f.value.Some? && WireName(f.name, !v2daemon) == k
  {
    MarshalIsTableWalk(o, v2daemon);
    EntriesKeys(Table(o, v2daemon), !v2daemon, k);
  }

  /**
   * For a 1.x daemon the preallocation flag is sent as `compact_allocation`
   * exactly when it is set, and `pre_allocate_storage` is never sent.
   */
  lemma CompactAllocationForV1(o: Options)
    ensures HasKey(Marshal(Some(o), false), "compact_allocation") <==> o.preAllocateStorage.Some?
    ensures !HasKey(Marshal(Some(o), false), "pre_allocate_storage")
  {
    MarshalKeys(o, false, "compact_allocation");
    MarshalKeys(o, false, "pre_allocate_storage");
    forall n: FieldName { WireNameInverse(n, true); }
    assert Fields(o)[5] in Table(o, false);
  }

  lemma HasKeyAppend(a: seq<(Value, Value)>, b: seq<(Value, Value)>, k: string)
    ensures HasKey(a + b, k) <==> HasKey(a, k) || HasKey(b, k)
  {
    if HasKey(a + b, k) {
      var e :| e in a + b && e.0 == Bytes(k);
      assert e in a || e in b;
    }
  }

  /** For a 2.x daemon, a key is present when the top-level walk or the V2 walk sends it. */
  lemma MarshalKeysV2(o: Options, k: string)
    ensures HasKey(Marshal(Some(o), true), k) <==>
            HasKey(Entries(Fields(o), false), k) || HasKey(Entries(V2Fields(o.v2), false), k)
  {
    HasKeyAppend(Entries(Fields(o), false), Entries(V2Fields(o.v2), false), k);
  }

  /** No top-level field is sent to a 2.x daemon under these keys. */
  lemma TopFieldsNeverSendForV2(o: Options, k: string)
    requires k == "compact_allocation" || k == "sequential_download" || k == "shared" || k == "super_seeding"
    ensures !HasKey(Entries(Fields(o), false), k)
  {
    EntriesKeys(Fields(o), false, k);
    forall n: FieldName { WireNameInverse(n, false); }
  }

  /** No V2 field is sent under the preallocation keys. */
  lemma V2FieldsNeverSendPreAllocation(v: V2Options, k: string)
    requires k == "compact_allocation" || k == "pre_allocate_storage"
    ensures !HasKey(Entries(V2Fields(v), false), k)
  {
    EntriesKeys(V2Fields(v), false, k);
    forall n: FieldName { WireNameInverse(n, false); }
  }

  /**
   * For a 2.x daemon the preallocation flag keeps its name
   * `pre_allocate_storage`, and `compact_allocation` is never sent.
   */
  lemma PreAllocateStorageForV2(o: Options)
    ensures HasKey(Marshal(Some(o), true), "pre_allocate_storage") <==> o.preAllocateStorage.Some?
    ensures !HasKey(Marshal(Some(o), true), "compact_allocation")
  {
    MarshalKeysV2(o, "pre_allocate_storage");
    MarshalKeysV2(o, "compact_allocation");
    V2FieldsNeverSendPreAllocation(o.v2, "pre_allocate_storage");
    V2FieldsNeverSendPreAllocation(o.v2, "compact_allocation");
    TopFieldsNeverSendForV2(o, "compact_allocation");
    PreAllocateStorageKeptForV2(o);
  }

  lemma PreAllocateStorageKeptForV2(o: Options)
    ensures HasKey(Entries(Fields(o), false), "pre_allocate_storage") <==> o.preAllocateStorage.Some?
  {
    EntriesKeys(Fields(o), false, "pre_allocate_storage");
    forall n: FieldName { WireNameInverse(n, false); }
    assert Fields(o)[5] in Fields(o);
  }

  /** The V2 block's fields are sent to a 2.x daemon exactly when set. */
  lemma V2FieldsSentForV2(o: Options)
    ensures HasKey(Marshal(Some(o), true), "sequential_download") <==> o.v2.sequentialDownload.Some?
    ensures HasKey(Marshal(Some(o), true), "shared") <==> o.v2.shared.Some?
    ensures HasKey(Marshal(Some(o), true), "super_seeding") <==> o.v2.superSeeding.Some?
  {
    var fs := V2Fields(o.v2);
    assert fs[0].value.Some? <==> o.v2.sequentialDownload.Some?;
    assert fs[1].value.Some? <==> o.v2.shared.Some?;
    assert fs[2].value.Some? <==> o.v2.superSeeding.Some?;
    V2KeySentForV2(o, 0, "sequential_download");
    V2KeySentForV2(o, 1, "shared");
    V2KeySentForV2(o, 2, "super_seeding");
  }

  lemma V2KeySentForV2(o: Options, i: nat, k: string)
    requires i < 3 && k == SnakeCase(V2Fields(o.v2)[i].name)
    requires k == "sequential_download" || k == "shared" || k == "super_seeding"
    ensures HasKey(Marshal(Some(o), true), k) <==> V2Fields(o.v2)[i].value.Some?
  {
    MarshalKeysV2(o, k);
    TopFieldsNeverSendForV2(o, k);
    V2FieldSent(o.v2, i);
  }

  lemma V2FieldSent(v: V2Options, i: nat)
    requires i < 3
    ensures HasKey(Entries(V2Fields(v), false), SnakeCase(V2Fields(v)[i].name)) <==> V2Fields(v)[i].value.Some?
  {
    EntriesKeys(V2Fields(v), false, SnakeCase(V2Fields(v)[i].name));
    assert V2Fields(v)[i] in V2Fields(v);
  }

  /** For a 1.x daemon the V2 block's fields are dropped even when set. */
  lemma V2FieldsDroppedForV1(o: Options)
    ensures !HasKey(Marshal(Some(o), false), "sequential_download")
    ensures !HasKey(Marshal(Some(o), false), "shared")
    ensures !HasKey(Marshal(Some(o), false), "super_seeding")
  {
    V2FieldDroppedForV1(o, "sequential_download");
    V2FieldDroppedForV1(o, "shared");
    V2FieldDroppedForV1(o, "super_seeding");
  }

  lemma V2FieldDroppedForV1(o: Options, k: string)
    requires k == "sequential_download" || k == "shared" || k == "super_seeding"
    ensures !HasKey(Marshal(Some(o), false), k)
  {
    MarshalKeys(o, false, k);
    forall n: FieldName { WireNameInverse(n, true); }
  }

  /** Every set field is sent exactly once: the dictionary has one entry per set field. */
  lemma MarshalCount(o: Options, v2daemon: bool)
    ensures |Marshal(Some(o), v2daemon)| == SetCount(Fields(o)) + (if v2daemon then SetCount(V2Fields(o.v2)) else 0)
  {
    EntriesCount(Fields(o), !v2daemon);
    EntriesCount(V2Fields(o.v2), false);
  }

  /**
   * The position of a field in the walk over `Options` followed by the walk
   * over `V2Options` (position 14 is the nested struct itself).
   */
  function WalkPosition(n: FieldName): nat
  {
    match n
    case MaxConnections => 0
    case MaxUploadSlots => 1
    case MaxUploadSpeed => 2
    case MaxDownloadSpeed => 3
    case PrioritizeFirstLastPieces => 4
    case PreAllocateStorage => 5
    case DownloadLocation => 6
    case AutoManaged => 7
    case StopAtRatio => 8
    case StopRatio => 9
    case RemoveAtRatio => 10
    case MoveCompleted => 11
    case MoveCompletedPath => 12
    case AddPaused => 13
    case SequentialDownload => 15
    case Shared => 16
    case SuperSeeding => 17
  }

  /**
   * Recovers the walk position from a key, told apart by its length and at
   * most one character; -1 for keys of other lengths.
   */
  function KeyPosition(k: string): int
  {
    if |k| == 6 then 16
    else if |k| == 10 then (if k[0] == 's' then 9 else 13)
    else if |k| == 12 then 7
    else if |k| == 13 then (if k[1] == 't' then 8 else 17)
    else if |k| == 14 then 11
    else if |k| == 15 then (if k[0] == 'm' then 0 else 10)
    else if |k| == 16 then (if k[12] == 'l' then 1 else 2)
    else if |k| == 17 then 6
    else if |k| == 18 then (if k[0] == 'm' then 3 else 5)
    else if |k| == 19 then (if k[0] == 'm' then 12 else 15)
    else if |k| == 20 then 5
    else if |k| == 28 then 4
    else -1
  }

  /** Every key names its field: the wire name determines the field, in either daemon line. */
  lemma WireNameDeterminesField(n: FieldName, legacy: bool)
    ensures KeyPosition(WireName(n, legacy)) == WalkPosition(n)
  {
  }

  /** The scalar fields of `fs` sit at their walk positions, counted from `base`. */
  predicate AtWalkPositions(fs: seq<Field>, base: int)
  {
    forall i :: 0 <= i < |fs| && fs[i].Scalar? ==> WalkPosition(fs[i].name) == base + i
  }

  lemma FieldsAtWalkPositions(o: Options)
    ensures AtWalkPositions(Fields(o), 0)
  {
  }

  lemma V2FieldsAtWalkPositions(v: V2Options)
    ensures AtWalkPositions(V2Fields(v), 15)
  {
  }

  /**
   * The entries of fields at their walk positions have distinct byte-string
   * keys, each naming a position of the run.
   */
  lemma {:induction false} EntriesDistinct(fs: seq<Field>, legacy: bool, base: int)
    requires AtWalkPositions(fs, base)
    ensures DistinctKeys(Entries(fs, legacy))
    ensures forall i :: 0 <= i < |Entries(fs, legacy)| ==>
              Entries(fs, legacy)[i].0.Bytes? && base <= KeyPosition(Entries(fs, legacy)[i].0.data) < base + |fs|
  {
    if fs != [] {
      var prefix := fs[..|fs| - 1];
      var last := fs[|fs| - 1];
      assert forall i :: 0 <= i < |prefix| ==> prefix[i] == fs[i];
      EntriesDistinct(prefix, legacy, base);
      if last.Scalar? {
        WireNameDeterminesField(last.name, legacy);
      }
    }
  }

  /**
   * `toDictionary` never sends a key twice, so the dictionary can always be
   * zipped into a map.
   */
  lemma MarshalZips(o: Option<Options>, v2daemon: bool)
    ensures DistinctKeys(Marshal(o, v2daemon))
    ensures Zip(Marshal(o, v2daemon)).Some?
  {
    var d := Marshal(o, v2daemon);
    if o.Some? {
      var top := Entries(Fields(o.value), !v2daemon);
      FieldsAtWalkPositions(o.value);
      EntriesDistinct(Fields(o.value), !v2daemon, 0);
      if v2daemon {
        var low := Entries(V2Fields(o.value.v2), false);
        V2FieldsAtWalkPositions(o.value.v2);
        EntriesDistinct(V2Fields(o.value.v2), false, 15);
        assert d == top + low;
        forall i, j | 0 <= i < j < |d| ensures d[i].0 != d[j].0 {
          if j >= |top| && i < |top| {
            assert d[i] == top[i] && d[j] == low[j - |top|];
          }
        }
      }
    }
    ZipSucceeds(d);
  }

  /** The keys of a zipped dictionary are the keys it has. */
  lemma ZippedKeys(d: seq<(Value, Value)>, k: string)
    requires Zip(d).Some?
    ensures k in Zip(d).value <==> HasKey(d, k)
  {
  }

  /**
   * The options of the encoding tests: 100 connections, auto-managed,
   * preallocated storage and, in the V2 block, shared.
   */
  function TestOptions(): Options
  {
    Options(Some(100), None, None, None, None, Some(true), None, Some(true), None, None, None, None, None, None,
            V2Options(None, Some(true), None))
  }

  /**
   * For a 1.x daemon the zipped dictionary has `compact_allocation` and no
   * `shared`; for a 2.x daemon it has `pre_allocate_storage` and `shared`
   * and no `compact_allocation`.
   */
  lemma TestOptionsEncoding()
    ensures Zip(Marshal(Some(TestOptions()), false)).Some?
    ensures "compact_allocation" in Zip(Marshal(Some(TestOptions()), false)).value
    ensures "shared" !in Zip(Marshal(Some(TestOptions()), false)).value
    ensures Zip(Marshal(Some(TestOptions()), true)).Some?
    ensures "compact_allocation" !in Zip(Marshal(Some(TestOptions()), true)).value
    ensures "pre_allocate_storage" in Zip(Marshal(Some(TestOptions()), true)).value
    ensures "shared" in Zip(Marshal(Some(TestOptions()), true)).value
  {
    var o := TestOptions();
    MarshalZips(Some(o), false);
    MarshalZips(Some(o), true);
    CompactAllocationForV1(o);
    V2FieldsDroppedForV1(o);
    PreAllocateStorageForV2(o);
    V2FieldsSentForV2(o);
    ZippedKeys(Marshal(Some(o), false), "compact_allocation");
    ZippedKeys(Marshal(Some(o), false), "shared");
    ZippedKeys(Marshal(Some(o), true), "compact_allocation");
    ZippedKeys(Marshal(Some(o), true), "pre_allocate_storage");
    ZippedKeys(Marshal(Some(o), true), "shared");
  }
}
