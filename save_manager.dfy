/** `SaveManager`: loads the teleport registry from the world save, trying
    the current format first and then the legacy loaders, and stores it back
    on save. */
module SaveSystem {
  import opened Common
  import opened Teleports
  import opened LegacyLoaders
  import opened Registry

  /** The key the registry is stored under in the world save. */
  const DataKey := "TPNetData"

  /** `SerializerUtil` for each format the pipeline knows: one decoder per
      format, and the encoder of the current format. A decoder answers
      `ProtoError` when the bytes do not have its format's shape; the encoder
      answers `Threw` when serialisation raises an exception. */
  datatype Formats = Formats(
    current: Bytes -> Outcome<seq<Teleport>>,
    serialize: seq<Teleport> -> Completion<Bytes>,
    modV1_14_3: Bytes -> Outcome<seq<LegacyModV1_14_3>>,
    v1_8_0Pre6: Bytes -> Outcome<seq<LegacyV1_8_0Pre6>>,
    v1_8_0Pre1: Bytes -> Outcome<seq<LegacyV1_8_0Pre1>>,
    v1_7: Bytes -> Outcome<seq<LegacyV1_7>>,
    v1_5: Bytes -> Outcome<LegacyV1_5>)

  /** The legacy loader classes. */
  datatype Loader = ModV1_14_3 | V1_8_0Pre6 | V1_8_0Pre1 | V1_7 | V1_5

  /** The order `DeserializeData` tries the legacy loaders in. */
  const LegacyOrder: seq<Loader> := [ModV1_14_3, V1_8_0Pre6, V1_8_0Pre1, V1_7, V1_5]

  /** `loader.Deserialize(manager, data)`: decode with the loader's format,
      then upgrade every record; `points` is the registry at that moment. */
  function RunLoader(f: Formats, loader: Loader, points: map<Pos, Teleport>, data: Bytes): (r: Outcome<seq<Teleport>>)
    ensures match loader
            case ModV1_14_3 => SameShape(f.modV1_14_3(data), r)
            case V1_8_0Pre6 => SameShape(f.v1_8_0Pre6(data), r)
            case V1_8_0Pre1 => SameShape(f.v1_8_0Pre1(data), r)
            case V1_7 => SameShape(f.v1_7(data), r)
            case V1_5 => SameShape(f.v1_5(data), r)
  {
    match loader
    case ModV1_14_3 => Then(f.modV1_14_3(data), UpgradeModV1_14_3)
    case V1_8_0Pre6 => Then(f.v1_8_0Pre6(data), UpgradeV1_8_0Pre6)
    case V1_8_0Pre1 => Then(f.v1_8_0Pre1(data), UpgradeV1_8_0Pre1)
    case V1_7 => Then(f.v1_7(data), (records: seq<LegacyV1_7>) => UpgradeV1_7(points, records))
    case V1_5 => Then(f.v1_5(data), UpgradeV1_5)
  }

  /** A loader fails exactly when, and in the same way as, its decoder, and
      otherwise yields one teleport per decoded record. */
  predicate SameShape<A>(decoded: Outcome<seq<A>>, r: Outcome<seq<Teleport>>) {
    && (r.Parsed? <==> decoded.Parsed?)
    && (r.ProtoError? <==> decoded.ProtoError?)
    && (r.Parsed? ==> |r.value| == |decoded.value|)
  }

  /** A chain of responsibility over `loaders`: the first loader that does not
      fail with `ProtoError` decides; when all of them do, the empty list. */
  function Chain(f: Formats, loaders: seq<Loader>, points: map<Pos, Teleport>, data: Bytes): (c: Completion<seq<Teleport>>)
    ensures c.Returned? ==> c.value == [] || exists i :: 0 <= i < |loaders| && RunLoader(f, loaders[i], points, data) == Parsed(c.value)
    decreases |loaders|
  {
    if loaders == [] then Returned([])
    else
      match RunLoader(f, loaders[0], points, data)
      case Parsed(list) => Returned(list)
      case ProtoError => Chain(f, loaders[1..], points, data)
      case OtherError => Threw
  }

  /** What `DeserializeData` computes: the current format's list when it
      parses, and only on a `ProtoError` the legacy chain. */
  function Decode(f: Formats, points: map<Pos, Teleport>, data: Bytes): (c: Completion<seq<Teleport>>)
    ensures c.Returned? ==>
      || f.current(data) == Parsed(c.value)
      || (&& f.current(data).ProtoError?
          && (|| c.value == []
              || exists i :: 0 <= i < |LegacyOrder| && RunLoader(f, LegacyOrder[i], points, data) == Parsed(c.value)))
  {
    match f.current(data)
    case Parsed(list) => Returned(list)
    case ProtoError => Chain(f, LegacyOrder, points, data)
    case OtherError => Threw
  }

  /** The first `i` loaders all fail with `ProtoError`. */
  predicate AllProtoErrors(f: Formats, loaders: seq<Loader>, points: map<Pos, Teleport>, data: Bytes, i: nat)
    requires i <= |loaders|
  {
    forall j :: 0 <= j < i ==> RunLoader(f, loaders[j], points, data).ProtoError?
  }

  // ---------------------------------------------------------------------
  // The fallback chain.

  /** The first loader that does not fail with `ProtoError` decides the
      result: its list, or an escaping exception. */
  lemma {:induction false} ChainFirstNonProtoDecides(f: Formats, loaders: seq<Loader>,
                                                    points: map<Pos, Teleport>, data: Bytes, i: nat)
    requires i < |loaders| && AllProtoErrors(f, loaders, points, data, i)
    requires !RunLoader(f, loaders[i], points, data).ProtoError?
    ensures Chain(f, loaders, points, data)
         == match RunLoader(f, loaders[i], points, data)
            case Parsed(list) => Returned(list)
            case _ => Threw
  {
    if i > 0 {
      assert RunLoader(f, loaders[0], points, data).ProtoError?;
      assert AllProtoErrors(f, loaders[1..], points, data, i - 1) by {
        forall j | 0 <= j < i - 1 ensures RunLoader(f, loaders[1..][j], points, data).ProtoError? {
          assert loaders[1..][j] == loaders[j + 1];
        }
      }
      ChainFirstNonProtoDecides(f, loaders[1..], points, data, i - 1);
    }
  }

  /** When every loader fails with `ProtoError`, the chain yields the empty list. */
  lemma {:induction false} ChainAllFailIsEmpty(f: Formats, loaders: seq<Loader>, points: map<Pos, Teleport>, data: Bytes)
    requires AllProtoErrors(f, loaders, points, data, |loaders|)
    ensures Chain(f, loaders, points, data) == Returned([])
  {
    if loaders != [] {
      assert RunLoader(f, loaders[0], points, data).ProtoError?;
      assert AllProtoErrors(f, loaders[1..], points, data, |loaders| - 1) by {
        forall j | 0 <= j < |loaders| - 1 ensures RunLoader(f, loaders[1..][j], points, data).ProtoError? {
          assert loaders[1..][j] == loaders[j + 1];
        }
      }
      ChainAllFailIsEmpty(f, loaders[1..], points, data);
    }
  }

  /** The chain ends in exactly one of two ways: every loader failed with
      `ProtoError`, or some loader is the first that did not. */
  lemma ChainCases(f: Formats, loaders: seq<Loader>, points: map<Pos, Teleport>, data: Bytes)
    ensures || AllProtoErrors(f, loaders, points, data, |loaders|)
            || exists i :: 0 <= i < |loaders| && AllProtoErrors(f, loaders, points, data, i)
                           && !RunLoader(f, loaders[i], points, data).ProtoError?
  {
    if !AllProtoErrors(f, loaders, points, data, |loaders|) {
      var i := 0;
      while i < |loaders| && RunLoader(f, loaders[i], points, data).ProtoError?
        invariant i <= |loaders| && AllProtoErrors(f, loaders, points, data, i)
      {
        i := i + 1;
      }
    }
  }

  /** The current format is tried first; when it parses, its list is the
      result unchanged and no legacy loader is consulted. */
  lemma CurrentFormatFirst(f: Formats, points: map<Pos, Teleport>, data: Bytes)
    requires f.current(data).Parsed?
    ensures Decode(f, points, data) == Returned(f.current(data).value)
  {
  }

  /** On a `ProtoError` of the current format, the legacy loaders are tried
      in the order modv1_14_3, v1_8_0_pre_6, v1_8_0_pre_1, v1_7, v1_5, and the
      first one that parses supplies the result. */
  lemma FirstLegacySuccessWins(f: Formats, points: map<Pos, Teleport>, data: Bytes, i: nat)
    requires f.current(data).ProtoError?
    requires i < |LegacyOrder| && AllProtoErrors(f, LegacyOrder, points, data, i)
    requires RunLoader(f, LegacyOrder[i], points, data).Parsed?
    ensures Decode(f, points, data) == Returned(RunLoader(f, LegacyOrder[i], points, data).value)
  {
    ChainFirstNonProtoDecides(f, LegacyOrder, points, data, i);
  }

  /** When the current format and all five legacy loaders fail with
      `ProtoError`, the result is the empty list, not an error. */
  lemma AllLoadersFailGivesEmptyList(f: Formats, points: map<Pos, Teleport>, data: Bytes)
    requires f.current(data).ProtoError?
    requires AllProtoErrors(f, LegacyOrder, points, data, |LegacyOrder|)
    ensures Decode(f, points, data) == Returned([])
  {
    ChainAllFailIsEmpty(f, LegacyOrder, points, data);
  }

  /** Only a non-`ProtoException` escapes: from the current decoder, or from
      the first legacy loader that does not fail with `ProtoError`. */
  lemma OnlyOtherExceptionsEscape(f: Formats, points: map<Pos, Teleport>, data: Bytes)
    ensures Decode(f, points, data) == Threw
        <==> || f.current(data).OtherError?
             || (&& f.current(data).ProtoError?
                 && exists i :: 0 <= i < |LegacyOrder| && AllProtoErrors(f, LegacyOrder, points, data, i)
                                && RunLoader(f, LegacyOrder[i], points, data).OtherError?)
  {
    if f.current(data).ProtoError? {
      ChainCases(f, LegacyOrder, points, data);
      if AllProtoErrors(f, LegacyOrder, points, data, |LegacyOrder|) {
        ChainAllFailIsEmpty(f, LegacyOrder, points, data);
      } else {
        var i :| 0 <= i < |LegacyOrder| && AllProtoErrors(f, LegacyOrder, points, data, i)
                 && !RunLoader(f, LegacyOrder[i], points, data).ProtoError?;
        ChainFirstNonProtoDecides(f, LegacyOrder, points, data, i);
      }
    }
  }

  /** Loaders after the first that parses are never consulted: two sets of
      decoders that agree up to that loader give the same result. */
  lemma LaterLoadersNotConsulted(f: Formats, g: Formats, points: map<Pos, Teleport>, data: Bytes, i: nat)
    requires f.current(data).ProtoError? && g.current(data).ProtoError?
    requires i < |LegacyOrder| && AllProtoErrors(f, LegacyOrder, points, data, i)
    requires RunLoader(f, LegacyOrder[i], points, data).Parsed?
    requires forall j :: 0 <= j <= i ==>
      RunLoader(g, LegacyOrder[j], points, data) == RunLoader(f, LegacyOrder[j], points, data)
    ensures Decode(g, points, data) == Decode(f, points, data)
  {
    FirstLegacySuccessWins(f, points, data, i);
    FirstLegacySuccessWins(g, points, data, i);
  }

  // ---------------------------------------------------------------------
  // Load and save at registry level.

  /** The list `OnLoadGame` passes to `SetFrom`, or `None` when it does not
      call `SetFrom`: no data stored, or an exception during decoding. */
  function LoadedList(f: Formats, store: map<string, Bytes>, points: map<Pos, Teleport>): (r: Option<seq<Teleport>>)
    ensures r.None? <==> DataKey !in store || Decode(f, points, store[DataKey]).Threw?
    ensures r.Some? ==> Decode(f, points, store[DataKey]) == Returned(r.value)
  {
    if DataKey !in store then None
    else
      match Decode(f, points, store[DataKey])
      case Returned(list) => Some(list)
      case Threw => None
  }

  /** No stored blob: the registry is not replaced. */
  lemma NoDataLeavesRegistry(f: Formats, store: map<string, Bytes>, points: map<Pos, Teleport>)
    requires DataKey !in store
    ensures LoadedList(f, store, points) == None
  {
  }

  /** A blob none of the six formats can read hands the empty list to
      `SetFrom`; `OnLoadGame`'s contract then leaves the registry empty. */
  lemma UnreadableDataEmptiesRegistry(f: Formats, store: map<string, Bytes>, points: map<Pos, Teleport>)
    requires DataKey in store && f.current(store[DataKey]).ProtoError?
    requires AllProtoErrors(f, LegacyOrder, points, store[DataKey], |LegacyOrder|)
    ensures LoadedList(f, store, points) == Some([])
  {
    AllLoadersFailGivesEmptyList(f, points, store[DataKey]);
  }

  /** With a current format that reads back what it writes, loading what save
      stored reinstalls the registry as it was. */
  lemma SaveThenLoadRestoresRegistry(f: Formats, store: map<string, Bytes>, points: map<Pos, Teleport>,
                                     all: seq<Teleport>)
    requires KeyedByPos(points) && IsSnapshot(all, points)
    requires f.serialize(all).Returned? && f.current(f.serialize(all).value) == Parsed(all)
    ensures LoadedList(f, store[DataKey := f.serialize(all).value], points) == Some(all)
    ensures FromList(all) == points
  {
    SnapshotRestores(all, points);
  }

  /** The world save's key/value store. */
  class SaveGame {
    var data: map<string, Bytes>

    constructor (data: map<string, Bytes>)
      ensures this.data == data
    {
      this.data := data;
    }

    /** `SaveGame.GetData(key)`: the stored bytes, or null. */
    function GetData(key: string): (r: Option<Bytes>)
      reads this
      ensures r.Some? <==> key in data
      ensures r.Some? ==> r.value == data[key]
    {
      if key in data then Some(data[key]) else None
    }

    /** `SaveGame.StoreData(key, bytes)`: sets the entry, leaves the others. */
    method StoreData(key: string, bytes: Bytes)
      modifies this
      ensures data == old(data)[key := bytes]
    {
      data := data[key := bytes];
    }
  }

  class SaveManager {
    const formats: Formats
    const registry: PointRegistry
    const saveGame: SaveGame
    /** Each `CheckAllTeleportExists` request, with the registry contents it was made on. */
    var existenceChecks: seq<map<Pos, Teleport>>

    constructor (formats: Formats, registry: PointRegistry, saveGame: SaveGame)
      ensures this.formats == formats && this.registry == registry && this.saveGame == saveGame
      ensures existenceChecks == []
    {
      this.formats := formats;
      this.registry := registry;
      this.saveGame := saveGame;
      existenceChecks := [];
    }

    /** `OnSaveGame`: stores the serialisation of a snapshot of the registry
        under "TPNetData"; nothing else in the save changes. The handler has
        no try/catch: when serialisation throws, the exception escapes
        (`c == Threw`) and nothing is stored. */
    method OnSaveGame() returns (c: Completion<()>)
      requires registry.Valid()
      modifies saveGame
      ensures exists all :: && IsSnapshot(all, registry.points)
                            && (c.Threw? <==> formats.serialize(all).Threw?)
                            && saveGame.data == match formats.serialize(all)
                                                case Returned(bytes) => old(saveGame.data)[DataKey := bytes]
                                                case Threw => old(saveGame.data)
    {
      var all := registry.GetAll();
      var data := formats.serialize(all);
      if data.Threw? {
        return Threw;
      }
      saveGame.StoreData(DataKey, data.value);
      c := Returned(());
    }

    /** `OnLoadGame`: when a blob is stored and decodes, the registry is
        replaced by the decoded list and only then is the existence check
        requested; otherwise neither happens. */
    method OnLoadGame()
      requires registry.Valid()
      modifies registry, this
      ensures registry.Valid()
      ensures match LoadedList(formats, saveGame.data, old(registry.points))
              case None => registry.points == old(registry.points) && existenceChecks == old(existenceChecks)
              case Some(list) => registry.points == FromList(list)
                                 && existenceChecks == old(existenceChecks) + [registry.points]
    {
      var data := saveGame.GetData(DataKey);
      if data.Some? {
        var c := DeserializeData(data.value);
        if c.Returned? {
          registry.SetFrom(c.value);
          existenceChecks := existenceChecks + [registry.points];
        }
      }
    }

    /** `DeserializeData`: the current format first; on a `ProtoError`, each
        legacy loader in turn while the previous one returned false. */
    method DeserializeData(data: Bytes) returns (c: Completion<seq<Teleport>>)
      ensures c == Decode(formats, registry.points, data)
    {
      var current := formats.current(data);
      if current.Parsed? {
        return Returned(current.value);
      } else if current.OtherError? {
        return Threw;
      }
      var list: seq<Teleport> := [];
      var ok: Completion<bool>;
      ok, list := TryDeserializeFrom(ModV1_14_3, data, list);
      if ok == Returned(false) {
        ok, list := TryDeserializeFrom(V1_8_0Pre6, data, list);
      }
      if ok == Returned(false) {
        ok, list := TryDeserializeFrom(V1_8_0Pre1, data, list);
      }
      if ok == Returned(false) {
        ok, list := TryDeserializeFrom(V1_7, data, list);
      }
      if ok == Returned(false) {
        ok, list := TryDeserializeFrom(V1_5, data, list);
      }
      c := if ok.Threw? then Threw else Returned(list);
    }

    /** `TryDeserializeFrom(loader, data, ref list)`: true with `list` set to
        the loader's result, or false with `list` untouched on a `ProtoError`;
        any other exception escapes. */
    method TryDeserializeFrom(loader: Loader, data: Bytes, list: seq<Teleport>)
      returns (ok: Completion<bool>, list': seq<Teleport>)
      ensures match RunLoader(formats, loader, registry.points, data)
              case Parsed(v) => ok == Returned(true) && list' == v
              case ProtoError => ok == Returned(false) && list' == list
              case OtherError => ok == Threw && list' == list
    {
      var o := Deserialize(loader, data);
      match o
      case Parsed(v) =>
        ok, list' := Returned(true), v;
      case ProtoError =>
        ok, list' := Returned(false), list;
      case OtherError =>
        ok, list' := Threw, list;
    }

    /** `loader.Deserialize(_teleportManager, data)`; the v1_7 loader runs its
        neighbour-resolving loop against the registry as it is now. */
    method Deserialize(loader: Loader, data: Bytes) returns (o: Outcome<seq<Teleport>>)
      ensures o == RunLoader(formats, loader, registry.points, data)
    {
      if loader == V1_7 {
        match formats.v1_7(data)
        case Parsed(records) =>
          var ts := UpgradeV1_7Loop(registry.points, records);
          o := Parsed(ts);
        case ProtoError =>
          o := ProtoError;
        case OtherError =>
          o := OtherError;
      } else {
        o := RunLoader(formats, loader, registry.points, data);
      }
    }
  }
}
