/** The five legacy record shapes and the upgrade each legacy loader applies
    to turn its records into current teleports. */
module LegacyLoaders {
  import opened Common
  import opened Teleports
  import opened Registry

  // ---------------------------------------------------------------------
  // modv1_14_3: the newest legacy shape; neighbours are already teleports.

  datatype LegacyModV1_14_3 = LegacyModV1_14_3(
    pos: Pos,
    name: string,
    enabled: bool,
    neighbours: seq<Teleport>,
    activatedByPlayers: seq<string>,
    clientData: map<string, ClientData>)

  /** The record the private constructor builds before any stored field is read. */
  const BlankModV1_14_3 := LegacyModV1_14_3(Origin, "null", false, [], [], map[])

  /** The `Select` lambda of `LegacyTeleportLoader_modv1_14_3`. The new teleport
      starts empty, so after the three `AddRange` calls it holds exactly the
      record's lists (in order, duplicates kept) and its client data. */
  function UpgradeRecordModV1_14_3(legacy: LegacyModV1_14_3): (tp: Teleport)
    ensures tp.pos == legacy.pos && tp.name == legacy.name && tp.enabled == legacy.enabled
    ensures tp.activatedByPlayers == legacy.activatedByPlayers
    ensures tp.neighbours == legacy.neighbours
    ensures tp.clientData == legacy.clientData
  {
    var teleport := NewTeleport(legacy.pos, legacy.name, legacy.enabled);
    var teleport := AddActivated(teleport, legacy.activatedByPlayers);
    var teleport := AddNeighbours(teleport, legacy.neighbours);
    AddClientData(teleport, legacy.clientData)
  }

  /** `LegacyTeleportLoader_modv1_14_3.Deserialize` after decoding: the
      `Select(...).ToList()` of the record upgrade. */
  function UpgradeModV1_14_3(records: seq<LegacyModV1_14_3>): (ts: seq<Teleport>)
    ensures |ts| == |records|
    ensures forall i :: 0 <= i < |records| ==> ts[i] == UpgradeRecordModV1_14_3(records[i])
  {
    Select(records, UpgradeRecordModV1_14_3)
  }

  // ---------------------------------------------------------------------
  // v1_8_0_pre_6: no client data yet, but an icon and a colour per record.

  datatype LegacyV1_8_0Pre6 = LegacyV1_8_0Pre6(
    pos: Pos,
    name: string,
    enabled: bool,
    neighbours: seq<Teleport>,
    activatedByPlayers: seq<string>,
    icon: string,
    color: Int32)

  const BlankV1_8_0Pre6 := LegacyV1_8_0Pre6(Origin, "null", false, [], [], "", 0)

  /** The `Select` lambda of `LegacyTeleportLoader_v1_8_0_pre_6`: `Icon` and
      `Color` are read from the blob but not carried over, and the teleport
      gets no client data. */
  function UpgradeRecordV1_8_0Pre6(legacy: LegacyV1_8_0Pre6): (tp: Teleport)
    ensures tp.pos == legacy.pos && tp.name == legacy.name && tp.enabled == legacy.enabled
    ensures tp.activatedByPlayers == legacy.activatedByPlayers
    ensures tp.neighbours == legacy.neighbours
    ensures tp.clientData == map[]
  {
    var teleport := NewTeleport(legacy.pos, legacy.name, legacy.enabled);
    var teleport := AddActivated(teleport, legacy.activatedByPlayers);
    AddNeighbours(teleport, legacy.neighbours)
  }

  /** `LegacyTeleportLoader_v1_8_0_pre_6.Deserialize` after decoding. */
  function UpgradeV1_8_0Pre6(records: seq<LegacyV1_8_0Pre6>): (ts: seq<Teleport>)
    ensures |ts| == |records|
    ensures forall i :: 0 <= i < |records| ==> ts[i] == UpgradeRecordV1_8_0Pre6(records[i])
  {
    Select(records, UpgradeRecordV1_8_0Pre6)
  }

  // ---------------------------------------------------------------------
  // v1_8_0_pre_1: the same fields as pre_6 without icon and colour.

  datatype LegacyV1_8_0Pre1 = LegacyV1_8_0Pre1(
    pos: Pos,
    name: string,
    enabled: bool,
    neighbours: seq<Teleport>,
    activatedByPlayers: seq<string>)

  const BlankV1_8_0Pre1 := LegacyV1_8_0Pre1(Origin, "null", false, [], [])

  /** The `Select` lambda of `LegacyTeleportLoader_v1_8_0_pre_1`. */
  function UpgradeRecordV1_8_0Pre1(legacy: LegacyV1_8_0Pre1): (tp: Teleport)
    ensures tp.pos == legacy.pos && tp.name == legacy.name && tp.enabled == legacy.enabled
    ensures tp.activatedByPlayers == legacy.activatedByPlayers
    ensures tp.neighbours == legacy.neighbours
    ensures tp.clientData == map[]
  {
    var teleport := NewTeleport(legacy.pos, legacy.name, legacy.enabled);
    var teleport := AddActivated(teleport, legacy.activatedByPlayers);
    AddNeighbours(teleport, legacy.neighbours)
  }

  /** `LegacyTeleportLoader_v1_8_0_pre_1.Deserialize` after decoding. */
  function UpgradeV1_8_0Pre1(records: seq<LegacyV1_8_0Pre1>): (ts: seq<Teleport>)
    ensures |ts| == |records|
    ensures forall i :: 0 <= i < |records| ==> ts[i] == UpgradeRecordV1_8_0Pre1(records[i])
  {
    Select(records, UpgradeRecordV1_8_0Pre1)
  }

  // ---------------------------------------------------------------------
  // v1_7: neighbours are stored as raw positions.

  datatype LegacyV1_7 = LegacyV1_7(
    enabled: bool,
    name: string,
    pos: Pos,
    activatedByPlayers: seq<string>,
    neighbours: seq<Pos>)

  const BlankV1_7 := LegacyV1_7(false, "null", Origin, [], [])

  /** The teleports `points` holds at the raw positions `raw`, in the order of
      `raw`; a position the registry does not hold is dropped. */
  function Resolve(points: map<Pos, Teleport>, raw: seq<Pos>): (ns: seq<Teleport>)
    ensures |ns| <= |raw|
    ensures forall t :: t in ns ==> exists p :: p in raw && p in points && points[p] == t
  {
    if raw == [] then []
    else
      var last := raw[|raw| - 1];
      Resolve(points, raw[..|raw| - 1]) + (if last in points then [points[last]] else [])
  }

  /** The indices of `raw` whose position the registry holds, ascending. */
  function KeptIndices(points: map<Pos, Teleport>, raw: seq<Pos>): (ks: seq<nat>)
    ensures forall k :: 0 <= k < |ks| ==> ks[k] < |raw| && raw[ks[k]] in points
    ensures forall k, l :: 0 <= k < l < |ks| ==> ks[k] < ks[l]
    ensures forall j :: 0 <= j < |raw| && raw[j] in points ==> j in ks
  {
    if raw == [] then []
    else
      var n := |raw| - 1;
      assert forall j :: 0 <= j < n ==> raw[..n][j] == raw[j];
      KeptIndices(points, raw[..n]) + (if raw[n] in points then [n] else [])
  }

  /** The teleport the v1_7 `Select` lambda builds, as a value. */
  function UpgradeRecordV1_7(points: map<Pos, Teleport>, legacy: LegacyV1_7): (tp: Teleport)
    ensures tp.pos == legacy.pos && tp.name == legacy.name && tp.enabled == legacy.enabled
    ensures tp.activatedByPlayers == legacy.activatedByPlayers
    ensures tp.neighbours == Resolve(points, legacy.neighbours)
    ensures tp.clientData == map[]
  {
    var tp := NewTeleport(legacy.pos, legacy.name, legacy.enabled);
    var tp := AddActivated(tp, legacy.activatedByPlayers);
    AddNeighbours(tp, Resolve(points, legacy.neighbours))
  }

  /** `LegacyTeleportLoader_v1_7.Deserialize` after decoding, as a value. */
  function UpgradeV1_7(points: map<Pos, Teleport>, records: seq<LegacyV1_7>): (ts: seq<Teleport>)
    ensures |ts| == |records|
    ensures forall i :: 0 <= i < |records| ==> ts[i] == UpgradeRecordV1_7(points, records[i])
  {
    Select(records, (legacy: LegacyV1_7) => UpgradeRecordV1_7(points, legacy))
  }

  /** The v1_7 `Select` lambda as the loader runs it: a new teleport, its
      activations added, then one `Add` per raw neighbour position at which
      the registry (`manager.Points`) holds a teleport. */
  method UpgradeRecordV1_7Loop(points: map<Pos, Teleport>, legacy: LegacyV1_7) returns (tp: Teleport)
    ensures tp == UpgradeRecordV1_7(points, legacy)
  {
    tp := NewTeleport(legacy.pos, legacy.name, legacy.enabled);
    tp := AddActivated(tp, legacy.activatedByPlayers);
    var raw := legacy.neighbours;
    for i := 0 to |raw|
      invariant tp == AddNeighbours(AddActivated(NewTeleport(legacy.pos, legacy.name, legacy.enabled),
                                                 legacy.activatedByPlayers),
                                    Resolve(points, raw[..i]))
    {
      assert raw[..i + 1][..i] == raw[..i];
      var npos := raw[i];
      var ntp := Lookup(points, npos);
      if ntp.Some? {
        tp := tp.(neighbours := tp.neighbours + [ntp.value]);
      }
    }
    assert raw[..|raw|] == raw;
  }

  /** `LegacyTeleportLoader_v1_7.Deserialize` after decoding: the `Select`
      over the records, each built by the loop above. */
  method UpgradeV1_7Loop(points: map<Pos, Teleport>, records: seq<LegacyV1_7>) returns (ts: seq<Teleport>)
    ensures ts == UpgradeV1_7(points, records)
  {
    ts := [];
    for i := 0 to |records|
      invariant |ts| == i
      invariant forall k :: 0 <= k < i ==> ts[k] == UpgradeRecordV1_7(points, records[k])
    {
      var tp := UpgradeRecordV1_7Loop(points, records[i]);
      ts := ts + [tp];
    }
  }

  // ---------------------------------------------------------------------
  // v1_5: a dictionary from position to (name, available, activatedBy).

  datatype LegacyTeleportData = LegacyTeleportData(name: string, available: bool, activatedBy: seq<string>)

  /** The field initialisers of `LegacyTeleportData`. */
  const BlankTeleportData := LegacyTeleportData("", false, [])

  /** The decoded dictionary, as the key/value pairs it enumerates. */
  type LegacyV1_5 = seq<(Pos, LegacyTeleportData)>

  /** The keys of an enumerated dictionary are distinct. */
  predicate DistinctKeys(entries: LegacyV1_5) {
    forall i, j :: 0 <= i < j < |entries| ==> entries[i].0 != entries[j].0
  }

  /** The v1_5 `Select` lambda: the key becomes the position, `name` the name
      and `available` the enabled flag; `activatedBy` is not transferred. */
  function UpgradeEntryV1_5(entry: (Pos, LegacyTeleportData)): (tp: Teleport)
    ensures tp.pos == entry.0 && tp.name == entry.1.name && tp.enabled == entry.1.available
    ensures tp.activatedByPlayers == [] && tp.neighbours == [] && tp.clientData == map[]
  {
    NewTeleport(entry.0, entry.1.name, entry.1.available)
  }

  /** `LegacyTeleportLoader_v1_5.Deserialize` after decoding: one teleport per
      enumerated entry. */
  function UpgradeV1_5(entries: LegacyV1_5): (ts: seq<Teleport>)
    ensures |ts| == |entries|
    ensures forall i :: 0 <= i < |entries| ==> ts[i] == UpgradeEntryV1_5(entries[i])
  {
    Select(entries, UpgradeEntryV1_5)
  }

  // ---------------------------------------------------------------------
  // What each mapping keeps and what it discards.

  /** modv1_14_3: one teleport per record, in order, each carrying the
      record's position, name, flag, lists and client data unchanged. */
  lemma ModV1_14_3KeepsEverything(records: seq<LegacyModV1_14_3>)
    ensures |UpgradeModV1_14_3(records)| == |records|
    ensures forall i :: 0 <= i < |records| ==>
      var tp, legacy := UpgradeModV1_14_3(records)[i], records[i];
      && tp.pos == legacy.pos && tp.name == legacy.name && tp.enabled == legacy.enabled
      && tp.activatedByPlayers == legacy.activatedByPlayers
      && tp.neighbours == legacy.neighbours
      && tp.clientData == legacy.clientData
  {
  }

  /** pre_6: the icon and the colour make no difference to the teleport. */
  lemma V1_8_0Pre6DiscardsIconAndColor(legacy: LegacyV1_8_0Pre6, icon: string, color: Int32)
    ensures UpgradeRecordV1_8_0Pre6(legacy.(icon := icon, color := color)) == UpgradeRecordV1_8_0Pre6(legacy)
  {
  }

  /** pre_6 and pre_1 upgrade the fields they share in the same way. */
  lemma V1_8_0Pre6AgreesWithPre1(legacy: LegacyV1_8_0Pre6)
    ensures UpgradeRecordV1_8_0Pre6(legacy)
         == UpgradeRecordV1_8_0Pre1(LegacyV1_8_0Pre1(legacy.pos, legacy.name, legacy.enabled,
                                                     legacy.neighbours, legacy.activatedByPlayers))
  {
  }

  /** pre_6 and pre_1 map their lists one-to-one and produce no client data. */
  lemma V1_8_0PreMappings(pre6: seq<LegacyV1_8_0Pre6>, pre1: seq<LegacyV1_8_0Pre1>)
    ensures |UpgradeV1_8_0Pre6(pre6)| == |pre6| && |UpgradeV1_8_0Pre1(pre1)| == |pre1|
    ensures forall i :: 0 <= i < |pre6| ==>
      var tp, legacy := UpgradeV1_8_0Pre6(pre6)[i], pre6[i];
      && tp.pos == legacy.pos && tp.name == legacy.name && tp.enabled == legacy.enabled
      && tp.activatedByPlayers == legacy.activatedByPlayers
      && tp.neighbours == legacy.neighbours && tp.clientData == map[]
    ensures forall i :: 0 <= i < |pre1| ==>
      var tp, legacy := UpgradeV1_8_0Pre1(pre1)[i], pre1[i];
      && tp.pos == legacy.pos && tp.name == legacy.name && tp.enabled == legacy.enabled
      && tp.activatedByPlayers == legacy.activatedByPlayers
      && tp.neighbours == legacy.neighbours && tp.clientData == map[]
  {
  }

  /** Every raw position the registry holds is resolved to the registry's teleport. */
  lemma {:induction false} ResolveKeepsKnown(points: map<Pos, Teleport>, raw: seq<Pos>, p: Pos)
    requires p in raw && p in points
    ensures points[p] in Resolve(points, raw)
  {
    var n := |raw| - 1;
    if raw[n] != p {
      assert p in raw[..n] by {
        var j :| 0 <= j < |raw| && raw[j] == p;
        assert j < n && raw[..n][j] == p;
      }
      ResolveKeepsKnown(points, raw[..n], p);
    }
  }

  /** The resolved neighbours are exactly the registry's teleports at the kept
      positions, in the order those positions were stored. */
  lemma {:induction false} ResolveKeepsOrder(points: map<Pos, Teleport>, raw: seq<Pos>)
    ensures |Resolve(points, raw)| == |KeptIndices(points, raw)|
    ensures forall k :: 0 <= k < |KeptIndices(points, raw)| ==>
      Resolve(points, raw)[k] == points[raw[KeptIndices(points, raw)[k]]]
  {
    if raw != [] {
      var n := |raw| - 1;
      ResolveKeepsOrder(points, raw[..n]);
      var ks := KeptIndices(points, raw[..n]);
      forall k | 0 <= k < |ks|
        ensures raw[..n][ks[k]] == raw[ks[k]]
      {
      }
    }
  }

  /** v1_7: a teleport is a neighbour of the upgraded record if and only if
      the registry holds it at one of the record's raw neighbour positions. */
  lemma V1_7NeighbourIffRegistered(points: map<Pos, Teleport>, legacy: LegacyV1_7, t: Teleport)
    ensures t in UpgradeRecordV1_7(points, legacy).neighbours
        <==> exists p :: p in legacy.neighbours && p in points && points[p] == t
  {
    if exists p :: p in legacy.neighbours && p in points && points[p] == t {
      var p :| p in legacy.neighbours && p in points && points[p] == t;
      ResolveKeepsKnown(points, legacy.neighbours, p);
    }
  }

  /** v1_7 resolves only against the registry as it stands, not against other
      records of the same blob: with an empty registry every link is dropped. */
  lemma V1_7EmptyRegistryDropsAllLinks(records: seq<LegacyV1_7>)
    ensures forall i :: 0 <= i < |records| ==> UpgradeV1_7(map[], records)[i].neighbours == []
  {
    forall i | 0 <= i < |records|
      ensures UpgradeV1_7(map[], records)[i].neighbours == []
    {
      ResolveAgainstEmptyRegistry(records[i].neighbours);
    }
  }

  lemma {:induction false} ResolveAgainstEmptyRegistry(raw: seq<Pos>)
    ensures Resolve(map[], raw) == []
  {
    if raw != [] {
      ResolveAgainstEmptyRegistry(raw[..|raw| - 1]);
    }
  }

  /** v1_5: one teleport per dictionary entry, at the entry's key; distinct keys
      give distinct positions, and no activations are carried over. */
  lemma V1_5OnePerEntry(entries: LegacyV1_5)
    ensures |UpgradeV1_5(entries)| == |entries|
    ensures forall i :: 0 <= i < |entries| ==>
      var tp := UpgradeV1_5(entries)[i];
      && tp.pos == entries[i].0 && tp.name == entries[i].1.name && tp.enabled == entries[i].1.available
      && tp.activatedByPlayers == [] && tp.neighbours == [] && tp.clientData == map[]
    ensures DistinctKeys(entries) ==> DistinctPositions(UpgradeV1_5(entries))
  {
  }

  /** A record none of whose fields was stored upgrades to the default
      teleport: at (0,0,0), named "null" (v1_5: ""), disabled, with empty
      lists and no client data. */
  lemma BlankRecordsUpgradeToDefaults(points: map<Pos, Teleport>, key: Pos)
    ensures UpgradeRecordModV1_14_3(BlankModV1_14_3) == Teleport(Origin, "null", false, [], [], map[])
    ensures UpgradeRecordV1_8_0Pre6(BlankV1_8_0Pre6) == Teleport(Origin, "null", false, [], [], map[])
    ensures UpgradeRecordV1_8_0Pre1(BlankV1_8_0Pre1) == Teleport(Origin, "null", false, [], [], map[])
    ensures UpgradeRecordV1_7(points, BlankV1_7) == Teleport(Origin, "null", false, [], [], map[])
    ensures UpgradeEntryV1_5((key, BlankTeleportData)) == Teleport(key, "", false, [], [], map[])
  {
  }
}
