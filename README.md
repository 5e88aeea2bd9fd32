# Teleportation Network: versioned load/save of the teleport registry

This project models the save pipeline of the TeleportationNetwork mod
(`System/SaveManager.cs`). It covers four things:

- how the registry of teleports (`TeleportManager.Points`) is written to the
  world save under the key "TPNetData";
- how it is read back on load, trying the current format first;
- the fallback through five legacy loaders when the current format fails:
  modv1_14_3, v1_8_0_pre_6, v1_8_0_pre_1, v1_7, v1_5;
- the upgrade each legacy loader applies to its own record shape to build
  current `Teleport` records.

Modules:

- `Common` (common.dfy): `Option`; `Outcome`, the result of one decode
  (`Parsed`, `ProtoError` for a `ProtoException`, `OtherError` for any other
  exception); `Completion`, how a pipeline call ends (`Returned` or `Threw`);
  and LINQ's `Select`.
- `Teleports` (teleport.dfy): positions, bytes, the `Teleport` record (position,
  name, enabled flag, activating players, neighbour teleports, client data), the
  `Teleport(pos, name, enabled)` constructor and the three `AddRange` calls as
  value updates.
- `LegacyLoaders` (legacy_loaders.dfy): the five legacy record shapes. Each has
  its private constructor's defaults (`Blank…`) and its upgrade function. The v1_7
  neighbour resolution is written as a function (`Resolve`) and as the loop the
  loader runs (`UpgradeRecordV1_7Loop`), and the loop is proved equal to the
  function.
- `Registry` (registry.dfy): the position-keyed registry as a class, holding
  `SetFrom`, `GetAll` and lookup.
- `SaveSystem` (save_manager.dfy): the decoders (`Formats`), the loader order,
  the fallback chain as a reference function (`Chain`, `Decode`), and the class
  `SaveManager` with `OnSaveGame`, `OnLoadGame`, `DeserializeData`,
  `TryDeserializeFrom` and the loaders' `Deserialize`.

The protobuf serializer is a parameter. `Formats` holds one decoding function
per format and the current format's encoder, which may throw. The lemmas hold for every choice
of these functions. Where a round trip of the current format is needed, it is a
hypothesis of the lemma that uses it.

Three behaviours of the code worth knowing:

- When every loader fails, `DeserializeData` returns an empty list (line 90).
  It does not throw or return an error; it only logs a debug message
  (lines 86-87). `OnLoadGame` then replaces the registry with that
  empty list.
- The v1_7 loader resolves raw neighbour positions against the registry as it
  stands when the loader runs (line 240). It does not resolve them against
  records decoded earlier from the same blob. With an empty registry, every v1_7
  link is dropped.
- The v1_5 loader does not carry `activatedBy` over (line 277).

## Model

| member | source | states |
|---|---|---|
| `Common.Select` | System/SaveManager.cs:116-125 | `Select(...).ToList()` returns one result per input, in input order, and result i is the lambda applied to input i |
| `Teleports.NewTeleport` | System/SaveManager.cs:119 | `new Teleport(pos, name, enabled)` (also at lines 158, 199, 235 and 277) has the given position, name and enabled flag, and no activations, neighbours or client data |
| `Teleports.AddActivated` | System/SaveManager.cs:120 | `ActivatedByPlayers.AddRange(players)` (also at lines 159, 200 and 236) appends the players after the existing ones, in order and with duplicates kept, and changes no other field (reading the field as a list, as listed under "## Left out") |
| `Teleports.AddNeighbours` | System/SaveManager.cs:121 | `Neighbours.AddRange(ns)` (also at lines 160 and 201) appends the neighbours after the existing ones, in order and with duplicates kept, and changes no other field (reading the field as a list, as listed under "## Left out") |
| `Teleports.AddClientData` | System/SaveManager.cs:122 | `ClientData.AddRange(data)` sets every entry of `data`, keeps the entries `data` does not name, and changes no other field |
| `LegacyLoaders.UpgradeRecordModV1_14_3` | System/SaveManager.cs:117-124 | the upgraded teleport has the record's position, name and enabled flag; its activated list, neighbour list and client data equal the record's (AddRange onto empty collections, so order and duplicates are kept) |
| `LegacyLoaders.UpgradeModV1_14_3` | System/SaveManager.cs:116-125 | the loader's `Select(...).ToList()`: one teleport per decoded record, in order, and teleport i is the upgrade of record i |
| `LegacyLoaders.ModV1_14_3KeepsEverything` | System/SaveManager.cs:116-125 | output length equals input length, and each output teleport carries all six fields of its record unchanged |
| `LegacyLoaders.UpgradeRecordV1_8_0Pre6` | System/SaveManager.cs:155-163 | position, name, enabled flag, activated list and neighbours are carried over exactly; client data is empty |
| `LegacyLoaders.UpgradeV1_8_0Pre6` | System/SaveManager.cs:155-163 | the loader's `Select(...).ToList()`: one teleport per decoded record, in order, and teleport i is the upgrade of record i |
| `LegacyLoaders.V1_8_0Pre6DiscardsIconAndColor` | System/SaveManager.cs:176-177 | changing a pre_6 record's `Icon` or `Color` does not change the upgraded teleport |
| `LegacyLoaders.UpgradeRecordV1_8_0Pre1` | System/SaveManager.cs:196-204 | position, name, enabled flag, activated list and neighbours are carried over exactly; client data is empty |
| `LegacyLoaders.UpgradeV1_8_0Pre1` | System/SaveManager.cs:196-204 | the loader's `Select(...).ToList()`: one teleport per decoded record, in order, and teleport i is the upgrade of record i |
| `LegacyLoaders.V1_8_0Pre6AgreesWithPre1` | System/SaveManager.cs:155-204 | a pre_6 record upgrades to the same teleport as the pre_1 record with the same shared fields |
| `LegacyLoaders.V1_8_0PreMappings` | System/SaveManager.cs:155-204 | both pre loaders map their lists one-to-one, keep the five shared fields, and produce no client data |
| `LegacyLoaders.Resolve` | System/SaveManager.cs:238-245 | no more neighbours than raw positions, and each kept neighbour is the registry's teleport at one of the raw positions |
| `LegacyLoaders.KeptIndices` | System/SaveManager.cs:238-245 | the ascending indices of exactly those raw positions the registry holds |
| `LegacyLoaders.ResolveKeepsKnown` | System/SaveManager.cs:240-244 | every raw position the registry holds resolves to the registry's teleport (no registered neighbour is lost) |
| `LegacyLoaders.ResolveKeepsOrder` | System/SaveManager.cs:238-245 | neighbour k is the registry's teleport at the k-th kept raw position, so kept neighbours stay in stored order and unresolved ones are dropped |
| `LegacyLoaders.UpgradeRecordV1_7` | System/SaveManager.cs:233-248 | position, name, enabled flag and activated list are carried over; neighbours are the resolved raw positions; client data is empty |
| `LegacyLoaders.UpgradeV1_7` | System/SaveManager.cs:232-249 | the loader's `Select(...).ToList()` against the registry: one teleport per decoded record, in order, and teleport i is the v1_7 upgrade of record i |
| `LegacyLoaders.V1_7NeighbourIffRegistered` | System/SaveManager.cs:238-245 | a teleport becomes a neighbour if and only if the registry holds it at one of the record's raw neighbour positions |
| `LegacyLoaders.ResolveAgainstEmptyRegistry` | System/SaveManager.cs:240-241 | against an empty registry, no raw position resolves |
| `LegacyLoaders.V1_7EmptyRegistryDropsAllLinks` | System/SaveManager.cs:240 | with an empty registry, every teleport the v1_7 loader builds has no neighbours, even when the blob holds the referenced teleports |
| `LegacyLoaders.UpgradeRecordV1_7Loop` | System/SaveManager.cs:235-247 | the foreach loop that adds `manager.Points[npos]` when it is not null builds exactly the teleport `UpgradeRecordV1_7` describes |
| `LegacyLoaders.UpgradeV1_7Loop` | System/SaveManager.cs:232-249 | the loader's Select builds exactly the v1_7 upgrade of every record, in order |
| `LegacyLoaders.UpgradeEntryV1_5` | System/SaveManager.cs:277 | the teleport has position = key, name = `name` and enabled = `available`; it has no activations, neighbours or client data |
| `LegacyLoaders.UpgradeV1_5` | System/SaveManager.cs:276-278 | the loader's `Select(...).ToList()` over the dictionary: one teleport per enumerated entry, in order, and teleport i is the upgrade of entry i |
| `LegacyLoaders.V1_5OnePerEntry` | System/SaveManager.cs:276-278 | each dictionary entry yields exactly one teleport, in enumeration order; distinct keys give distinct positions; `activatedBy` is not transferred |
| `LegacyLoaders.BlankRecordsUpgradeToDefaults` | System/SaveManager.cs:139-147 | a record with no stored field upgrades to a teleport at (0,0,0), named "null", disabled, with empty lists and no client data. This uses the constructors at lines 139-147, 179-188, 217-224 and 261-268. For v1_5 the name is "" (lines 284-286) |
| `Registry.FromList` | System/SaveManager.cs:47 | after `SetFrom(list)`, the registry's positions are exactly those of the list, and each stored teleport comes from the list and sits under its own position |
| `Registry.FromListHoldsEach` | System/SaveManager.cs:47 | when no position repeats, every teleport of the list is stored exactly as it is |
| `Registry.SnapshotRestores` | System/SaveManager.cs:33 | installing a snapshot of a registry gives back that registry |
| `Registry.Lookup` | System/SaveManager.cs:240 | `manager.Points[npos]` is the teleport stored at `npos`, or null (`None`) when none is; the v1_7 loop adds a neighbour only when it is not null (line 241) |
| `Registry.PointRegistry.SetFrom` | System/SaveManager.cs:47 | replaces the whole contents with `FromList(list)` and keeps every teleport under its own position |
| `Registry.PointRegistry.GetAll` | System/SaveManager.cs:33 | returns every stored teleport exactly once (no repeated position) and nothing else |
| `SaveSystem.RunLoader` | System/SaveManager.cs:114-279 | `loader.Deserialize` for each of the five overrides (lines 114-126, 153-164, 194-205, 230-250, 274-279): it throws a ProtoException or another exception exactly when its decoder does, and otherwise yields one teleport per decoded record |
| `SaveSystem.Chain` | System/SaveManager.cs:79-90 | the if/else-if chain of loaders: a normal result is either the empty list of line 77 or the list some loader of the chain parsed |
| `SaveSystem.Decode` | System/SaveManager.cs:69-90 | a normal result of `DeserializeData` is the current format's list, or, after a ProtoException from the current format, the empty list or the list one of the five legacy loaders parsed |
| `SaveSystem.CurrentFormatFirst` | System/SaveManager.cs:69-72 | when the current format parses, its list is the result unchanged |
| `SaveSystem.ChainFirstNonProtoDecides` | System/SaveManager.cs:79-83 | in the loader chain, the first loader that does not fail with ProtoException decides: its list, or the exception it lets escape |
| `SaveSystem.ChainAllFailIsEmpty` | System/SaveManager.cs:77-90 | when every loader of the chain fails with ProtoException, the result is the empty list initialised at line 77 |
| `SaveSystem.FirstLegacySuccessWins` | System/SaveManager.cs:73-83 | after a ProtoException from the current format, the loaders are tried in the order modv1_14_3, pre_6, pre_1, v1_7, v1_5, and the first that parses supplies the result |
| `SaveSystem.AllLoadersFailGivesEmptyList` | System/SaveManager.cs:84-90 | if the current format and all five loaders fail with ProtoException, the result is the empty list, not an error |
| `SaveSystem.OnlyOtherExceptionsEscape` | System/SaveManager.cs:67-105 | decoding throws if and only if the current decoder throws a non-Proto exception, or, after a ProtoException from it, the first legacy loader that does not fail with ProtoException throws one |
| `SaveSystem.LaterLoadersNotConsulted` | System/SaveManager.cs:79-83 | two decoder sets that agree up to the first succeeding loader give the same result, so later loaders are never consulted |
| `SaveSystem.LoadedList` | System/SaveManager.cs:43-47 | `SetFrom` is skipped exactly when no "TPNetData" blob is stored or decoding it throws; otherwise it receives exactly the decoded list |
| `SaveSystem.NoDataLeavesRegistry` | System/SaveManager.cs:43-59 | with no "TPNetData" blob, `SetFrom` is not called |
| `SaveSystem.UnreadableDataEmptiesRegistry` | System/SaveManager.cs:44-47 | a blob that no format can read leads to `SetFrom` of the empty list; together with `OnLoadGame`'s contract the registry then ends up empty |
| `SaveSystem.SaveThenLoadRestoresRegistry` | System/SaveManager.cs:31-47 | if serialisation succeeds and the current format reads back what it wrote, loading what save stored installs the saved registry exactly |
| `SaveSystem.SaveGame.GetData` | System/SaveManager.cs:43 | the stored bytes for the key, or null when there are none |
| `SaveSystem.SaveGame.StoreData` | System/SaveManager.cs:34 | sets the entry for the key and leaves every other entry as it was |
| `SaveSystem.SaveManager.OnSaveGame` | System/SaveManager.cs:31-35 | serialises a snapshot of `Points.GetAll()`; if that succeeds, stores it under "TPNetData" and changes nothing else in the save; if serialisation throws, the exception escapes (there is no try/catch) and the save is unchanged; the registry is never modified |
| `SaveSystem.SaveManager.OnLoadGame` | System/SaveManager.cs:37-65 | with no blob, or with an exception during decoding, neither the registry nor the existence-check requests change. Otherwise the registry becomes exactly `SetFrom` of the decoded list, and then exactly one existence check is requested, on the replaced registry |
| `SaveSystem.SaveManager.DeserializeData` | System/SaveManager.cs:67-92 | the if/else-if chain computes exactly `Decode`: the current format first, then the legacy loaders in order, each tried only while the previous one returned false |
| `SaveSystem.SaveManager.TryDeserializeFrom` | System/SaveManager.cs:94-105 | returns true with `list` set to the loader's result; on ProtoException returns false with `list` untouched; any other exception escapes |
| `SaveSystem.SaveManager.Deserialize` | System/SaveManager.cs:98 | the dispatch of `loader.Deserialize`: the v1_7 loader runs its neighbour-resolving loop against the current registry and is proved to give `RunLoader`'s result; the other four loaders delegate to `RunLoader` directly |

## Left out

- Protobuf wire format (`SerializerUtil.Serialize`/`Deserialize`, the `ProtoContract` attributes). That library is not part of this model. Each decoder is an arbitrary function from bytes to its records or to a failure, and each legacy record is the object after decoding. How fields that are present overwrite the constructor's defaults is not modelled.
- `CheckAllTeleportExists` (line 54). It runs asynchronously against world state, and its body is not part of this model. Only the request is recorded, together with the registry contents it was made on.
- Logging (`Mod.Logger.*`). It has no effect on the state.
- `StartPre` and `ShouldLoad` (lines 17-29). They only register the two event handlers on the server side.
- Exceptions outside decoding and serialisation. `GetData`, `SetFrom`, the logging loop and `CheckAllTeleportExists` are taken never to throw. An exception thrown after `SetFrom` would leave the registry replaced.
- SaveSystem.SaveManager.OnSaveGame: only an exception from `SerializerUtil.Serialize` is modelled; `GetAll` and `StoreData` are taken never to throw.
- `Teleport` and `TeleportManager` are not part of this model. Five assumptions are made about them:
  - The `Teleport(pos, name, enabled)` constructor starts with no activations, no neighbours and no client data.
  - `isGlobal`, link symmetry, `unlockFor` and `UpdateTeleport` are not modelled.
  - `TeleportClientData` is an opaque value.
  - The indexer `manager.Points[npos]` returns null for a position the registry does not hold (the `Teleport?` type and the null check at lines 240-241 read this way); `Registry.Lookup` models it.
  - `Teleport.ActivatedByPlayers` and `Teleport.Neighbours` are lists: `Add` and `AddRange` append in order and keep duplicates (the legacy records declare these fields as `List<T>`; the current class is not shown). `Teleports.AddActivated`, `Teleports.AddNeighbours` and the v1_7 loop rely on this.
- Registry.PointRegistry.SetFrom: it is assumed to store each teleport under its position, with the later of two list entries at the same position kept.
- Registry.PointRegistry.GetAll: the order it enumerates in is left open. The model fixes only that it lists every teleport exactly once.
- Object identity. A teleport is a value, so the neighbours the loaders store are copies rather than shared references to registry objects. Updating a teleport in place through another reference is not modelled.
- `Dictionary.AddRange` for client data (line 122) is taken to set each entry. The target dictionary is new, so adding and setting agree.
- The v1_5 dictionary is modelled as the sequence of key/value pairs it enumerates, in order. Distinct keys are a hypothesis where the lemmas need them.
- Gui/GuiDialogEditTeleport.cs, src/Renderer/SealRenderer.cs and Core.cs are not part of this model. They are UI, rendering and mod registration.
