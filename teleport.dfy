/** The current teleport record, as the load pipeline builds and stores it. */
module Teleports {

  newtype Byte = b: int | 0 <= b < 256
  type Bytes = seq<Byte>

  /** A C# `int`, the type of the legacy `Color` field. */
  newtype Int32 = x: int | -0x8000_0000 <= x < 0x8000_0000

  /** A block position, the identity key of a teleport. */
  datatype Pos = Pos(x: int, y: int, z: int)

  /** `new BlockPos(0)`, the position a legacy record has when none was stored. */
  const Origin := Pos(0, 0, 0)

  /** Per-player presentation data; its fields play no part in the pipeline. */
  type ClientData(==, !new)

  /** A teleport: position, name, enabled flag, the players who activated it,
      its neighbour teleports and per-player client data. */
  datatype Teleport = Teleport(
    pos: Pos,
    name: string,
    enabled: bool,
    activatedByPlayers: seq<string>,
    neighbours: seq<Teleport>,
    clientData: map<string, ClientData>)

  /** `new Teleport(pos, name, enabled)`: a teleport with no activations,
      no neighbours and no client data. */
  function NewTeleport(pos: Pos, name: string, enabled: bool): (t: Teleport)
    ensures t.pos == pos && t.name == name && t.enabled == enabled
    ensures t.activatedByPlayers == [] && t.neighbours == [] && t.clientData == map[]
  {
    Teleport(pos, name, enabled, [], [], map[])
  }

  /** `t.ActivatedByPlayers.AddRange(players)`: appends, keeping order and duplicates. */
  function AddActivated(t: Teleport, players: seq<string>): (u: Teleport)
    ensures u.activatedByPlayers == t.activatedByPlayers + players
    ensures u == t.(activatedByPlayers := u.activatedByPlayers)
  {
    t.(activatedByPlayers := t.activatedByPlayers + players)
  }

  /** `t.Neighbours.AddRange(ns)`: appends, keeping order and duplicates. */
  function AddNeighbours(t: Teleport, ns: seq<Teleport>): (u: Teleport)
    ensures u.neighbours == t.neighbours + ns
    ensures u == t.(neighbours := u.neighbours)
  {
    t.(neighbours := t.neighbours + ns)
  }

  /** `t.ClientData.AddRange(data)`: every entry of `data` is set on `t`. */
  function AddClientData(t: Teleport, data: map<string, ClientData>): (u: Teleport)
    ensures u.clientData.Keys == t.clientData.Keys + data.Keys
    ensures forall k :: k in data ==> u.clientData[k] == data[k]
    ensures forall k :: k in t.clientData && k !in data ==> u.clientData[k] == t.clientData[k]
    ensures u == t.(clientData := u.clientData)
  {
    t.(clientData := t.clientData + data)
  }

  /** No two teleports of the list share a position. */
  predicate DistinctPositions(ts: seq<Teleport>) {
    forall i, j :: 0 <= i < j < |ts| ==> ts[i].pos != ts[j].pos
  }
}
