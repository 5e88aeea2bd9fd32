/** `TeleportManager.Points`, seen from the save pipeline: a position-keyed
    store of teleports that load replaces wholesale and save enumerates. */
module Registry {
  import opened Common
  import opened Teleports

  /** Every teleport is stored under its own position. */
  predicate KeyedByPos(points: map<Pos, Teleport>) {
    forall p :: p in points ==> points[p].pos == p
  }

  /** `Points[pos]`: the teleport stored at `pos`, or `None` for C#'s null. */
  function Lookup(points: map<Pos, Teleport>, pos: Pos): (r: Option<Teleport>)
    ensures r.Some? <==> pos in points
    ensures r.Some? ==> r.value == points[pos]
  {
    if pos in points then Some(points[pos]) else None
  }

  /** The contents `SetFrom(list)` installs: each teleport under its position;
      when two share a position, the later one in the list is kept. */
  function FromList(list: seq<Teleport>): (m: map<Pos, Teleport>)
    ensures m.Keys == set t | t in list :: t.pos
    ensures forall p :: p in m ==> m[p] in list && m[p].pos == p
  {
    if list == [] then map[]
    else
      var last := list[|list| - 1];
      FromList(list[..|list| - 1])[last.pos := last]
  }

  /** When the list has no repeated position, each of its teleports is stored as it is. */
  lemma {:induction false} FromListHoldsEach(list: seq<Teleport>, i: nat)
    requires DistinctPositions(list) && i < |list|
    ensures FromList(list)[list[i].pos] == list[i]
  {
    var n := |list| - 1;
    if i < n {
      var init := list[..n];
      assert DistinctPositions(init) by {
        forall a, b | 0 <= a < b < |init| ensures init[a].pos != init[b].pos {
          assert init[a] == list[a] && init[b] == list[b];
        }
      }
      FromListHoldsEach(init, i);
      assert list[n].pos != list[i].pos;
    }
  }

  /** `all` lists the registry's teleports, each once. */
  predicate IsSnapshot(all: seq<Teleport>, points: map<Pos, Teleport>) {
    && (forall t :: t in all ==> t in points.Values)
    && (forall p :: p in points ==> points[p] in all)
    && DistinctPositions(all)
  }

  /** Installing a snapshot of a registry gives back the same registry. */
  lemma SnapshotRestores(all: seq<Teleport>, points: map<Pos, Teleport>)
    requires KeyedByPos(points) && IsSnapshot(all, points)
    ensures FromList(all) == points
  {
    var m := FromList(all);
    forall p | p in points ensures p in m {
      assert points[p] in all;
    }
    forall p | p in m ensures p in points && m[p] == points[p] {
      assert m[p] in points.Values;
      var q :| q in points && points[q] == m[p];
    }
  }

  class PointRegistry {
    var points: map<Pos, Teleport>

    ghost predicate Valid()
      reads this
    {
      KeyedByPos(points)
    }

    /** The registry is created empty at world start. */
    constructor ()
      ensures Valid() && points == map[]
    {
      points := map[];
    }

    /** `Points.SetFrom(list)`: discards the current contents and installs the list. */
    method SetFrom(list: seq<Teleport>)
      modifies this
      ensures Valid()
      ensures points == FromList(list)
    {
      points := FromList(list);
    }

    /** `Points.GetAll()`: every teleport once, in an order this model leaves open. */
    method GetAll() returns (all: seq<Teleport>)
      requires Valid()
      ensures IsSnapshot(all, points)
    {
      all := [];
      var rest := points.Keys;
      while rest != {}
        invariant rest <= points.Keys
        invariant forall i :: 0 <= i < |all| ==>
          all[i].pos in points && all[i].pos !in rest && points[all[i].pos] == all[i]
        invariant forall p :: p in points && p !in rest ==> points[p] in all
        invariant DistinctPositions(all)
        decreases rest
      {
        var p :| p in rest;
        all := all + [points[p]];
        rest := rest - {p};
      }
    }
  }
}
