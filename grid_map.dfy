// The level map the systems of src/systems.rs and src/systems/movement.rs talk
// to. map.rs is not part of this model: the answers of its queries are fixed
// fields, and its two mutations are recorded as the calls the systems make.

module GridMap {
  import opened Base

  datatype Walkability = Walkable | Solid

  /** A mutating call into the map. */
  datatype MapCall = MoveEntity(id: int, from: (int, int), to: (int, int)) | RemoveEntity(id: int, at: (int, int))

  /** The bump scan over a cell's occupants: an occupant that is the mover itself is a panic; Walkable ones are skipped; the first Solid one is the result. */
  function FirstSolid(occ: seq<(int, Walkability)>, mover: int): (r: Result<Option<int>, int>)
    ensures r.Err? ==> r.error == mover
    ensures r.Ok? && r.value.Some? ==>
      exists k :: 0 <= k < |occ| && occ[k] == (r.value.value, Solid) && forall j :: 0 <= j < k ==> occ[j].1 == Walkable && occ[j].0 != mover
    ensures r == Ok(None) <==> forall k :: 0 <= k < |occ| ==> occ[k].1 == Walkable && occ[k].0 != mover
  {
    if occ == [] then Ok(None)
    else if occ[0].0 == mover then Err(mover)
    else if occ[0].1 == Solid then Ok(Some(occ[0].0))
    else
      var rest := FirstSolid(occ[1..], mover);
      assert occ[0].1 == Walkable;
      assert forall k :: 1 <= k < |occ| ==> occ[k] == occ[1..][k - 1];
      if rest.Ok? && rest.value.Some? then
        var k :| 0 <= k < |occ[1..]| && occ[1..][k] == (rest.value.value, Solid)
          && forall j :: 0 <= j < k ==> occ[1..][j].1 == Walkable && occ[1..][j].0 != mover;
        assert occ[k + 1] == (rest.value.value, Solid);
        rest
      else rest
  }

  /** The `for (bumpee, walkable) in entities_on_pos(..)` loop with its `break`. */
  method ScanForSolid(occ: seq<(int, Walkability)>, mover: int) returns (r: Result<Option<int>, int>)
    ensures r == FirstSolid(occ, mover)
  {
    var i := 0;
    while i < |occ|
      invariant 0 <= i <= |occ|
      invariant FirstSolid(occ, mover) == FirstSolid(occ[i..], mover)
    {
      assert occ[i..][1..] == occ[i + 1..];
      var (bumpee, walkable) := occ[i];
      if bumpee == mover {
        return Err(mover);
      }
      if walkable == Solid {
        return Ok(Some(bumpee));
      }
      i := i + 1;
    }
    r := Ok(None);
  }

  class Map {
    /** The cells `is_walkable` accepts. */
    const walkable: set<(int, int)>
    /** What `entities_on_pos` lists for each cell (absent cells list nothing). */
    const occupants: map<(int, int), seq<(int, Walkability)>>
    /** What `find_path` answers for each (from, to) pair (absent pairs have no path). */
    const paths: map<((int, int), (int, int)), seq<(int, int)>>
    /** The mutating calls made so far, oldest first. */
    var calls: seq<MapCall>

    constructor(walkable: set<(int, int)>, occupants: map<(int, int), seq<(int, Walkability)>>,
                paths: map<((int, int), (int, int)), seq<(int, int)>>)
      ensures this.walkable == walkable && this.occupants == occupants && this.paths == paths
      ensures calls == []
    {
      this.walkable := walkable;
      this.occupants := occupants;
      this.paths := paths;
      calls := [];
    }

    predicate IsWalkable(p: (int, int))
    {
      p in walkable
    }

    function EntitiesOnPos(p: (int, int)): seq<(int, Walkability)>
    {
      if p in occupants then occupants[p] else []
    }

    function FindPath(from: (int, int), to: (int, int)): Option<seq<(int, int)>>
    {
      if (from, to) in paths then Some(paths[(from, to)]) else None
    }

    method Move(id: int, from: (int, int), to: (int, int))
      modifies this
      ensures calls == old(calls) + [MoveEntity(id, from, to)]
    {
      calls := calls + [MoveEntity(id, from, to)];
    }

    method Remove(id: int, at: (int, int))
      modifies this
      ensures calls == old(calls) + [RemoveEntity(id, at)]
    {
      calls := calls + [RemoveEntity(id, at)];
    }
  }
}
