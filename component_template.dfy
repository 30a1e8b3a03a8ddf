/**
 * The generated component manager of component_template.rs: a vector of
 * entities addressed by `id - initial_id`, a counter of issued ids, and a
 * cache from map coordinates to the ids whose Position is there.
 * Every `fail!` of the source is a `Failed` status (or an `Err` result);
 * the state at that point is the state the source had reached.
 */
module ComponentTemplate {
  import opened Base
  import opened ComponentKinds
  import opened PositionCache

  datatype Failure = InvalidEntity(id: int) | MissingComponent(id: int, ctype: ComponentType) | CacheMissing(id: int)

  datatype Status = Success | Failed(reason: Failure)

  /** The Position of entity `id`, read through the `id - initial_id` index. */
  function PositionIn(es: seq<Entity>, initialId: int, id: int): Option<(int, int)>
  {
    if 0 <= id - initialId < |es| then PositionKey(es[id - initialId]) else None
  }

  /** The cache lists an id under a key exactly when that id is positioned there, and only once. */
  ghost predicate Consistent(es: seq<Entity>, initialId: int, cache: Cache)
  {
    BucketsDistinct(cache)
    && (forall k, id :: Listed(cache, k, id) ==> PositionIn(es, initialId, id) == Some(k))
    && (forall id :: PositionIn(es, initialId, id).Some? ==> Listed(cache, PositionIn(es, initialId, id).value, id))
  }

  lemma DetachedListing(es: seq<Entity>, initialId: int, cache: Cache, id: int)
    requires Consistent(es, initialId, cache)
    ensures var c := Detached(cache, PositionIn(es, initialId, id), id);
      BucketsDistinct(c) && forall k, id' :: Listed(c, k, id') <==> Listed(cache, k, id') && id' != id
  {
    var pos := PositionIn(es, initialId, id);
    if pos.Some? {
      DetachListing(cache, pos.value, id);
    }
  }

  /** Moving entity `id` to (x, y) — detach from the old bucket, attach to the new — keeps the cache consistent. */
  lemma MoveKeepsConsistent(es: seq<Entity>, initialId: int, cache: Cache, id: int, x: int, y: int)
    requires Consistent(es, initialId, cache)
    requires 0 <= id - initialId < |es|
    ensures var i := id - initialId;
      Consistent(es[i := es[i][tPosition := Position(x, y)]], initialId,
                 Attach(Detached(cache, PositionIn(es, initialId, id), id), (x, y), id))
  {
    var i := id - initialId;
    var es' := es[i := es[i][tPosition := Position(x, y)]];
    var c := Detached(cache, PositionIn(es, initialId, id), id);
    var c' := Attach(c, (x, y), id);
    DetachedListing(es, initialId, cache, id);
    assert forall id' :: id' != id ==> PositionIn(es', initialId, id') == PositionIn(es, initialId, id');
    assert PositionIn(es', initialId, id) == Some((x, y));
    AttachListing(c, (x, y), id);
  }

  /** Removing the Position of entity `id` and detaching it keeps the cache consistent. */
  lemma RemoveKeepsConsistent(es: seq<Entity>, initialId: int, cache: Cache, id: int)
    requires Consistent(es, initialId, cache)
    requires 0 <= id - initialId < |es|
    ensures var i := id - initialId;
      Consistent(es[i := es[i] - {tPosition}], initialId, Detached(cache, PositionIn(es, initialId, id), id))
  {
    var i := id - initialId;
    var es' := es[i := es[i] - {tPosition}];
    DetachedListing(es, initialId, cache, id);
    assert forall id' :: id' != id ==> PositionIn(es', initialId, id') == PositionIn(es, initialId, id');
    assert PositionIn(es', initialId, id) == None;
  }

  /** Entities whose positions are unchanged leave the cache exactly as consistent as before. */
  lemma SamePositions(es: seq<Entity>, es': seq<Entity>, initialId: int, cache: Cache)
    requires forall id :: PositionIn(es, initialId, id) == PositionIn(es', initialId, id)
    ensures Consistent(es, initialId, cache) == Consistent(es', initialId, cache)
  {
  }

  /** Appending an entity without a Position neither needs nor changes a cache entry. */
  lemma AppendKeepsConsistent(es: seq<Entity>, initialId: int, cache: Cache, e: Entity)
    requires Consistent(es, initialId, cache)
    requires PositionKey(e).None?
    ensures Consistent(es + [e], initialId, cache)
  {
    assert forall id :: PositionIn(es + [e], initialId, id) == PositionIn(es, initialId, id);
    SamePositions(es, es + [e], initialId, cache);
  }

  /** Adding an entity under the next id and caching its Position keeps the cache consistent. */
  lemma AddKeepsConsistent(es: seq<Entity>, initialId: int, cache: Cache, e: Entity)
    requires Consistent(es, initialId, cache)
    ensures var id := initialId + |es|;
      Consistent(es + [e], initialId,
                 match PositionKey(e) case None => cache case Some(k) => Attach(cache, k, id))
  {
    var id := initialId + |es|;
    match PositionKey(e)
    case None =>
      AppendKeepsConsistent(es, initialId, cache, e);
    case Some(k) =>
      var bare := e - {tPosition};
      AppendKeepsConsistent(es, initialId, cache, bare);
      assert PositionIn(es + [bare], initialId, id) == None;
      MoveKeepsConsistent(es + [bare], initialId, cache, id, k.0, k.1);
      assert bare[tPosition := Position(k.0, k.1)] == e;
      assert (es + [bare])[id - initialId := bare[tPosition := Position(k.0, k.1)]] == es + [e];
  }

  /** Storing or dropping any component other than the Position leaves a consistent cache consistent. */
  lemma OtherComponentKeepsConsistent(es: seq<Entity>, initialId: int, cache: Cache, i: nat, e: Entity)
    requires Consistent(es, initialId, cache)
    requires i < |es| && PositionKey(e) == PositionKey(es[i])
    ensures Consistent(es[i := e], initialId, cache)
  {
    assert forall id :: PositionIn(es[i := e], initialId, id) == PositionIn(es, initialId, id);
    SamePositions(es, es[i := e], initialId, cache);
  }

  class ComponentManager {
    var entities: seq<Entity>
    var initialId: int
    var nextId: int
    var positionCache: Cache

    /** No more entities are stored than ids were issued since the last clear. */
    ghost predicate Valid()
      reads this
    {
      initialId + |entities| <= nextId
    }

    /** Every issued id still addresses its own entity: true until the first `take_out`. */
    predicate Dense()
      reads this
    {
      nextId == initialId + |entities|
    }

    ghost predicate CacheConsistent()
      reads this
    {
      Consistent(entities, initialId, positionCache)
    }

    /** `has_entity`: the id indexes into the vector. */
    predicate HasEntity(id: int)
      reads this
    {
      0 <= id - initialId < |entities|
    }

    /** The stored Position of an entity, or None if it has none or is unknown. */
    function PositionOf(id: int): Option<(int, int)>
      reads this
    {
      PositionIn(entities, initialId, id)
    }

    constructor()
      ensures Valid() && Dense() && CacheConsistent()
      ensures entities == [] && initialId == 0 && nextId == 0 && positionCache == map[]
    {
      entities := [];
      initialId := 0;
      nextId := 0;
      positionCache := map[];
    }

    /** `has_component`: fails on an unknown id, otherwise tells whether the component is present. */
    function HasComponent(id: int, t: ComponentType): (r: Result<bool, Failure>)
      reads this
      ensures r.Err? <==> !HasEntity(id)
      ensures r.Err? ==> r.error == InvalidEntity(id)
      ensures r.Ok? ==> (r.value <==> t in entities[id - initialId])
    {
      if HasEntity(id) then Ok(t in entities[id - initialId]) else Err(InvalidEntity(id))
    }

    /** `get_component`: the stored component; unknown ids and absent components both fail. */
    function GetComponent(id: int, t: ComponentType): (r: Result<Component, Failure>)
      reads this
      requires Valid()
      ensures r.Ok? <==> HasComponent(id, t) == Ok(true)
      ensures r.Ok? ==> TypeOf(r.value) == t && entities[id - initialId][t] == r.value
      ensures !HasEntity(id) ==> r == Err(InvalidEntity(id))
    {
      if !HasEntity(id) then Err(InvalidEntity(id))
      else if t in entities[id - initialId] then Ok(entities[id - initialId][t])
      else Err(MissingComponent(id, t))
    }

    /** `iter`: every id issued since the last `remove_all_entities`, in order. */
    function Iter(): (ids: seq<int>)
      reads this
      requires Valid()
      ensures |ids| == nextId - initialId
      ensures forall i :: 0 <= i < |ids| ==> ids[i] == initialId + i
      ensures Dense() ==> forall id :: id in ids <==> HasEntity(id)
    {
      Range(initialId, nextId)
    }

    /** `entities_on_pos`: with a consistent cache, exactly the entities positioned at (x, y), each once. */
    function EntitiesOnPos(x: int, y: int): (ids: seq<int>)
      reads this
      ensures CacheConsistent() ==> NoDup(ids) && forall id :: id in ids <==> PositionOf(id) == Some((x, y))
    {
      if (x, y) in positionCache then positionCache[(x, y)] else []
    }

    /** `add_entity`: stores the entity under the next id and caches its Position. */
    method AddEntity(e: Entity) returns (id: int, s: Status)
      requires Valid()
      modifies this
      ensures Valid()
      ensures id == old(nextId) && nextId == old(nextId) + 1 && initialId == old(initialId)
      ensures entities == old(entities) + [e]
      ensures s.Success? <==> old(Dense())
      ensures s.Success? ==> Dense() && HasEntity(id)
      ensures s.Success? ==> (positionCache ==
        match PositionKey(e) case None => old(positionCache) case Some(k) => Attach(old(positionCache), k, id))
      ensures s.Failed? ==> s.reason == InvalidEntity(id) && positionCache == old(positionCache)
    {
      entities := entities + [e];
      nextId := nextId + 1;
      id := nextId - 1;
      var has := HasComponent(id, tPosition);
      if has.Err? {
        return id, Failed(has.error);
      }
      s := Success;
      if has.value {
        var pos := GetComponent(id, tPosition).value;
        assert pos == Position(pos.x, pos.y);
        assert (e - {tPosition})[tPosition := Position(pos.x, pos.y)] == e;
        assert PositionKey(e) == Some((pos.x, pos.y));
        var cleared := RemoveComponentRaw(id, tPosition);
        assert entities == old(entities) + [e - {tPosition}];
        assert PositionOf(id) == None;
        ghost var prior := entities;
        s := SetPosition(id, pos.x, pos.y);
        assert entities == prior[id - initialId := (e - {tPosition})[tPosition := Position(pos.x, pos.y)]];
        assert entities == old(entities) + [e];
      }
    }

    /** `new_entity`: a fresh entity with no components. */
    method NewEntity() returns (id: int, s: Status)
      requires Valid()
      modifies this
      ensures Valid()
      ensures id == old(nextId) && nextId == old(nextId) + 1 && initialId == old(initialId)
      ensures entities == old(entities) + [map[]] && positionCache == old(positionCache)
      ensures s.Success? <==> old(Dense())
    {
      id, s := AddEntity(map[]);
    }

    /** `take_out`: removes the entity from the vector, shifting later ones down; ids and cache are left as they are. */
    method TakeOut(id: int) returns (r: Result<Entity, Failure>)
      requires Valid()
      modifies this
      ensures Valid()
      ensures r.Ok? <==> old(HasEntity(id))
      ensures r.Err? ==> r.error == InvalidEntity(id) && unchanged(this)
      ensures r.Ok? ==> old(HasEntity(id)) && r.value == old(entities[id - initialId]) && entities == old(RemoveAt(entities, id - initialId))
      ensures r.Ok? ==> initialId == old(initialId) && nextId == old(nextId) && positionCache == old(positionCache)
      ensures r.Ok? ==> !Dense() && !HasEntity(nextId - 1)
    {
      if HasEntity(id) {
        var i := id - initialId;
        r := Ok(entities[i]);
        entities := RemoveAt(entities, i);
      } else {
        r := Err(InvalidEntity(id));
      }
    }

    /** `remove_all_entities`: empties the vector and the cache; ids issued so far are never reused. */
    method RemoveAllEntities()
      requires Valid()
      modifies this
      ensures Valid() && Dense() && CacheConsistent()
      ensures entities == [] && positionCache == map[]
      ensures initialId == old(nextId) && nextId == old(nextId)
      ensures Iter() == []
      ensures forall id :: id < old(nextId) ==> !HasEntity(id)
    {
      entities := [];
      positionCache := map[];
      initialId := nextId;
    }

    /** The private `set_X_` / `remove_X_` pair for the Position, without cache upkeep. */
    method RemoveComponentRaw(id: int, t: ComponentType) returns (s: Status)
      requires Valid()
      modifies this
      ensures Valid()
      ensures s.Success? <==> old(HasEntity(id))
      ensures s.Failed? ==> s.reason == InvalidEntity(id) && unchanged(this)
      ensures s.Success? ==> old(HasEntity(id)) && entities == old(entities[id - initialId := entities[id - initialId] - {t}])
      ensures initialId == old(initialId) && nextId == old(nextId) && positionCache == old(positionCache)
    {
      if !HasEntity(id) {
        return Failed(InvalidEntity(id));
      }
      var i := id - initialId;
      entities := entities[i := entities[i] - {t}];
      s := Success;
    }

    /** Public `set_X` of every component but Position: stores it, the cache is untouched. */
    method SetComponent(id: int, c: Component) returns (s: Status)
      requires Valid() && !c.Position?
      modifies this
      ensures Valid()
      ensures s.Success? <==> old(HasEntity(id))
      ensures s.Failed? ==> s.reason == InvalidEntity(id) && unchanged(this)
      ensures s.Success? ==> old(HasEntity(id)) && entities == old(entities[id - initialId := entities[id - initialId][TypeOf(c) := c]])
      ensures initialId == old(initialId) && nextId == old(nextId) && positionCache == old(positionCache)
    {
      if !HasEntity(id) {
        return Failed(InvalidEntity(id));
      }
      var i := id - initialId;
      entities := entities[i := entities[i][TypeOf(c) := c]];
      s := Success;
    }

    /** Public `remove_X` of every component but Position. */
    method RemoveComponent(id: int, t: ComponentType) returns (s: Status)
      requires Valid() && t != tPosition
      modifies this
      ensures Valid()
      ensures s.Success? <==> old(HasEntity(id))
      ensures s.Failed? ==> s.reason == InvalidEntity(id) && unchanged(this)
      ensures s.Success? ==> old(HasEntity(id)) && entities == old(entities[id - initialId := entities[id - initialId] - {t}])
      ensures initialId == old(initialId) && nextId == old(nextId) && positionCache == old(positionCache)
    {
      s := RemoveComponentRaw(id, t);
    }

    /** `remove_position`: takes the id out of the bucket of its position (failing if it is not listed there), then drops the Position. */
    method RemovePosition(id: int) returns (s: Status)
      requires Valid()
      modifies this
      ensures Valid()
      ensures !old(HasEntity(id)) ==> s == Failed(InvalidEntity(id)) && unchanged(this)
      ensures old(HasEntity(id)) && old(PositionOf(id)).Some? && !old(Listed(positionCache, PositionOf(id).value, id))
        ==> s == Failed(CacheMissing(id)) && unchanged(this)
      ensures old(HasEntity(id)) && old(PositionOf(id)).Some? && old(Listed(positionCache, PositionOf(id).value, id))
        ==> s.Success?
      ensures s.Success? ==>
        old(HasEntity(id)) && entities == old(entities[id - initialId := entities[id - initialId] - {tPosition}])
        && positionCache == Detached(old(positionCache), old(PositionOf(id)), id)
      ensures old(HasEntity(id)) && old(PositionOf(id)).None? ==> s.Success?
      ensures initialId == old(initialId) && nextId == old(nextId)
    {
      if !HasEntity(id) {
        return Failed(InvalidEntity(id));
      }
      var i := id - initialId;
      var pos := PositionKey(entities[i]);
      if pos.Some? {
        var k := pos.value;
        if k !in positionCache {
          return Failed(CacheMissing(id));
        }
        var idx := IndexOf(positionCache[k], id);
        if idx.None? {
          return Failed(CacheMissing(id));
        }
        positionCache := positionCache[k := RemoveAt(positionCache[k], idx.value)];
      }
      s := RemoveComponentRaw(id, tPosition);
    }

    /** `set_position`: moves the entity's cache entry from its old position (if any) to the end of the bucket of the new one. */
    method SetPosition(id: int, x: int, y: int) returns (s: Status)
      requires Valid()
      modifies this
      ensures Valid()
      ensures !old(HasEntity(id)) ==> s == Failed(InvalidEntity(id)) && unchanged(this)
      ensures old(HasEntity(id)) && old(PositionOf(id)).Some? && !old(Listed(positionCache, PositionOf(id).value, id))
        ==> s == Failed(CacheMissing(id)) && unchanged(this)
      ensures old(HasEntity(id)) && old(PositionOf(id)).Some? && old(Listed(positionCache, PositionOf(id).value, id))
        ==> s.Success?
      ensures old(HasEntity(id)) && old(PositionOf(id)).None? ==> s.Success?
      ensures s.Success? ==>
        old(HasEntity(id)) && entities == old(entities[id - initialId := entities[id - initialId][tPosition := Position(x, y)]])
        && positionCache == Attach(Detached(old(positionCache), old(PositionOf(id)), id), (x, y), id)
        && PositionOf(id) == Some((x, y))
      ensures initialId == old(initialId) && nextId == old(nextId)
    {
      if !HasEntity(id) {
        return Failed(InvalidEntity(id));
      }
      var i := id - initialId;
      if tPosition in entities[i] {
        s := RemovePosition(id);
        if s.Failed? {
          return s;
        }
      }
      ghost var cleared := entities;
      assert cleared[i][tPosition := Position(x, y)] == old(entities)[i][tPosition := Position(x, y)];
      entities := entities[i := entities[i][tPosition := Position(x, y)]];
      assert entities == old(entities)[i := old(entities)[i][tPosition := Position(x, y)]];
      assert positionCache == Detached(old(positionCache), old(PositionOf(id)), id);
      positionCache := Attach(positionCache, (x, y), id);
      s := Success;
    }
  }
}
