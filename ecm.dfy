/**
 * The wrapper of src/ecm.rs around the emhyr entity store. emhyr itself is
 * not part of this model: it is taken to be a map from live entities to
 * their components, with fresh ids from a counter, and a call on an entity
 * it does not hold is taken to fail. The wrapper adds the position cache:
 * `set` and `remove` of a Position move the entity between buckets.
 */
module Ecm {
  import opened Base
  import opened ComponentKinds
  import opened PositionCache

  datatype Failure = UnknownEntity(id: int) | MissingComponent(id: int, ctype: ComponentType) | CacheMissing(id: int)

  datatype Status = Success | Failed(reason: Failure)

  function PositionInStore(store: map<int, Entity>, id: int): Option<(int, int)>
  {
    if id in store then PositionKey(store[id]) else None
  }

  /** The cache lists an entity under a key exactly when that live entity is positioned there, once. */
  ghost predicate Consistent(store: map<int, Entity>, cache: Cache)
  {
    BucketsDistinct(cache)
    && (forall k, id :: Listed(cache, k, id) ==> PositionInStore(store, id) == Some(k))
    && (forall id :: PositionInStore(store, id).Some? ==> Listed(cache, PositionInStore(store, id).value, id))
  }

  lemma SamePositions(store: map<int, Entity>, store': map<int, Entity>, cache: Cache)
    requires forall id :: PositionInStore(store, id) == PositionInStore(store', id)
    ensures Consistent(store, cache) == Consistent(store', cache)
  {
  }

  lemma DetachKeepsConsistent(store: map<int, Entity>, cache: Cache, id: int)
    requires Consistent(store, cache) && id in store
    ensures Consistent(store[id := store[id] - {tPosition}], Detached(cache, PositionInStore(store, id), id))
  {
    var store' := store[id := store[id] - {tPosition}];
    var pos := PositionInStore(store, id);
    if pos.Some? {
      DetachListing(cache, pos.value, id);
    }
    assert forall id' :: id' != id ==> PositionInStore(store', id') == PositionInStore(store, id');
  }

  lemma MoveKeepsConsistent(store: map<int, Entity>, cache: Cache, id: int, x: int, y: int)
    requires Consistent(store, cache) && id in store && tPosition !in store[id]
    ensures Consistent(store[id := store[id][tPosition := Position(x, y)]], Attach(cache, (x, y), id))
  {
    var store' := store[id := store[id][tPosition := Position(x, y)]];
    AttachListing(cache, (x, y), id);
    assert forall id' :: id' != id ==> PositionInStore(store', id') == PositionInStore(store, id');
  }

  /** A new entity has no Position, so the cache needs no entry for it. */
  lemma NewEntityKeepsConsistent(store: map<int, Entity>, cache: Cache, id: int)
    requires Consistent(store, cache) && id !in store
    ensures Consistent(store[id := map[]], cache)
  {
    assert forall id' :: PositionInStore(store[id := map[]], id') == PositionInStore(store, id');
    SamePositions(store, store[id := map[]], cache);
  }

  /** Storing or dropping any component other than the Position leaves a consistent cache consistent. */
  lemma OtherComponentKeepsConsistent(store: map<int, Entity>, cache: Cache, id: int, e: Entity)
    requires Consistent(store, cache) && id in store && PositionKey(e) == PositionKey(store[id])
    ensures Consistent(store[id := e], cache)
  {
    assert forall id' :: PositionInStore(store[id := e], id') == PositionInStore(store, id');
    SamePositions(store, store[id := e], cache);
  }

  /** A Position set through `set` (leave the old bucket, join the new one) keeps the cache consistent. */
  lemma SetPositionKeepsConsistent(store: map<int, Entity>, cache: Cache, id: int, x: int, y: int)
    requires Consistent(store, cache) && id in store
    ensures Consistent(store[id := store[id][tPosition := Position(x, y)]],
                       Attach(Detached(cache, PositionInStore(store, id), id), (x, y), id))
  {
    DetachKeepsConsistent(store, cache, id);
    var bare := store[id := store[id] - {tPosition}];
    MoveKeepsConsistent(bare, Detached(cache, PositionInStore(store, id), id), id, x, y);
    assert bare[id][tPosition := Position(x, y)] == store[id][tPosition := Position(x, y)];
    assert bare[id := bare[id][tPosition := Position(x, y)]] == store[id := store[id][tPosition := Position(x, y)]];
  }

  /** As written, `remove_entity` of a positioned entity leaves it listed: the cache is no longer consistent. */
  lemma RemoveEntityBreaksConsistency(store: map<int, Entity>, cache: Cache, id: int)
    requires Consistent(store, cache) && PositionInStore(store, id).Some?
    ensures !Consistent(store - {id}, cache)
  {
    assert Listed(cache, PositionInStore(store, id).value, id);
    assert PositionInStore(store - {id}, id) == None;
  }

  /** The corrected removal (Position first, then the entity) keeps the cache consistent and forgets the entity. */
  lemma RemoveEntityKeepingCacheConsistent(store: map<int, Entity>, cache: Cache, id: int)
    requires Consistent(store, cache) && id in store
    ensures var c := Detached(cache, PositionInStore(store, id), id);
      Consistent(store - {id}, c) && forall k :: !Listed(c, k, id)
  {
    DetachKeepsConsistent(store, cache, id);
    var bare := store[id := store[id] - {tPosition}];
    assert forall id' :: id' != id ==> PositionInStore(store - {id}, id') == PositionInStore(bare, id');
    assert PositionInStore(bare, id) == None;
  }

  class ECM {
    /** emhyr's entities and their components. */
    var store: map<int, Entity>
    /** Ids emhyr has handed out so far. */
    var issued: int
    var positionCache: Cache

    ghost predicate Valid()
      reads this
    {
      forall id :: id in store ==> id < issued
    }

    ghost predicate CacheConsistent()
      reads this
    {
      Consistent(store, positionCache)
    }

    constructor()
      ensures Valid() && CacheConsistent()
      ensures store == map[] && positionCache == map[] && issued == 0
    {
      store := map[];
      issued := 0;
      positionCache := map[];
    }

    predicate HasEntity(id: int)
      reads this
    {
      id in store
    }

    /** `has::<T>`. */
    function Has(id: int, t: ComponentType): (r: Result<bool, Failure>)
      reads this
      ensures r.Ok? <==> id in store
      ensures r.Ok? ==> (r.value <==> t in store[id])
    {
      if id in store then Ok(t in store[id]) else Err(UnknownEntity(id))
    }

    /** `get::<T>`: fails when the entity or the component is missing. */
    function Get(id: int, t: ComponentType): (r: Result<Component, Failure>)
      reads this
      requires Valid()
      ensures r.Ok? <==> Has(id, t) == Ok(true)
      ensures r.Ok? ==> TypeOf(r.value) == t && store[id][t] == r.value
    {
      if id !in store then Err(UnknownEntity(id))
      else if t in store[id] then Ok(store[id][t])
      else Err(MissingComponent(id, t))
    }

    /** `entities_on_pos`: with a consistent cache, exactly the live entities standing at `pos`, each once. */
    function EntitiesOnPos(pos: (int, int)): (ids: seq<int>)
      reads this
      ensures CacheConsistent() ==> NoDup(ids) && forall id :: id in ids <==> PositionInStore(store, id) == Some(pos)
    {
      if pos in positionCache then positionCache[pos] else []
    }

    /** `iter`: the live entities. */
    function Iter(): (ids: set<int>)
      reads this
      ensures forall id :: id in ids <==> HasEntity(id)
    {
      store.Keys
    }

    method NewEntity() returns (id: int)
      requires Valid()
      modifies this
      ensures Valid()
      ensures id == old(issued) && issued == old(issued) + 1 && id !in old(store)
      ensures store == old(store)[id := map[]] && positionCache == old(positionCache)
    {
      id := issued;
      issued := issued + 1;
      store := store[id := map[]];
    }

    /** `remove::<T>`: for a Position, first takes the entity out of its bucket, failing if it is not listed there. */
    method Remove(id: int, t: ComponentType) returns (s: Status)
      requires Valid()
      modifies this
      ensures Valid() && issued == old(issued)
      ensures id !in old(store) ==> s == Failed(UnknownEntity(id)) && unchanged(this)
      ensures t != tPosition && id in old(store) ==> s.Success?
      ensures s.Success? ==> id in old(store) && store == old(store)[id := old(store)[id] - {t}]
      ensures s.Success? ==> positionCache == (if t == tPosition then Detached(old(positionCache), old(PositionInStore(store, id)), id) else old(positionCache))
      ensures s.Failed? ==> unchanged(this)
      ensures id in old(store) && (t != tPosition || old(PositionInStore(store, id)).None?) ==> s.Success?
      ensures id in old(store) && t == tPosition && old(PositionInStore(store, id)).Some? ==>
        (s.Success? <==> Listed(old(positionCache), old(PositionInStore(store, id)).value, id))
    {
      var has := Has(id, tPosition);
      if has.Err? {
        return Failed(has.error);
      }
      if t == tPosition && has.value {
        var pos := Get(id, tPosition).value;
        var k := (pos.x, pos.y);
        assert PositionInStore(store, id) == Some(k);
        if k !in positionCache {
          return Failed(CacheMissing(id));
        }
        var index := IndexOf(positionCache[k], id);
        if index.None? {
          return Failed(CacheMissing(id));
        }
        positionCache := positionCache[k := RemoveAt(positionCache[k], index.value)];
      }
      store := store[id := store[id] - {t}];
      s := Success;
    }

    /** `set`: a Position first leaves its old bucket and joins the end of the new one; every component is then stored. */
    method Set(id: int, c: Component) returns (s: Status)
      requires Valid()
      modifies this
      ensures Valid() && issued == old(issued)
      ensures id !in old(store) ==> s == Failed(UnknownEntity(id)) && unchanged(this)
      ensures !c.Position? && id in old(store) ==> s.Success?
      ensures s.Success? ==> id in old(store) && store == old(store)[id := old(store)[id][TypeOf(c) := c]]
      ensures s.Success? && c.Position? ==>
        positionCache == Attach(Detached(old(positionCache), old(PositionInStore(store, id)), id), (c.x, c.y), id)
      ensures s.Success? && !c.Position? ==> positionCache == old(positionCache)
      ensures id in old(store) && c.Position? && old(PositionInStore(store, id)).Some? ==>
        (s.Success? <==> Listed(old(positionCache), old(PositionInStore(store, id)).value, id))
      ensures id in old(store) && old(PositionInStore(store, id)).None? ==> s.Success?
    {
      if id !in store {
        return Failed(UnknownEntity(id));
      }
      if c.Position? {
        s := SetPosition(id, c.x, c.y);
      } else {
        store := store[id := store[id][TypeOf(c) := c]];
        s := Success;
      }
    }

    /** The Position branch of `set`: leave the old bucket through `remove`, then join the new one. */
    method SetPosition(id: int, x: int, y: int) returns (s: Status)
      requires Valid() && id in store
      modifies this
      ensures Valid() && issued == old(issued)
      ensures s.Failed? ==> unchanged(this)
      ensures s.Success? ==> store == old(store)[id := old(store)[id][tPosition := Position(x, y)]]
      ensures s.Success? ==> positionCache == Attach(Detached(old(positionCache), old(PositionInStore(store, id)), id), (x, y), id)
      ensures old(PositionInStore(store, id)).Some? ==>
        (s.Success? <==> Listed(old(positionCache), old(PositionInStore(store, id)).value, id))
      ensures old(PositionInStore(store, id)).None? ==> s.Success?
    {
      var before := store[id];
      s := Remove(id, tPosition);
      if s.Failed? {
        return s;
      }
      positionCache := Attach(positionCache, (x, y), id);
      assert (before - {tPosition})[tPosition := Position(x, y)] == before[tPosition := Position(x, y)];
      store := store[id := before[tPosition := Position(x, y)]];
    }

    /** `remove_entity` as written: emhyr forgets the entity, the position cache is not touched. */
    method RemoveEntity(id: int)
      requires Valid()
      modifies this
      ensures Valid() && issued == old(issued)
      ensures store == old(store) - {id} && positionCache == old(positionCache)
      ensures forall k :: Listed(old(positionCache), k, id) ==> id in EntitiesOnPos(k) && !HasEntity(id)
    {
      store := store - {id};
    }

    /** `remove_entity` as the cache invariant requires: the Position is removed through `remove` first. */
    method RemoveEntityKeepingCache(id: int) returns (s: Status)
      requires Valid()
      modifies this
      ensures Valid() && issued == old(issued)
      ensures id !in old(store) ==> s == Failed(UnknownEntity(id)) && unchanged(this)
      ensures s.Success? ==> store == old(store) - {id}
      ensures s.Success? ==> positionCache == Detached(old(positionCache), old(PositionInStore(store, id)), id)
      ensures id in old(store) && old(PositionInStore(store, id)).None? ==> s.Success?
      ensures id in old(store) && old(PositionInStore(store, id)).Some? ==>
        (s.Success? <==> Listed(old(positionCache), old(PositionInStore(store, id)).value, id))
    {
      s := Remove(id, tPosition);
      if s.Failed? {
        return;
      }
      store := store - {id};
    }

    /** `remove_all_entities` as written: emhyr is emptied, the position cache is not. */
    method RemoveAllEntities()
      requires Valid()
      modifies this
      ensures Valid() && issued == old(issued)
      ensures store == map[] && positionCache == old(positionCache)
    {
      store := map[];
    }

    /** `remove_all_entities` as the cache invariant requires: the cache is emptied with the store. */
    method RemoveAllEntitiesKeepingCache()
      requires Valid()
      modifies this
      ensures Valid() && CacheConsistent() && issued == old(issued)
      ensures store == map[] && positionCache == map[]
    {
      store := map[];
      positionCache := map[];
    }
  }

  /**
   * An entity placed at (3, 4) and then removed with `remove_entity` is still
   * reported by `entities_on_pos((3, 4))`, although the store no longer holds it.
   */
  method StaleCacheAfterRemoveEntity() returns (id: int, onPos: seq<int>, alive: bool)
    ensures onPos == [id] && !alive
  {
    var ecm := new ECM();
    id := ecm.NewEntity();
    var s := ecm.Set(id, Position(3, 4));
    assert s.Success?;
    ecm.RemoveEntity(id);
    onPos := ecm.EntitiesOnPos((3, 4));
    alive := ecm.HasEntity(id);
  }

  /** With the corrected removal the same sequence leaves (3, 4) empty. */
  method NoStaleCacheAfterRemoveEntity() returns (onPos: seq<int>)
    ensures onPos == []
  {
    var ecm := new ECM();
    var id := ecm.NewEntity();
    var s := ecm.Set(id, Position(3, 4));
    assert s.Success?;
    s := ecm.RemoveEntityKeepingCache(id);
    onPos := ecm.EntitiesOnPos((3, 4));
  }
}
