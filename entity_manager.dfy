// The generic entity vector of src/entity_manager.rs: entities are pushed and
// addressed by their index.

module EntityManager {
  import opened Base

  /** Indexing the vector with an id outside it is an out-of-bounds failure. */
  datatype OutOfBounds = OutOfBounds(id: int, len: nat)

  /** `iter` / `mut_iter`: the vector enumerated as (index, entity) pairs. */
  function Enumerate<E>(s: seq<E>): (r: seq<(int, E)>)
    ensures |r| == |s|
    ensures forall i :: 0 <= i < |r| ==> r[i] == (i, s[i])
  {
    seq(|s|, i requires 0 <= i < |s| => (i, s[i]))
  }

  /** Enumerating a pushed vector extends the old enumeration by the new pair. */
  lemma EnumeratePush<E>(s: seq<E>, e: E)
    ensures Enumerate(s + [e]) == Enumerate(s) + [(|s|, e)]
  {
    assert forall i :: 0 <= i < |s| ==> Enumerate(s + [e])[i] == Enumerate(s)[i];
  }

  class Manager<E> {
    var entities: seq<E>
    var nextId: int

    /** `next_id` always counts the stored entities. */
    predicate Valid()
      reads this
    {
      nextId == |entities|
    }

    constructor()
      ensures Valid() && entities == []
    {
      entities := [];
      nextId := 0;
    }

    /** `add`: pushes the entity and returns its index. */
    method Add(e: E) returns (id: int)
      requires Valid()
      modifies this
      ensures Valid()
      ensures id == old(nextId) && entities == old(entities) + [e]
      ensures GetRef(id) == Ok(e)
      ensures forall j :: 0 <= j < id ==> GetRef(j) == old(GetRef(j))
    {
      entities := entities + [e];
      nextId := nextId + 1;
      id := nextId - 1;
    }

    /** `get_ref`: the entity at that index; anything outside the vector is out of bounds. */
    function GetRef(id: int): (r: Result<E, OutOfBounds>)
      reads this
      ensures r.Ok? <==> 0 <= id < |entities|
      ensures r.Ok? ==> r.value == entities[id]
      ensures r.Err? ==> r.error == OutOfBounds(id, |entities|)
    {
      if 0 <= id < |entities| then Ok(entities[id]) else Err(OutOfBounds(id, |entities|))
    }

    /** `get_ref_mut` followed by a write through the reference: only the addressed slot changes. */
    method SetRef(id: int, e: E) returns (r: Result<(), OutOfBounds>)
      requires Valid()
      modifies this
      ensures Valid()
      ensures r.Ok? <==> 0 <= id < old(|entities|)
      ensures r.Err? ==> r.error == OutOfBounds(id, |entities|) && unchanged(this)
      ensures r.Ok? ==> entities == old(entities)[id := e]
    {
      if 0 <= id < |entities| {
        entities := entities[id := e];
        r := Ok(());
      } else {
        r := Err(OutOfBounds(id, |entities|));
      }
    }

    /** `iter`: (index, entity) pairs in insertion order. */
    function Iter(): (r: seq<(int, E)>)
      reads this
      ensures |r| == |entities|
      ensures forall i :: 0 <= i < |r| ==> r[i].0 == i && GetRef(i) == Ok(r[i].1)
    {
      Enumerate(entities)
    }
  }

  /** Ids are handed out as 0, 1, 2, ... in call order. */
  method AddInOrder<E>(a: E, b: E, c: E) returns (ia: int, ib: int, ic: int, m: Manager<E>)
    ensures ia == 0 && ib == 1 && ic == 2
    ensures m.GetRef(ia) == Ok(a) && m.GetRef(ib) == Ok(b) && m.GetRef(ic) == Ok(c)
    ensures m.Iter() == [(0, a), (1, b), (2, c)]
  {
    m := new Manager<E>();
    ia := m.Add(a);
    ib := m.Add(b);
    ic := m.Add(c);
  }
}
