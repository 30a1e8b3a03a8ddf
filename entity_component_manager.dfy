// The Python entity/component manager: a set of issued ids and, per registered
// component class, a list of optional components indexed by entity id.

module EntityComponentManager {
  import opened Base

  /** The exceptions the manager raises. */
  datatype PyError = TypeError | ValueError | IndexError

  /** A Python class, as far as the manager looks at it: its name and whether it subclasses Component. */
  datatype ClassTag = ClassTag(name: string, isComponent: bool)

  /** A component instance; its class is its type key. Instances are always truthy. */
  datatype Value = Value(cls: ClassTag, data: int)

  type Slot = Option<Value>

  /** Python list indexing: a position for -len <= i < len (negative counts from the end), otherwise none. */
  function PyIndex(len: nat, i: int): (r: Option<nat>)
    ensures r.Some? <==> -(len as int) <= i < len
    ensures r.Some? ==> r.value < len && (if i >= 0 then r.value == i else r.value == len + i)
  {
    if 0 <= i < len then Some(i) else if -(len as int) <= i < 0 then Some((len as int + i) as nat) else None
  }

  /** `components[ctype][id]` as an expression. */
  function Load(col: seq<Slot>, id: int): (r: Result<Slot, PyError>)
    ensures r.Err? <==> PyIndex(|col|, id).None?
    ensures r.Err? ==> r.error == IndexError
    ensures r.Ok? ==> r.value == col[PyIndex(|col|, id).value]
  {
    match PyIndex(|col|, id)
    case None => Err(IndexError)
    case Some(i) => Ok(col[i])
  }

  /** The padding `set_component` does: a list too short for a non-negative id is extended with None to length id + 1. */
  function Pad(col: seq<Slot>, id: int): (r: seq<Slot>)
    ensures |r| == Max(|col|, id + 1)
    ensures r[..|col|] == col
    ensures forall j :: |col| <= j < |r| ==> r[j] == None
  {
    if |col| <= id then col + seq(id - |col| + 1, _ => None) else col
  }

  /** `components[id] = v` after padding: fails only for a negative id beyond the list's start. */
  function Store(col: seq<Slot>, id: int, v: Slot): (r: Result<seq<Slot>, PyError>)
    ensures r.Err? <==> id < -|col|
    ensures r.Err? ==> r.error == IndexError
    ensures r.Ok? ==> |r.value| == Max(|col|, id + 1) && Load(r.value, id) == Ok(v)
  {
    var padded := Pad(col, id);
    match PyIndex(|padded|, id)
    case None => Err(IndexError)
    case Some(i) => Ok(padded[i := v])
  }

  /** `components[id] = None` without padding. */
  function Clear(col: seq<Slot>, id: int): (r: Result<seq<Slot>, PyError>)
    ensures r.Err? <==> PyIndex(|col|, id).None?
    ensures r.Err? ==> r.error == IndexError
    ensures r.Ok? ==> |r.value| == |col| && Load(r.value, id) == Ok(None)
  {
    match PyIndex(|col|, id)
    case None => Err(IndexError)
    case Some(i) => Ok(col[i := None])
  }

  /** `set` then `get` of the same id returns the component; every other slot reads as before, or None when it is padding. */
  lemma StoreThenLoad(col: seq<Slot>, id: int, v: Slot, j: int)
    requires Store(col, id, v).Ok?
    ensures var col' := Store(col, id, v).value;
      match PyIndex(|col'|, j)
      case None => Load(col', j) == Err(IndexError)
      case Some(p) => Load(col', j) == Ok(if Some(p) == PyIndex(|col'|, id) then v else if p < |col| then col[p] else None)
  {
    var padded := Pad(col, id);
    assert |padded| == |Store(col, id, v).value|;
    match PyIndex(|padded|, j)
    case None =>
    case Some(p) =>
      if p < |col| {
        assert padded[..|col|][p] == col[p];
      }
  }

  /** `remove_component` touches only the addressed slot. */
  lemma ClearOnlyThatSlot(col: seq<Slot>, id: int, j: nat)
    requires Clear(col, id).Ok? && j < |col| && Some(j) != PyIndex(|col|, id)
    ensures Clear(col, id).value[j] == col[j]
  {
  }

  /** The ids `entities(ctype)` yields from a column: indices from `from` on whose slot holds a component, ascending. */
  function Occupied(col: seq<Slot>, from: nat): (ids: seq<int>)
    requires from <= |col|
    ensures forall i :: i in ids <==> from <= i < |col| && col[i].Some?
    ensures forall a, b :: 0 <= a < b < |ids| ==> ids[a] < ids[b]
    ensures forall k :: 0 <= k < |ids| ==> from <= ids[k]
    decreases |col| - from
  {
    if from == |col| then []
    else if col[from].Some? then [from] + Occupied(col, from + 1)
    else Occupied(col, from + 1)
  }

  /** The components of one entity, one per class in `order`, skipping empty and out-of-range slots. */
  function ComponentsOf(order: seq<ClassTag>, columns: map<ClassTag, seq<Slot>>, id: int): (r: Result<seq<Value>, PyError>)
    requires forall t :: t in order ==> t in columns
    ensures r.Err? ==> r.error == IndexError && exists t :: t in order && id < -|columns[t]|
    ensures r.Ok? ==> forall v :: v in r.value ==> exists t :: t in order && Load(columns[t], id) == Ok(Some(v))
    ensures r.Ok? && id >= 0 ==> forall v :: v in r.value <==> exists t :: t in order && id < |columns[t]| && columns[t][id] == Some(v)
  {
    if order == [] then Ok([])
    else
      var col := columns[order[0]];
      var rest := ComponentsOf(order[1..], columns, id);
      if rest.Err? then (assert forall t :: t in order[1..] ==> t in order; rest)
      else if !(|col| > id) then Ok(rest.value)
      else match Load(col, id)
        case Err(e) => Err(e)
        case Ok(slot) => if slot.Some? then Ok([slot.value] + rest.value) else Ok(rest.value)
  }

  class Manager {
    /** `_entities`: every id handed out. */
    var ids: set<int>
    /** `_last_entity_id` */
    var lastId: int
    /** The keys of `_components`, each once, in one iteration order: the dictionary promises none, and no contract
        depends on which. */
    var order: seq<ClassTag>
    /** `_components` */
    var columns: map<ClassTag, seq<Slot>>

    ghost predicate Valid()
      reads this
    {
      lastId >= 0
      && (forall i :: i in ids <==> 1 <= i <= lastId)
      && NoDup(order)
      && (forall t :: t in columns <==> t in order)
      && (forall t :: t in columns ==> t.isComponent)
    }

    constructor()
      ensures Valid()
      ensures ids == {} && lastId == 0 && order == [] && columns == map[]
    {
      ids := {};
      lastId := 0;
      order := [];
      columns := map[];
    }

    /** `new_entity`: ids start at 1 and go up by one; nothing else changes. */
    method NewEntity() returns (id: int)
      requires Valid()
      modifies this
      ensures Valid()
      ensures id == old(lastId) + 1 && lastId == id && id >= 1
      ensures ids == old(ids) + {id} && id !in old(ids)
      ensures order == old(order) && columns == old(columns)
    {
      id := lastId + 1;
      ids := ids + {id};
      lastId := id;
    }

    /** `register_component_type`: rejects non-components, keeps an existing column, else adds one of `lastId` Nones. */
    method RegisterComponentType(t: ClassTag) returns (r: Result<(), PyError>)
      requires Valid()
      modifies this
      ensures Valid()
      ensures !t.isComponent ==> r == Err(TypeError) && unchanged(this)
      ensures t.isComponent && t in old(columns) ==> r == Ok(()) && unchanged(this)
      ensures t.isComponent && t !in old(columns) ==>
        r == Ok(()) && columns == old(columns)[t := seq(lastId, _ => None)] && order == old(order) + [t]
      ensures ids == old(ids) && lastId == old(lastId)
    {
      if !t.isComponent {
        return Err(TypeError);
      }
      if t in columns {
        return Ok(());
      }
      assert t !in order;
      AppendNoDup(order, t);
      columns := columns[t := seq(lastId, _ => None)];
      order := order + [t];
      r := Ok(());
    }

    /** `set_component`: the component's own class is its key, which must be a registered Component. */
    method SetComponent(id: int, v: Value) returns (r: Result<(), PyError>)
      requires Valid()
      modifies this
      ensures Valid()
      ensures !v.cls.isComponent ==> r == Err(TypeError)
      ensures v.cls.isComponent && v.cls !in old(columns) ==> r == Err(ValueError)
      ensures v.cls in old(columns) ==> r.Ok? == Store(old(columns)[v.cls], id, Some(v)).Ok?
      ensures r.Err? ==> unchanged(this)
      ensures r.Ok? ==> v.cls in old(columns) && columns == old(columns)[v.cls := Store(old(columns)[v.cls], id, Some(v)).value]
      ensures ids == old(ids) && lastId == old(lastId) && order == old(order)
    {
      if !v.cls.isComponent {
        return Err(TypeError);
      }
      if v.cls !in columns {
        return Err(ValueError);
      }
      var stored := Store(columns[v.cls], id, Some(v));
      if stored.Err? {
        return Err(stored.error);
      }
      columns := columns[v.cls := stored.value];
      r := Ok(());
    }

    /** `get_component`: the raw slot, so None for a cleared or padded slot and IndexError past the list's end. */
    function GetComponent(id: int, t: ClassTag): (r: Result<Slot, PyError>)
      reads this
      ensures !t.isComponent ==> r == Err(TypeError)
      ensures t.isComponent && t !in columns ==> r == Err(ValueError)
      ensures t.isComponent && t in columns ==> r == Load(columns[t], id)
    {
      if !t.isComponent then Err(TypeError)
      else if t !in columns then Err(ValueError)
      else Load(columns[t], id)
    }

    /** `remove_component`: sets only that entity's slot of that class to None. */
    method RemoveComponent(id: int, t: ClassTag) returns (r: Result<(), PyError>)
      requires Valid()
      modifies this
      ensures Valid()
      ensures !t.isComponent ==> r == Err(TypeError)
      ensures t.isComponent && t !in old(columns) ==> r == Err(ValueError)
      ensures t.isComponent && t in old(columns) ==> r.Ok? == Clear(old(columns)[t], id).Ok?
      ensures r.Err? ==> unchanged(this)
      ensures r.Ok? ==> t in old(columns) && columns == old(columns)[t := Clear(old(columns)[t], id).value]
      ensures ids == old(ids) && lastId == old(lastId) && order == old(order)
    {
      if !t.isComponent {
        return Err(TypeError);
      }
      if t !in columns {
        return Err(ValueError);
      }
      var cleared := Clear(columns[t], id);
      if cleared.Err? {
        return Err(cleared.error);
      }
      columns := columns[t := cleared.value];
      r := Ok(());
    }

    /** `components(entity)` */
    function Components(id: int): (r: Result<seq<Value>, PyError>)
      reads this
      requires Valid()
      ensures id >= 0 ==> r.Ok?
      ensures r.Ok? ==> forall v :: v in r.value ==> exists t :: t in order && GetComponent(id, t) == Ok(Some(v))
    {
      NonNegativeNeverFails(order, columns, id);
      ComponentsOf(order, columns, id)
    }

    /** `entities()` with no class: every id handed out. */
    function AllEntities(): (r: set<int>)
      reads this
      requires Valid()
      ensures forall i :: i in r <==> 1 <= i <= lastId
    {
      ids
    }

    /** `entities(ctype)`: the ids whose slot holds a component, in index order. */
    function Entities(t: ClassTag): (r: Result<seq<int>, PyError>)
      reads this
      ensures !t.isComponent ==> r == Err(TypeError)
      ensures t.isComponent && t !in columns ==> r == Err(ValueError)
      ensures r.Ok? ==> t in columns && forall i :: i in r.value <==> GetComponent(i, t).Ok? && GetComponent(i, t).value.Some? && i >= 0
    {
      if !t.isComponent then Err(TypeError)
      else if t !in columns then Err(ValueError)
      else Ok(Occupied(columns[t], 0))
    }
  }

  /** For a non-negative id the generator never indexes out of range. */
  lemma {:induction false} NonNegativeNeverFails(order: seq<ClassTag>, columns: map<ClassTag, seq<Slot>>, id: int)
    requires forall t :: t in order ==> t in columns
    ensures id >= 0 ==> ComponentsOf(order, columns, id).Ok?
  {
    if order != [] {
      assert forall t :: t in order[1..] ==> t in order;
      NonNegativeNeverFails(order[1..], columns, id);
    }
  }

  /** A class registered after entities 1..n exist gets n slots, so `get_component` of the newest entity raises IndexError. */
  lemma RegisteredLateMissesNewest(lastId: nat, i: int)
    requires lastId >= 1
    ensures Load(seq(lastId, _ => None), lastId) == Err(IndexError)
    ensures 0 <= i < lastId ==> Load(seq(lastId, _ => None), i) == Ok(None)
  {
  }
}
