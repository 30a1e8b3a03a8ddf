// The movement system of src/systems/movement.rs, on the component_template.rs
// ComponentManager and the level map. The distance it calls is the tile
// (Chebyshev) distance; a path is the sequence of its remaining steps.

module Movement {
  import opened Base
  import opened ComponentKinds
  import opened PositionCache
  import opened GridMap
  import opened ComponentTemplate
  import P = Point

  type Cell = (int, int)

  function Distance(a: Cell, b: Cell): (d: int)
    ensures d == 0 <==> a == b
  {
    P.TileDistance(P.Point(a.0, a.1), P.Point(b.0, b.1))
  }

  /** What one call does, once the entity has Position, Destination and Turn and AP left. */
  datatype Outcome =
    | NotReady
    | Waited
    | Stepped(to: Cell)
    | BumpedInto(bumpee: int)
    | Blocked
    | Walked(to: Cell)
    | NoPath

  /** The panics: the asserts on the bump scan and on the path, and the store's own failures. */
  datatype Panic = BumpedItself | TrivialPath | StepNotAdjacent | Store(reason: Failure)

  /** The branch the system takes for an entity at `pos` heading for `dest`. */
  function Decide(e: int, pos: Cell, dest: Cell, m: Map): (r: Result<Outcome, Panic>)
    ensures r == Ok(Waited) <==> pos == dest
    ensures r.Ok? && r.value.Stepped? ==> r.value.to == dest && Distance(pos, dest) == 1 && m.IsWalkable(dest)
    ensures Distance(pos, dest) == 1 && m.IsWalkable(dest) ==> r == Ok(Stepped(dest))
    ensures r.Ok? && (r.value.BumpedInto? || r.value.Blocked?) ==> Distance(pos, dest) == 1 && !m.IsWalkable(dest)
    ensures r.Ok? && r.value.BumpedInto? ==> (r.value.bumpee, Walkability.Solid) in m.EntitiesOnPos(dest)
    ensures r == Ok(Blocked) ==> forall k :: 0 <= k < |m.EntitiesOnPos(dest)| ==> m.EntitiesOnPos(dest)[k].1 == Walkable
    ensures r.Ok? && r.value.Walked? ==> Distance(pos, dest) > 1 && Distance(pos, r.value.to) == 1 && m.FindPath(pos, dest).Some?
    ensures r == Ok(NoPath) <==> Distance(pos, dest) > 1 && m.FindPath(pos, dest).None?
    ensures r != Ok(NotReady)
  {
    if pos == dest then Ok(Waited)
    else if Distance(pos, dest) == 1 then
      if m.IsWalkable(dest) then Ok(Stepped(dest))
      else match FirstSolid(m.EntitiesOnPos(dest), e)
        case Err(_) => Err(BumpedItself)
        case Ok(None) => Ok(Blocked)
        case Ok(Some(b)) =>
          assert exists k :: 0 <= k < |m.EntitiesOnPos(dest)| && m.EntitiesOnPos(dest)[k] == (b, Walkability.Solid);
          Ok(BumpedInto(b))
    else match m.FindPath(pos, dest)
      case None => Ok(NoPath)
      case Some(path) =>
        if |path| <= 1 then Err(TrivialPath)
        else if Distance(pos, path[0]) != 1 then Err(StepNotAdjacent)
        else Ok(Walked(path[0]))
  }

  predicate Ready(en: Entity)
  {
    tPosition in en && tDestination in en && tTurn in en && en[tTurn].Turn? && en[tTurn].ap > 0
  }

  /** The AP an outcome costs: one for every branch but the bump and the blocked cell. */
  function Cost(o: Outcome): (n: nat)
    ensures n <= 1
  {
    if o.BumpedInto? || o.Blocked? || o.NotReady? then 0 else 1
  }

  /** The entity with one AP of its Turn spent. */
  function Spend1(en: Entity): (r: Entity)
    requires Ready(en)
    ensures tTurn in r && r[tTurn] == SpendAp(en[tTurn], 1)
  {
    en[tTurn := SpendAp(en[tTurn], 1)]
  }

  /** The entity after an outcome. */
  function Apply(en: Entity, o: Outcome): Entity
    requires Ready(en)
  {
    match o
    case NotReady => en
    case Waited => Spend1(en) - {tDestination}
    case Stepped(to) => Spend1(en)[tPosition := Position(to.0, to.1)] - {tDestination}
    case BumpedInto(b) => en[tBump := Bump(b)] - {tDestination}
    case Blocked => en
    case Walked(to) => Spend1(en)[tPosition := Position(to.0, to.1)]
    case NoPath => Spend1(en) - {tDestination}
  }

  /** The branches that neither move the entity nor touch the map: wait, bump, blocked and no path. */
  method Stay(ecm: ComponentManager, e: int, o: Outcome)
    requires ecm.Valid() && ecm.HasEntity(e) && Ready(ecm.entities[e - ecm.initialId])
    requires o.Waited? || o.BumpedInto? || o.Blocked? || o.NoPath?
    modifies ecm
    ensures ecm.Valid() && ecm.initialId == old(ecm.initialId) && ecm.nextId == old(ecm.nextId)
    ensures ecm.entities == old(ecm.entities)[e - ecm.initialId := Apply(old(ecm.entities[e - ecm.initialId]), o)]
    ensures ecm.positionCache == old(ecm.positionCache)
  {
    var en := ecm.entities[e - ecm.initialId];
    match o
    case Waited =>
      SetAndDrop(ecm, e, SpendAp(en[tTurn], 1));
      ApplySpends(en, o);
    case BumpedInto(b) =>
      SetAndDrop(ecm, e, Bump(b));
      ApplyBumps(en, b);
    case Blocked =>
    case NoPath =>
      SetAndDrop(ecm, e, SpendAp(en[tTurn], 1));
      ApplySpends(en, o);
  }

  /** Waiting and finding no path spend an AP and drop the Destination. */
  lemma ApplySpends(en: Entity, o: Outcome)
    requires Ready(en) && (o.Waited? || o.NoPath?)
    ensures var c := SpendAp(en[tTurn], 1); Apply(en, o) == en[TypeOf(c) := c] - {tDestination}
  {
  }

  /** A bump records the bumpee and drops the Destination, at no AP. */
  lemma ApplyBumps(en: Entity, b: int)
    requires Ready(en)
    ensures Apply(en, BumpedInto(b)) == en[TypeOf(Bump(b)) := Bump(b)] - {tDestination}
  {
  }

  /** Store one component of a live entity and drop its Destination, as the waiting, bumping and pathless
      branches do. */
  method SetAndDrop(ecm: ComponentManager, e: int, c: Component)
    requires ecm.Valid() && ecm.HasEntity(e) && !c.Position?
    modifies ecm
    ensures ecm.Valid() && ecm.initialId == old(ecm.initialId) && ecm.nextId == old(ecm.nextId)
    ensures ecm.entities == old(ecm.entities)[e - ecm.initialId := old(ecm.entities[e - ecm.initialId])[TypeOf(c) := c] - {tDestination}]
    ensures ecm.positionCache == old(ecm.positionCache)
  {
    var s := ecm.SetComponent(e, c);
    s := ecm.RemoveComponent(e, tDestination);
  }

  /** The two branches that move the entity one cell: spend an AP, move it on the map, set its Position,
      and, when the cell was the destination itself, drop the Destination. */
  method Go(ecm: ComponentManager, m: Map, e: int, o: Outcome) returns (s: Status)
    requires ecm.Valid() && ecm.HasEntity(e) && Ready(ecm.entities[e - ecm.initialId])
    requires o.Stepped? || o.Walked?
    modifies ecm, m
    ensures ecm.Valid() && ecm.initialId == old(ecm.initialId) && ecm.nextId == old(ecm.nextId)
    ensures s.Success? ==>
      var en := old(ecm.entities[e - ecm.initialId]);
      ecm.entities == old(ecm.entities)[e - ecm.initialId := Apply(en, o)]
      && ecm.positionCache == Attach(Detached(old(ecm.positionCache), PositionKey(en), e), o.to, e)
      && m.calls == old(m.calls) + [MoveEntity(e, PositionKey(en).value, o.to)]
    ensures s.Failed? ==> s.reason == CacheMissing(e)
  {
    var i := e - ecm.initialId;
    var en := ecm.entities[i];
    var pos := PositionKey(en).value;
    s := ecm.SetComponent(e, SpendAp(en[tTurn], 1));
    m.Move(e, pos, o.to);
    ghost var spent := ecm.entities[i];
    assert PositionKey(spent) == PositionKey(en);
    s := Relocate(ecm, e, o.to, o.Stepped?);
    if s.Success? {
      assert ecm.entities == old(ecm.entities)[i := Apply(en, o)];
    }
  }

  /** Set the entity's Position to `to` and, when it has arrived, drop its Destination. */
  method Relocate(ecm: ComponentManager, e: int, to: Cell, arrived: bool) returns (s: Status)
    requires ecm.Valid() && ecm.HasEntity(e)
    modifies ecm
    ensures ecm.Valid() && ecm.initialId == old(ecm.initialId) && ecm.nextId == old(ecm.nextId)
    ensures s.Success? ==>
      var moved := old(ecm.entities[e - ecm.initialId])[tPosition := Position(to.0, to.1)];
      ecm.entities == old(ecm.entities)[e - ecm.initialId := if arrived then moved - {tDestination} else moved]
      && ecm.positionCache == Attach(Detached(old(ecm.positionCache), old(ecm.PositionOf(e)), e), to, e)
    ensures s.Failed? ==> s.reason == CacheMissing(e)
  {
    s := ecm.SetPosition(e, to.0, to.1);
    if s.Failed? {
      return;
    }
    if arrived {
      var _ := ecm.RemoveComponent(e, tDestination);
    }
  }

  method System(ecm: ComponentManager, m: Map, e: int) returns (r: Result<Outcome, Panic>)
    requires ecm.Valid()
    modifies ecm, m
    ensures ecm.Valid() && ecm.initialId == old(ecm.initialId) && ecm.nextId == old(ecm.nextId)
    ensures !(old(ecm.HasEntity(e)) && Ready(old(ecm.entities[e - ecm.initialId]))) ==>
      r == Ok(NotReady) && unchanged(ecm) && unchanged(m)
    ensures old(ecm.HasEntity(e)) && Ready(old(ecm.entities[e - ecm.initialId])) ==>
      var en := old(ecm.entities[e - ecm.initialId]);
      var pos := PositionKey(en).value;
      var d := Decide(e, pos, (en[tDestination].x, en[tDestination].y), m);
      (r.Ok? ==> r == d) && (d.Err? ==> r == d) && (r.Err? ==> r == d || r.error == Store(CacheMissing(e)))
      && (r.Ok? ==>
            ecm.entities == old(ecm.entities)[e - ecm.initialId := Apply(en, r.value)]
            && if r.value.Stepped? || r.value.Walked? then
                 ecm.positionCache == Attach(Detached(old(ecm.positionCache), Some(pos), e), r.value.to, e)
                 && m.calls == old(m.calls) + [MoveEntity(e, pos, r.value.to)]
               else
                 ecm.positionCache == old(ecm.positionCache) && m.calls == old(m.calls))
  {
    if !ecm.HasEntity(e) {
      return Ok(NotReady);
    }
    var en := ecm.entities[e - ecm.initialId];
    if !Ready(en) {
      return Ok(NotReady);
    }
    r := Decide(e, PositionKey(en).value, (en[tDestination].x, en[tDestination].y), m);
    if r.Err? {
      return;
    }
    if r.value.Stepped? || r.value.Walked? {
      var s := Go(ecm, m, e, r.value);
      if s.Failed? {
        r := Err(Store(s.reason));
      }
    } else {
      Stay(ecm, e, r.value);
    }
  }

  /** An outcome spends its cost from the Turn and keeps the Turn's side and maximum. */
  lemma ApplyTurn(en: Entity, o: Outcome)
    requires Ready(en)
    ensures var r := Apply(en, o);
      tTurn in r && r[tTurn].Turn? && r[tTurn].ap == en[tTurn].ap - Cost(o) >= 0
      && r[tTurn].side == en[tTurn].side && r[tTurn].maxAp == en[tTurn].maxAp
  {
  }

  /** The Destination survives only a path step, a blocked cell, or a call that did nothing. */
  lemma ApplyDestination(en: Entity, o: Outcome)
    requires Ready(en)
    ensures (tDestination in Apply(en, o)) <==> o.Walked? || o.Blocked? || o.NotReady?
  {
  }

  /** Only a step or a path step moves the entity, and then to the cell it went to. */
  lemma ApplyPosition(en: Entity, o: Outcome)
    requires Ready(en)
    ensures PositionKey(Apply(en, o)) == if o.Stepped? || o.Walked? then Some(o.to) else PositionKey(en)
  {
  }

  /** One call spends at most one AP, and exactly one unless it bumps or is blocked. */
  lemma {:induction false} AtMostOneAp(en: Entity, o: Outcome)
    requires Ready(en) && o != NotReady
    ensures en[tTurn].ap - 1 <= Apply(en, o)[tTurn].ap <= en[tTurn].ap
    ensures Apply(en, o)[tTurn].ap == en[tTurn].ap <==> o.BumpedInto? || o.Blocked?
  {
    ApplyTurn(en, o);
  }

  /** Moving keeps the store's position cache consistent when it was. */
  lemma MoveKeepsCacheConsistent(es: seq<Entity>, initialId: int, cache: Cache, e: int, en': Entity, to: Cell)
    requires Consistent(es, initialId, cache) && 0 <= e - initialId < |es|
    requires PositionKey(en') == Some(to)
    ensures Consistent(es[e - initialId := en'], initialId, Attach(Detached(cache, PositionIn(es, initialId, e), e), to, e))
  {
    var i := e - initialId;
    MoveKeepsConsistent(es, initialId, cache, e, to.0, to.1);
    var moved := es[i := es[i][tPosition := Position(to.0, to.1)]];
    assert forall id :: PositionIn(moved, initialId, id) == PositionIn(es[i := en'], initialId, id);
    SamePositions(moved, es[i := en'], initialId, Attach(Detached(cache, PositionIn(es, initialId, e), e), to, e));
  }
}
