// The monster AI of the Python prototype, systems/ai.py. An entity is an
// object with one optional field per component the AI touches. The location
// queries (`loc.distance`, `loc.neighbor_pos`, `loc.available_destinations`,
// `loc.blocked_tile`, `loc.entities_nearby`), `random.choice` and the libtcod
// pathfinder are not part of this model: their answers are parameters, and the
// path ids handed to `path.destroy` are logged.

module PyAi {
  import opened Base

  datatype Pos = Pos(x: int, y: int, floor: int)

  /** The AI component: its behaviour map key and its state string. */
  datatype AiComp = AiComp(kind: string, state: string)

  datatype MonsterComp = MonsterComp(kind: string, strength: int)

  /** `AssertionError` for an unknown state, `KeyError` for an unknown AI kind, `AttributeError` for a hunter
      without a Monster component. */
  datatype PyError = AssertionError | KeyError | AttributeError

  class PyEntity {
    var ai: Option<AiComp>
    var position: Option<Pos>
    var movePath: Option<int>
    var attacking: Option<PyEntity>
    var moveDestination: Option<Pos>
    var monster: Option<MonsterComp>

    constructor(ai: Option<AiComp>, position: Option<Pos>, monster: Option<MonsterComp>)
      ensures this.ai == ai && this.position == position && this.monster == monster
      ensures movePath == None && attacking == None && moveDestination == None
    {
      this.ai := ai;
      this.position := position;
      this.monster := monster;
      movePath := None;
      attacking := None;
      moveDestination := None;
    }
  }

  /** The paths the pathfinder holds; `destroy` records the id it frees. */
  class PathStore {
    var destroyed: seq<int>

    constructor()
      ensures destroyed == []
    {
      destroyed := [];
    }

    method Destroy(id: int)
      modifies this
      ensures destroyed == old(destroyed) + [id]
    {
      destroyed := destroyed + [id];
    }
  }

  /** `find_player_callback`: the player's cell always costs 1 so that it stays reachable; other blocked cells
      cost 0 (impassable) and free cells 1. */
  function PathCost(to: (int, int), player: Pos, blocked: bool): (c: real)
    ensures c == 0.0 <==> blocked && to != (player.x, player.y)
    ensures c == 0.0 || c == 1.0
  {
    if to == (player.x, player.y) then 1.0
    else if blocked then 0.0
    else 1.0
  }

  /** `follow_player`: next to the player the player's cell is the destination and the path is dropped (without
      being destroyed); farther away the old path is destroyed and replaced by the one found, if any, and there
      is no destination. The player becomes the attack target either way. */
  method FollowPlayer(e: PyEntity, player: PyEntity, playerPos: Pos, adjacent: bool, found: Option<int>,
                      paths: PathStore) returns (dest: Option<Pos>)
    modifies e`movePath, e`attacking, paths
    ensures e.attacking == Some(player)
    ensures adjacent ==> dest == Some(playerPos) && e.movePath == None && paths.destroyed == old(paths.destroyed)
    ensures !adjacent ==> dest == None && e.movePath == found
    ensures !adjacent ==>
      paths.destroyed == old(paths.destroyed) + (if old(e.movePath).Some? then [old(e.movePath).value] else [])
  {
    if adjacent {
      dest := Some(playerPos);
      e.movePath := None;
    } else {
      if e.movePath.Some? {
        paths.Destroy(e.movePath.value);
        e.movePath := None;
      }
      if found.Some? {
        e.movePath := found;
      }
      dest := None;
    }
    e.attacking := Some(player);
  }

  /** The state update of `individual_behaviour`: aggressive closer than 5, idle farther than 8, unchanged between. */
  function IndividualState(state: string, distance: int): (s: string)
    ensures distance < 5 ==> s == "aggressive"
    ensures distance > 8 ==> s == "idle"
    ensures 5 <= distance <= 8 ==> s == state
  {
    if distance < 5 then "aggressive"
    else if distance > 8 then "idle"
    else state
  }

  /** The state update of `hunting_pack_behaviour`: aggressive closer than 4, and nothing ever turns it idle again. */
  function PackState(state: string, distance: int): (s: string)
    ensures distance < 4 ==> s == "aggressive"
    ensures distance >= 4 ==> s == state
    ensures state == "aggressive" ==> s == "aggressive"
  {
    if distance < 4 then "aggressive" else state
  }

  /** Between 5 and 8 tiles an individual keeps whatever state it had: the two thresholds form a hysteresis band. */
  lemma {:induction false} IndividualHysteresis(state: string, d1: int, d2: int)
    requires d1 < 5 && 5 <= d2 <= 8
    ensures IndividualState(IndividualState(state, d1), d2) == "aggressive"
    ensures IndividualState(IndividualState(state, 9), d2) == "idle"
  {
    assert IndividualState(state, d1) == "aggressive";
    assert IndividualState(state, 9) == "idle";
  }

  /** `individual_behaviour`: with no free destination nothing is chosen; an aggressive monster follows the player;
      an idle one drops its path and takes `destinations[pick]` (the `random.choice`). */
  method IndividualBehaviour(e: PyEntity, player: PyEntity, playerPos: Pos, distance: int, destinations: seq<Pos>,
                             pick: nat, adjacent: bool, found: Option<int>, paths: PathStore)
    returns (r: Result<Option<Pos>, PyError>)
    requires e.ai.Some?
    requires destinations != [] ==> pick < |destinations|
    modifies e`ai, e`movePath, e`attacking, paths
    ensures e.ai == Some(old(e.ai.value).(state := IndividualState(old(e.ai.value.state), distance)))
    ensures var s := e.ai.value.state;
      if destinations == [] then
        r == Ok(None) && e.movePath == old(e.movePath) && e.attacking == old(e.attacking) && paths.destroyed == old(paths.destroyed)
      else if s == "aggressive" then
        e.attacking == Some(player) && (adjacent ==> r == Ok(Some(playerPos))) && (!adjacent ==> r == Ok(None))
      else if s == "idle" then
        r == Ok(Some(destinations[pick])) && e.movePath == None && e.attacking == old(e.attacking)
        && paths.destroyed == old(paths.destroyed) + (if old(e.movePath).Some? then [old(e.movePath).value] else [])
      else
        r == Err(AssertionError)
  {
    e.ai := Some(e.ai.value.(state := IndividualState(e.ai.value.state, distance)));
    if destinations == [] {
      return Ok(None);
    }
    var s := e.ai.value.state;
    if s == "aggressive" {
      var dest := FollowPlayer(e, player, playerPos, adjacent, found, paths);
      r := Ok(dest);
    } else if s == "idle" {
      if e.movePath.Some? {
        paths.Destroy(e.movePath.value);
      }
      e.movePath := None;
      r := Ok(Some(destinations[pick]));
    } else {
      r := Err(AssertionError);
    }
  }

  /** The `kindred_monster` filter: an AI monster of the given kind. */
  predicate Kindred(ai: Option<AiComp>, monster: Option<MonsterComp>, kind: string)
  {
    ai.Some? && monster.Some? && monster.value.kind == kind
  }

  /** The alarm of an aggressive hunter: every kindred monster among `nearby` turns aggressive. */
  method Alarm(nearby: seq<PyEntity>, kind: string)
    requires forall i, j :: 0 <= i < j < |nearby| ==> nearby[i] != nearby[j]
    modifies nearby`ai
    ensures forall j :: 0 <= j < |nearby| ==>
      nearby[j].ai == (if Kindred(old(nearby[j].ai), nearby[j].monster, kind)
                       then Some(old(nearby[j].ai).value.(state := "aggressive")) else old(nearby[j].ai))
  {
    var k := 0;
    while k < |nearby|
      invariant 0 <= k <= |nearby|
      invariant forall j :: 0 <= j < k ==>
        nearby[j].ai == (if Kindred(old(nearby[j].ai), nearby[j].monster, kind)
                         then Some(old(nearby[j].ai).value.(state := "aggressive")) else old(nearby[j].ai))
      invariant forall j :: k <= j < |nearby| ==> nearby[j].ai == old(nearby[j].ai)
    {
      var h := nearby[k];
      if Kindred(h.ai, h.monster, kind) {
        h.ai := Some(h.ai.value.(state := "aggressive"));
      }
      k := k + 1;
    }
  }

  /** `hunting_pack_behaviour`: an idle hunter wanders to `destinations[pick]`; an aggressive one follows the player
      and raises the alarm among the kindred monsters within 8 tiles (`nearby`). */
  method HuntingPackBehaviour(e: PyEntity, player: PyEntity, playerPos: Pos, distance: int, destinations: seq<Pos>,
                              pick: nat, adjacent: bool, found: Option<int>, paths: PathStore, nearby: seq<PyEntity>)
    returns (r: Result<Option<Pos>, PyError>)
    requires e.ai.Some?
    requires destinations != [] ==> pick < |destinations|
    requires forall i, j :: 0 <= i < j < |nearby| ==> nearby[i] != nearby[j]
    modifies e`ai, e`movePath, e`attacking, paths, nearby`ai
    ensures e.ai == Some(old(e.ai.value).(state := PackState(old(e.ai.value.state), distance)))
    ensures var s := e.ai.value.state;
      if destinations == [] then
        r == Ok(None) && e.movePath == old(e.movePath) && e.attacking == old(e.attacking)
        && forall j :: 0 <= j < |nearby| && nearby[j] != e ==> nearby[j].ai == old(nearby[j].ai)
      else if s == "idle" then
        r == Ok(Some(destinations[pick])) && e.movePath == old(e.movePath) && e.attacking == old(e.attacking)
        && forall j :: 0 <= j < |nearby| && nearby[j] != e ==> nearby[j].ai == old(nearby[j].ai)
      else if s == "aggressive" then
        if e.monster.None? then r == Err(AttributeError)
        else
          e.attacking == Some(player) && (adjacent ==> r == Ok(Some(playerPos))) && (!adjacent ==> r == Ok(None))
          && forall j :: 0 <= j < |nearby| ==>
               nearby[j].ai == (if Kindred(old(nearby[j].ai), nearby[j].monster, e.monster.value.kind)
                                then Some(old(nearby[j].ai).value.(state := "aggressive")) else old(nearby[j].ai))
      else
        r == Err(AssertionError) && forall j :: 0 <= j < |nearby| && nearby[j] != e ==> nearby[j].ai == old(nearby[j].ai)
  {
    e.ai := Some(e.ai.value.(state := PackState(e.ai.value.state, distance)));
    if destinations == [] {
      return Ok(None);
    }
    var s := e.ai.value.state;
    if s == "idle" {
      r := Ok(Some(destinations[pick]));
    } else if s == "aggressive" {
      var dest := FollowPlayer(e, player, playerPos, adjacent, found, paths);
      if e.monster.None? {
        return Err(AttributeError);
      }
      Alarm(nearby, e.monster.value.kind);
      r := Ok(dest);
    } else {
      r := Err(AssertionError);
    }
  }

  /** `ai_system`: an entity with AI and Position runs the behaviour of its AI kind; the destination is the one the
      behaviour chose, or its own position when it chose none. */
  method AiSystem(e: PyEntity, player: PyEntity, playerPos: Pos, distance: int, destinations: seq<Pos>,
                  pick: nat, adjacent: bool, found: Option<int>, paths: PathStore, nearby: seq<PyEntity>)
    returns (r: Result<(), PyError>)
    requires destinations != [] ==> pick < |destinations|
    requires forall i, j :: 0 <= i < j < |nearby| ==> nearby[i] != nearby[j]
    modifies e`ai, e`movePath, e`attacking, e`moveDestination, paths, nearby`ai
    ensures old(e.ai).None? || old(e.position).None? ==> r == Ok(()) && unchanged(e) && unchanged(paths)
    ensures old(e.ai).Some? && old(e.position).Some? && old(e.ai.value.kind) != "individual" && old(e.ai.value.kind) != "pack"
      ==> r == Err(KeyError) && unchanged(e)
    ensures old(e.ai).Some? ==> e.ai.Some? && e.ai.value.kind == old(e.ai.value.kind)
    ensures r.Ok? && old(e.ai).Some? && old(e.position).Some? ==> e.moveDestination.Some?
    ensures r.Ok? && old(e.ai).Some? && old(e.position).Some? && destinations == [] ==> e.moveDestination == old(e.position)
    ensures r.Ok? && old(e.ai).Some? && old(e.position).Some? && destinations != [] && e.ai.value.state == "idle"
      ==> e.moveDestination == Some(destinations[pick])
  {
    if e.ai.None? || e.position.None? {
      return Ok(());
    }
    var pos := e.position.value;
    var dest: Result<Option<Pos>, PyError>;
    if e.ai.value.kind == "individual" {
      dest := IndividualBehaviour(e, player, playerPos, distance, destinations, pick, adjacent, found, paths);
    } else if e.ai.value.kind == "pack" {
      dest := HuntingPackBehaviour(e, player, playerPos, distance, destinations, pick, adjacent, found, paths, nearby);
    } else {
      return Err(KeyError);
    }
    match dest
    case Err(err) =>
      r := Err(err);
    case Ok(d) =>
      e.moveDestination := Some(if d.Some? then d.value else pos);
      r := Ok(());
  }
}
