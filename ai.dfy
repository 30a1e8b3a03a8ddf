// The monster AI of src/ai.rs. The random choices (`random_position_in_range`,
// `random_neighbour_position`), the floating-point "player is nearby" test and
// the `formula` constants come in as parameters; the world is the list of its
// monsters, each an object whose AI state the pack howl overwrites.

module Ai {
  import opened Base
  import opened Point

  datatype Behavior = LoneAttacker | PackAttacker | Friendly | Immobile

  datatype AiState = Idle | Chasing | CheckingOut(spot: Point) | NoOp

  /** What `attack_damage` returns for the actor; its contents are not part of this model. */
  datatype Modifier = Modifier(code: int)

  datatype Action = Move(to: Point) | Attack(target: Point, modifier: Modifier) | Eat

  /** The values an AI updates about itself before acting. */
  datatype Update = Update(aiState: AiState, maxAp: int)

  /** The acting monster, as the act functions read it. */
  datatype Actor = Actor(position: Point, aiState: AiState, behavior: Behavior, maxAp: int,
                         path: seq<Point>, accompanyingPlayer: bool, damage: Modifier)

  datatype PlayerInfo = PlayerInfo(pos: Point, maxAp: int, high: bool)

  /** The `formula` constants the AI uses. */
  datatype Tuning = Tuning(chasingDistance: int, howlingDistance: int, estrangedNpcMaxAp: int)

  /** `noop_action`: keep the state and the maximum AP, and stay in place. */
  function NoopAction(actor: Actor): (r: (Update, Action))
    ensures r.0.aiState == actor.aiState && r.0.maxAp == actor.maxAp
    ensures r.1 == Move(actor.position)
  {
    (Update(actor.aiState, actor.maxAp), Move(actor.position))
  }

  /** `chasing_action`: attack when the target is adjacent, otherwise head for it. */
  function ChasingAction(actor: Actor, target: Point): (a: Action)
    ensures a.Attack? <==> TileDistance(actor.position, target) == 1
    ensures a.Attack? ==> a == Attack(target, actor.damage)
    ensures a.Move? ==> a.to == target
  {
    if TileDistance(actor.position, target) == 1 then Attack(target, actor.damage) else Move(target)
  }

  /** `idle_destination`: the end of the current path; else the random cell 2..8 away (`rangePick`); else the random
      neighbour. */
  function IdleDestination(actor: Actor, rangePick: Option<Point>, neighbour: Point): (d: Point)
    ensures actor.path != [] ==> d == actor.path[|actor.path| - 1]
    ensures actor.path == [] && rangePick.Some? ==> d == rangePick.value
    ensures actor.path == [] && rangePick.None? ==> d == neighbour
  {
    if actor.path != [] then actor.path[|actor.path| - 1]
    else match rangePick
      case Some(p) => p
      case None => neighbour
  }

  /** The action for a state other than NoOp. */
  function StateAction(actor: Actor, state: AiState, player: Point, rangePick: Option<Point>, neighbour: Point): (a: Action)
    requires state != NoOp
    ensures state == Chasing ==> a == ChasingAction(actor, player)
    ensures state == Idle ==> a == Move(IdleDestination(actor, rangePick, neighbour))
    ensures state.CheckingOut? ==> a == Move(state.spot)
  {
    match state
    case Chasing => ChasingAction(actor, player)
    case Idle => Move(IdleDestination(actor, rangePick, neighbour))
    case CheckingOut(spot) => Move(spot)
  }

  /** `lone_attacker_act`: chase within the chasing distance, otherwise idle. */
  function LoneAttackerAct(actor: Actor, player: PlayerInfo, tuning: Tuning, rangePick: Option<Point>, neighbour: Point)
    : (r: (Update, Action))
    ensures actor.aiState == NoOp ==> r == NoopAction(actor)
    ensures actor.aiState != NoOp ==>
      var chasing := TileDistance(actor.position, player.pos) <= tuning.chasingDistance;
      r.0 == Update(if chasing then Chasing else Idle, actor.maxAp)
      && r.1 == (if chasing then ChasingAction(actor, player.pos) else Move(IdleDestination(actor, rangePick, neighbour)))
  {
    if actor.aiState == NoOp then NoopAction(actor)
    else
      var state := if TileDistance(actor.position, player.pos) <= tuning.chasingDistance then Chasing else Idle;
      (Update(state, actor.maxAp), StateAction(actor, state, player.pos, rangePick, neighbour))
  }

  /** The state `pack_attacker_act` moves to: Chasing in range; a chase that lost the player goes Idle; Idle and
      CheckingOut persist out of range. */
  function PackState(current: AiState, distance: int, tuning: Tuning): (s: AiState)
    requires current != NoOp
    ensures s != NoOp
    ensures s == Chasing <==> distance <= tuning.chasingDistance
    ensures distance > tuning.chasingDistance ==> s == (if current == Chasing then Idle else current)
  {
    if distance <= tuning.chasingDistance then Chasing
    else if current == Chasing then Idle
    else current
  }

  /** A pack monster that was sent to check a spot out keeps heading there until the player is in range. */
  lemma {:induction false} CheckingOutPersists(actor: Actor, spot: Point, player: Point, tuning: Tuning, rangePick: Option<Point>, neighbour: Point)
    requires actor.aiState == CheckingOut(spot) && TileDistance(actor.position, player) > tuning.chasingDistance
    ensures var s := PackState(actor.aiState, TileDistance(actor.position, player), tuning);
      s == CheckingOut(spot) && StateAction(actor, s, player, rangePick, neighbour) == Move(spot)
  {
    var s := PackState(actor.aiState, TileDistance(actor.position, player), tuning);
    assert s == CheckingOut(spot);
  }

  /** A monster of the world, as `world.monsters` and `world.monster_on_pos` hand it out. */
  class Creature {
    const position: Point
    const behavior: Behavior
    var aiState: AiState

    constructor(position: Point, behavior: Behavior, aiState: AiState)
      ensures this.position == position && this.behavior == behavior && this.aiState == aiState
    {
      this.position := position;
      this.behavior := behavior;
      this.aiState := aiState;
    }
  }

  /** The howling rectangle `Rectangle::center(pos, (h, h))`: every cell within `h` on both axes. */
  predicate InHowlingArea(p: Point, center: Point, h: int)
  {
    TileDistance(p, center) <= h
  }

  /** `monster_on_pos`: the first monster of the world standing at `p`. */
  function FirstAt(ms: seq<Creature>, p: Point): (r: Option<nat>)
    ensures r.Some? <==> exists j :: 0 <= j < |ms| && ms[j].position == p
    ensures r.Some? ==> r.value < |ms| && ms[r.value].position == p && forall j :: 0 <= j < r.value ==> ms[j].position != p
  {
    if ms == [] then None
    else if ms[0].position == p then Some(0)
    else match FirstAt(ms[1..], p)
      case None => None
      case Some(k) =>
        assert ms[1..][k] == ms[k + 1];
        Some(k + 1)
  }

  /** The positions the howl collects: pack attackers in the area, other than the howler's own cell. */
  function Howlees(ms: seq<Creature>, center: Point, h: int): (ps: seq<Point>)
    ensures forall p :: p in ps <==>
      exists j :: 0 <= j < |ms| && ms[j].position == p && ms[j].behavior == PackAttacker
                  && InHowlingArea(p, center, h) && p != center
  {
    if ms == [] then []
    else
      var rest := Howlees(ms[1..], center, h);
      assert forall j :: 1 <= j < |ms| ==> ms[1..][j - 1] == ms[j];
      if ms[0].behavior == PackAttacker && InHowlingArea(ms[0].position, center, h) && ms[0].position != center
      then [ms[0].position] + rest
      else rest
  }

  /** The howl of `pack_attacker_act`: the first monster at each collected position is sent to check out the
      player's position, whatever its state was. */
  method Howl(ms: seq<Creature>, center: Point, h: int, player: Point)
    requires forall i, j :: 0 <= i < j < |ms| ==> ms[i] != ms[j]
    modifies ms`aiState
    ensures forall j :: 0 <= j < |ms| ==>
      ms[j].aiState == (if ms[j].position in Howlees(ms, center, h) && FirstAt(ms, ms[j].position) == Some(j)
                        then CheckingOut(player) else old(ms[j].aiState))
  {
    var howlees := Howlees(ms, center, h);
    ghost var done: set<Point> := {};
    var k := 0;
    while k < |howlees|
      invariant 0 <= k <= |howlees|
      invariant forall p :: p in done <==> p in howlees[..k]
      invariant forall j :: 0 <= j < |ms| ==>
        ms[j].aiState == (if ms[j].position in done && FirstAt(ms, ms[j].position) == Some(j)
                          then CheckingOut(player) else old(ms[j].aiState))
    {
      var pos := howlees[k];
      var first := FirstAt(ms, pos);
      if first.Some? {
        ms[first.value].aiState := CheckingOut(player);
      }
      forall j | 0 <= j < |ms|
        ensures ms[j].aiState == (if ms[j].position in done + {pos} && FirstAt(ms, ms[j].position) == Some(j)
                                  then CheckingOut(player) else old(ms[j].aiState))
      {
        if first.Some? && j != first.value {
          assert ms[j] != ms[first.value];
        }
      }
      done := done + {pos};
      assert howlees[..k + 1] == howlees[..k] + [pos];
      k := k + 1;
    }
    assert howlees[..k] == howlees;
  }

  /** With one monster per cell, the howl reaches exactly the other pack attackers in the area. */
  lemma HowlReach(ms: seq<Creature>, center: Point, h: int, j: nat)
    requires forall a, b :: 0 <= a < b < |ms| ==> ms[a].position != ms[b].position
    requires j < |ms|
    ensures (ms[j].position in Howlees(ms, center, h) && FirstAt(ms, ms[j].position) == Some(j))
      <==> ms[j].behavior == PackAttacker && InHowlingArea(ms[j].position, center, h) && ms[j].position != center
  {
    var p := ms[j].position;
    var f := FirstAt(ms, p);
    assert f.Some?;
  }

  /** `pack_attacker_act`: the state follows PackState; a chasing pack monster howls before acting. The world's
      other monsters are `others` (the actor is not among them). */
  method PackAttackerAct(actor: Actor, player: PlayerInfo, tuning: Tuning, others: seq<Creature>,
                         rangePick: Option<Point>, neighbour: Point) returns (r: (Update, Action))
    requires forall i, j :: 0 <= i < j < |others| ==> others[i] != others[j]
    modifies others`aiState
    ensures actor.aiState == NoOp ==> r == NoopAction(actor) && forall j :: 0 <= j < |others| ==> others[j].aiState == old(others[j].aiState)
    ensures actor.aiState != NoOp ==>
      var s := PackState(actor.aiState, TileDistance(actor.position, player.pos), tuning);
      r == (Update(s, actor.maxAp), StateAction(actor, s, player.pos, rangePick, neighbour))
      && forall j :: 0 <= j < |others| ==>
           others[j].aiState == (if s == Chasing && others[j].position in Howlees(others, actor.position, tuning.howlingDistance)
                                    && FirstAt(others, others[j].position) == Some(j)
                                 then CheckingOut(player.pos) else old(others[j].aiState))
  {
    if actor.aiState == NoOp {
      return NoopAction(actor);
    }
    var s := PackState(actor.aiState, TileDistance(actor.position, player.pos), tuning);
    if s == Chasing {
      Howl(others, actor.position, tuning.howlingDistance, player.pos);
    }
    r := (Update(s, actor.maxAp), StateAction(actor, s, player.pos, rangePick, neighbour));
  }

  /** `friendly_act`, with the random cell near the player as `nearPlayer`, the float distance test as `nearby`: a
      friendly NPC never attacks, keeps its state, and when the player is high drops to the estranged AP maximum. */
  function FriendlyAct(actor: Actor, player: PlayerInfo, tuning: Tuning, nearby: bool, nearPlayer: Option<Point>,
                       rangePick: Option<Point>, neighbour: Point): (r: (Update, Action))
    ensures actor.aiState == NoOp ==> r == NoopAction(actor)
    ensures actor.aiState != NoOp ==>
      r.1.Move? && r.0 == Update(actor.aiState, if player.high then tuning.estrangedNpcMaxAp else player.maxAp)
    ensures actor.aiState != NoOp && actor.accompanyingPlayer ==>
      r.1.to == (if nearPlayer.Some? then nearPlayer.value else player.pos)
    ensures actor.aiState != NoOp && !actor.accompanyingPlayer && nearby && !player.high ==> r.1.to == actor.position
    ensures actor.aiState != NoOp && !actor.accompanyingPlayer && !(nearby && !player.high) ==>
      r.1.to == IdleDestination(actor, rangePick, neighbour)
  {
    if actor.aiState == NoOp then NoopAction(actor)
    else
      var destination :=
        if actor.accompanyingPlayer then (match nearPlayer case Some(p) => p case None => player.pos)
        else if nearby && !player.high then actor.position
        else IdleDestination(actor, rangePick, neighbour);
      var maxAp := if player.high then tuning.estrangedNpcMaxAp else player.maxAp;
      (Update(actor.aiState, maxAp), Move(destination))
  }

  /** `noop_act` */
  function NoopAct(actor: Actor): (r: (Update, Action))
    ensures r.1 == Move(actor.position) && r.0.aiState == actor.aiState
  {
    NoopAction(actor)
  }

  /** No AI kind attacks unless the player is adjacent. */
  lemma {:induction false} AttacksOnlyAdjacent(actor: Actor, player: PlayerInfo, tuning: Tuning, rangePick: Option<Point>, neighbour: Point)
    requires actor.aiState != NoOp
    ensures var s := PackState(actor.aiState, TileDistance(actor.position, player.pos), tuning);
      StateAction(actor, s, player.pos, rangePick, neighbour).Attack? ==> TileDistance(actor.position, player.pos) == 1
    ensures LoneAttackerAct(actor, player, tuning, rangePick, neighbour).1.Attack? ==> TileDistance(actor.position, player.pos) == 1
  {
    var s := PackState(actor.aiState, TileDistance(actor.position, player.pos), tuning);
    assert s != NoOp;
    if StateAction(actor, s, player.pos, rangePick, neighbour).Attack? {
      assert s == Chasing;
    }
  }
}
