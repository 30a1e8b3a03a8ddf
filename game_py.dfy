// The turn and status systems of the Python prototype, game.py. An entity is
// an object with one optional field per component these systems touch; a
// component that is only tested for presence is a flag. `random.choice` and
// `loc.available_destinations` come in as parameters.

module GamePy {
  import opened Base
  import opened Text
  import opened Commands

  /** The `Position` component of components.py, without its `floor`: no system of game.py reads or writes it. */
  datatype Pos = Pos(x: int, y: int)

  datatype TurnC = TurnC(actionPoints: int, maxAps: int, active: bool, count: int)

  datatype Addicted = Addicted(ratePerTurn: int, turnLastActivated: int, resistance: int)

  /** The two attributes these systems change; the others are not touched by them. */
  datatype Attributes = Attributes(stateOfMind: int, will: int)

  datatype KillCounter = KillCounter(anxieties: int, anxietyThreshold: int)

  datatype PyError = AttributeError | AssertionError | ZeroDivisionError

  class Entity {
    var turn: Option<TurnC>
    var position: Option<Pos>
    var moveDestination: Option<Pos>
    var stunEffect: Option<int>
    var panicEffect: Option<int>
    var addicted: Option<Addicted>
    var attributes: Option<Attributes>
    var killCounter: Option<KillCounter>
    var dead: Option<string>
    var userInput: bool
    var ai: bool
    var solid: bool
    var tile: bool

    constructor()
      ensures turn == None && position == None && moveDestination == None && stunEffect == None
      ensures panicEffect == None && addicted == None && attributes == None && killCounter == None
      ensures dead == None && !userInput && !ai && !solid && !tile
    {
      turn := None;
      position := None;
      moveDestination := None;
      stunEffect := None;
      panicEffect := None;
      addicted := None;
      attributes := None;
      killCounter := None;
      dead := None;
      userInput := false;
      ai := false;
      solid := false;
      tile := false;
    }
  }

  /** `has_free_aps`: a Turn with at least `required` action points (a missing Turn is falsy). */
  predicate HasFreeAps(t: Option<TurnC>, required: int)
  {
    t.Some? && t.value.actionPoints >= required
  }

  /** The pending commands and the replay log `save_for_replay` appends to. */
  class CommandQueue {
    var pending: seq<Command>
    var saved: seq<string>

    constructor(pending: seq<Command>)
      ensures this.pending == pending && saved == []
    {
      this.pending := pending;
      saved := [];
    }
  }

  /** `input_system`: with a command waiting and a Position, pops it, saves its name and heads one step that way. */
  method InputSystem(e: Entity, q: CommandQueue)
    modifies e`moveDestination, q
    ensures old(q.pending) == [] || e.position.None? ==>
      q.pending == old(q.pending) && q.saved == old(q.saved) && e.moveDestination == old(e.moveDestination)
    ensures old(q.pending) != [] && e.position.Some? ==>
      var cmd := old(q.pending[0]);
      q.pending == old(q.pending[1..]) && q.saved == old(q.saved) + [ToStr(cmd)]
      && e.moveDestination == Some(Pos(e.position.value.x + Offset(cmd).0, e.position.value.y + Offset(cmd).1))
  {
    if q.pending == [] {
      return;
    }
    if e.position.None? {
      return;
    }
    var pos := e.position.value;
    var cmd := q.pending[0];
    q.pending := q.pending[1..];
    q.saved := q.saved + [ToStr(cmd)];
    var (dx, dy) := Offset(cmd);
    if dx != 0 || dy != 0 {
      e.moveDestination := Some(Pos(pos.x + dx, pos.y + dy));
    }
  }

  /** `entity_spend_ap`: fails on an entity without a Turn. */
  method SpendAp(e: Entity, spent: int) returns (r: Result<(), PyError>)
    modifies e`turn
    ensures old(e.turn).None? <==> r == Err(AttributeError)
    ensures old(e.turn).None? ==> e.turn == None
    ensures old(e.turn).Some? ==> e.turn == Some(old(e.turn.value).(actionPoints := old(e.turn.value.actionPoints) - spent))
  {
    if e.turn.None? {
      return Err(AttributeError);
    }
    e.turn := Some(e.turn.value.(actionPoints := e.turn.value.actionPoints - spent));
    r := Ok(());
  }

  /** `stun_system`: a spent stun is removed; otherwise the entity is held in place and the stun counts down. */
  method StunSystem(e: Entity)
    modifies e`stunEffect, e`moveDestination
    ensures var runs := old(e.stunEffect).Some? && e.position.Some? && old(e.moveDestination).Some?;
      if !runs then e.stunEffect == old(e.stunEffect) && e.moveDestination == old(e.moveDestination)
      else if old(e.stunEffect.value) <= 0 then e.stunEffect == None && e.moveDestination == old(e.moveDestination)
      else e.stunEffect == Some(old(e.stunEffect.value) - 1) && e.moveDestination == e.position
  {
    if e.stunEffect.None? || e.position.None? || e.moveDestination.None? {
      return;
    }
    if e.stunEffect.value <= 0 {
      e.stunEffect := None;
    } else {
      e.moveDestination := e.position;
      e.stunEffect := Some(e.stunEffect.value - 1);
    }
  }

  /** `panic_system`: like the stun, but a panicking entity runs to `destinations[pick]` (the `random.choice`), or
      stays when no cell is free. */
  method PanicSystem(e: Entity, destinations: seq<Pos>, pick: nat)
    requires destinations != [] ==> pick < |destinations|
    modifies e`panicEffect, e`moveDestination
    ensures var runs := old(e.panicEffect).Some? && e.position.Some? && old(e.moveDestination).Some?;
      if !runs then e.panicEffect == old(e.panicEffect) && e.moveDestination == old(e.moveDestination)
      else if old(e.panicEffect.value) <= 0 then e.panicEffect == None && e.moveDestination == old(e.moveDestination)
      else e.panicEffect == Some(old(e.panicEffect.value) - 1)
           && e.moveDestination == Some(if destinations != [] then destinations[pick] else e.position.value)
  {
    if e.panicEffect.None? || e.position.None? || e.moveDestination.None? {
      return;
    }
    if e.panicEffect.value <= 0 {
      e.panicEffect := None;
    } else {
      var dest := if destinations != [] then destinations[pick] else e.position.value;
      e.moveDestination := Some(dest);
      e.panicEffect := Some(e.panicEffect.value - 1);
    }
  }

  /** `kill_entity`: no input, AI, solidity, tile or turn any more, and the death reason is recorded. */
  method KillEntity(e: Entity, reason: string)
    modifies e`userInput, e`ai, e`solid, e`tile, e`turn, e`dead
    ensures !e.userInput && !e.ai && !e.solid && !e.tile && e.turn == None && e.dead == Some(reason)
  {
    e.userInput := false;
    e.ai := false;
    e.solid := false;
    e.tile := false;
    e.turn := None;
    e.dead := Some(reason);
  }

  /** The state of mind after `dt` turns of withdrawal at `rate` per turn. */
  function Withdrawn(som: int, rate: int, dt: int): (s: int)
    requires dt > 0
    ensures rate >= 0 ==> s <= som
    ensures rate > 0 ==> s < som
  {
    som - rate * dt
  }

  /** `addiction_system`: the state of mind drops by the rate for every turn since the last activation; at 0 or
      below the entity dies of withdrawal, above 100 of an overdose. */
  method AddictionSystem(e: Entity)
    modifies e
    ensures var runs := old(e.addicted).Some? && old(e.attributes).Some? && old(e.turn).Some?
                        && old(e.turn.value.count) - old(e.addicted.value.turnLastActivated) > 0;
      if !runs then unchanged(e)
      else
        var a := old(e.addicted.value);
        var count := old(e.turn.value.count);
        var som := Withdrawn(old(e.attributes.value.stateOfMind), a.ratePerTurn, count - a.turnLastActivated);
        e.attributes == Some(old(e.attributes.value).(stateOfMind := som))
        && e.addicted == Some(a.(turnLastActivated := count))
        && e.dead == (if som <= 0 then Some("Withdrawal shock") else if som > 100 then Some("Overdosed") else old(e.dead))
        && (0 < som <= 100 ==> e.turn == old(e.turn) && e.ai == old(e.ai) && e.userInput == old(e.userInput))
        && (som <= 0 || som > 100 ==> e.turn == None && !e.ai && !e.userInput && !e.solid && !e.tile)
        && e.position == old(e.position) && e.killCounter == old(e.killCounter)
  {
    if e.addicted.None? || e.attributes.None? || e.turn.None? {
      return;
    }
    var a := e.addicted.value;
    var count := e.turn.value.count;
    var dt := count - a.turnLastActivated;
    if dt > 0 {
      var som := Withdrawn(e.attributes.value.stateOfMind, a.ratePerTurn, dt);
      e.attributes := Some(e.attributes.value.(stateOfMind := som));
      e.addicted := Some(a.(turnLastActivated := count));
      if som <= 0 {
        KillEntity(e, "Withdrawal shock");
      } else if som > 100 {
        KillEntity(e, "Overdosed");
      }
    }
  }

  /** The kill counter and will after converting anxiety kills: `threshold` kills buy one point of will. */
  function Converted(k: KillCounter, will: int): (r: (KillCounter, int))
    requires k.anxieties >= 0 && k.anxietyThreshold > 0
    ensures 0 <= r.0.anxieties < k.anxietyThreshold && r.0.anxietyThreshold == k.anxietyThreshold
    ensures r.1 >= will
    ensures r.0.anxieties + k.anxietyThreshold * r.1 == k.anxieties + k.anxietyThreshold * will
  {
    if k.anxieties >= k.anxietyThreshold then
      var increment := k.anxieties / k.anxietyThreshold;
      (k.(anxieties := k.anxieties - increment * k.anxietyThreshold), will + increment)
    else (k, will)
  }

  /** `will_system` as written: its asserts let a threshold of 0 through, and then `anxieties // 0` raises. */
  method WillSystemAsWritten(e: Entity) returns (r: Result<(), PyError>)
    modifies e`attributes, e`killCounter, e`addicted
    ensures old(e.addicted).Some? && old(e.attributes).Some? && old(e.killCounter).Some?
      && old(e.killCounter.value.anxieties) >= 0 && old(e.killCounter.value.anxietyThreshold) == 0
      ==> r == Err(ZeroDivisionError)
    ensures r.Ok? && old(e.addicted).Some? && old(e.attributes).Some? && old(e.killCounter).Some? ==>
      old(e.killCounter.value.anxieties) >= 0 && old(e.killCounter.value.anxietyThreshold) > 0
      && e.killCounter.Some? && e.attributes.Some?
      && (e.killCounter.value, e.attributes.value.will) == Converted(old(e.killCounter.value), old(e.attributes.value.will))
  {
    if e.addicted.None? || e.attributes.None? {
      return Ok(());
    }
    if e.killCounter.Some? {
      var k := e.killCounter.value;
      if k.anxieties < 0 || k.anxietyThreshold < 0 {
        return Err(AssertionError);
      }
      if k.anxieties >= k.anxietyThreshold {
        if k.anxietyThreshold == 0 {
          return Err(ZeroDivisionError);
        }
        var increment := k.anxieties / k.anxietyThreshold;
        e.attributes := Some(e.attributes.value.(will := e.attributes.value.will + increment));
        e.killCounter := Some(k.(anxieties := k.anxieties - increment * k.anxietyThreshold));
      }
    }
    e.addicted := Some(e.addicted.value.(resistance := Min(e.attributes.value.will, 2)));
    r := Ok(());
  }

  /** `will_system` with the evident check that the threshold is positive: anxiety kills are traded for will until
      fewer than a threshold's worth remain, and the resistance follows the will, capped at 2. */
  method WillSystem(e: Entity) returns (r: Result<(), PyError>)
    modifies e`attributes, e`killCounter, e`addicted
    ensures var runs := old(e.addicted).Some? && old(e.attributes).Some?;
      if !runs then r == Ok(()) && e.attributes == old(e.attributes) && e.killCounter == old(e.killCounter)
                    && e.addicted == old(e.addicted)
      else if old(e.killCounter).None? then
        r == Ok(()) && e.attributes == old(e.attributes) && e.killCounter == None
        && e.addicted == Some(old(e.addicted.value).(resistance := Min(old(e.attributes.value.will), 2)))
      else if old(e.killCounter.value.anxieties) < 0 || old(e.killCounter.value.anxietyThreshold) <= 0 then
        r == Err(AssertionError)
      else
        var c := Converted(old(e.killCounter.value), old(e.attributes.value.will));
        r == Ok(()) && e.killCounter == Some(c.0) && e.attributes == Some(old(e.attributes.value).(will := c.1))
        && e.addicted == Some(old(e.addicted.value).(resistance := Min(c.1, 2)))
  {
    if e.addicted.None? || e.attributes.None? {
      return Ok(());
    }
    if e.killCounter.Some? {
      var k := e.killCounter.value;
      if k.anxieties < 0 || k.anxietyThreshold <= 0 {
        return Err(AssertionError);
      }
      var c := Converted(k, e.attributes.value.will);
      e.attributes := Some(e.attributes.value.(will := c.1));
      e.killCounter := Some(c.0);
    }
    e.addicted := Some(e.addicted.value.(resistance := Min(e.attributes.value.will, 2)));
    r := Ok(());
  }

  /** A player with an anxiety threshold of 0 crashes the written `will_system` as soon as it runs. */
  method ZeroThresholdCrashes() returns (r: Result<(), PyError>)
    ensures r == Err(ZeroDivisionError)
  {
    var e := new Entity();
    e.addicted := Some(Addicted(1, 0, 0));
    e.attributes := Some(Attributes(50, 0));
    e.killCounter := Some(KillCounter(0, 0));
    r := WillSystemAsWritten(e);
  }

  /** `entity_start_a_new_turn`: active again, with full action points. */
  method StartNewTurn(e: Entity) returns (r: Result<(), PyError>)
    modifies e`turn
    ensures old(e.turn).None? <==> r.Err?
    ensures old(e.turn).Some? ==> e.turn == Some(old(e.turn.value).(active := true, actionPoints := old(e.turn.value.maxAps)))
    ensures old(e.turn).None? ==> e.turn == None
  {
    if e.turn.None? {
      return Err(AttributeError);
    }
    e.turn := Some(e.turn.value.(active := true, actionPoints := e.turn.value.maxAps));
    r := Ok(());
  }

  /** The NPC side of the handover: every NPC starts a new turn. */
  method StartAll(npcs: seq<Entity>) returns (r: Result<(), PyError>)
    requires forall i, j :: 0 <= i < j < |npcs| ==> npcs[i] != npcs[j]
    modifies npcs`turn
    ensures r.Ok? <==> forall j :: 0 <= j < |npcs| ==> old(npcs[j].turn).Some?
    ensures r.Ok? ==> forall j :: 0 <= j < |npcs| ==>
      npcs[j].turn == Some(old(npcs[j].turn.value).(active := true, actionPoints := old(npcs[j].turn.value.maxAps)))
  {
    var k := 0;
    while k < |npcs|
      invariant 0 <= k <= |npcs|
      invariant forall j :: 0 <= j < k ==> old(npcs[j].turn).Some?
      invariant forall j :: 0 <= j < k ==>
        npcs[j].turn == Some(old(npcs[j].turn.value).(active := true, actionPoints := old(npcs[j].turn.value.maxAps)))
      invariant forall j :: k <= j < |npcs| ==> npcs[j].turn == old(npcs[j].turn)
    {
      r := StartNewTurn(npcs[k]);
      if r.Err? {
        return;
      }
      k := k + 1;
    }
    r := Ok(());
  }

  /** `end_of_turn_system`: one more turn counted, for an entity with a Turn. */
  method EndOfTurnSystem(e: Entity)
    modifies e`turn
    ensures e.turn == if old(e.turn).None? then None else Some(old(e.turn.value).(count := old(e.turn.value.count) + 1))
  {
    if e.turn.Some? {
      e.turn := Some(e.turn.value.(count := e.turn.value.count + 1));
    }
  }

  /** `end_of_turn_system` over the NPCs. */
  method EndAllTurns(npcs: seq<Entity>)
    requires forall i, j :: 0 <= i < j < |npcs| ==> npcs[i] != npcs[j]
    modifies npcs`turn
    ensures forall j :: 0 <= j < |npcs| ==> (npcs[j].turn.Some? <==> old(npcs[j].turn).Some?)
    ensures forall j :: 0 <= j < |npcs| && old(npcs[j].turn).Some? ==>
      npcs[j].turn == Some(old(npcs[j].turn.value).(count := old(npcs[j].turn.value.count) + 1))
  {
    var k := 0;
    while k < |npcs|
      invariant 0 <= k <= |npcs|
      invariant forall j :: 0 <= j < |npcs| ==> (npcs[j].turn.Some? <==> old(npcs[j].turn).Some?)
      invariant forall j :: 0 <= j < |npcs| && old(npcs[j].turn).Some? ==>
        npcs[j].turn == Some(old(npcs[j].turn.value).(count := old(npcs[j].turn.value.count) + (if j < k then 1 else 0)))
    {
      EndOfTurnSystem(npcs[k]);
      k := k + 1;
    }
  }

  /** The `_replace(active=False)` over the NPCs, which fails on the first without a Turn. */
  method DeactivateAll(npcs: seq<Entity>) returns (r: Result<(), PyError>)
    requires forall i, j :: 0 <= i < j < |npcs| ==> npcs[i] != npcs[j]
    modifies npcs`turn
    ensures r.Ok? <==> forall j :: 0 <= j < |npcs| ==> old(npcs[j].turn).Some?
    ensures r.Ok? ==> forall j :: 0 <= j < |npcs| ==> npcs[j].turn == Some(old(npcs[j].turn.value).(active := false))
  {
    var k := 0;
    while k < |npcs|
      invariant 0 <= k <= |npcs|
      invariant forall j :: 0 <= j < k ==> old(npcs[j].turn).Some? && npcs[j].turn == Some(old(npcs[j].turn.value).(active := false))
      invariant forall j :: k <= j < |npcs| ==> npcs[j].turn == old(npcs[j].turn)
    {
      var t := npcs[k].turn;
      if t.None? {
        return Err(AttributeError);
      }
      npcs[k].turn := Some(t.value.(active := false));
      k := k + 1;
    }
    r := Ok(());
  }

  /** Whether any entity holding a Turn is active with action points left: what the closing assert checks. */
  predicate SomeoneCanAct(holders: seq<Entity>)
    reads holders
  {
    exists j :: 0 <= j < |holders| && holders[j].turn.Some? && holders[j].turn.value.active
                && holders[j].turn.value.actionPoints > 0
  }

  /** The NPCs after the handover: every one of them had a Turn and starts a new one. */
  twostate predicate HandedOver(npcs: seq<Entity>)
    reads npcs
  {
    forall j :: 0 <= j < |npcs| ==>
      old(npcs[j].turn).Some?
      && npcs[j].turn == Some(old(npcs[j].turn.value).(active := true, actionPoints := old(npcs[j].turn.value.maxAps)))
  }

  /** The NPCs after a new round: every one of them had a Turn, counts one more turn and waits. */
  twostate predicate RoundClosed(npcs: seq<Entity>)
    reads npcs
  {
    forall j :: 0 <= j < |npcs| ==>
      old(npcs[j].turn).Some?
      && npcs[j].turn == Some(old(npcs[j].turn.value).(count := old(npcs[j].turn.value.count) + 1, active := false))
  }

  /** The handover: the player goes inactive and every NPC starts a new turn. */
  method HandOver(player: Entity, npcs: seq<Entity>) returns (r: Result<(), PyError>)
    requires forall i, j :: 0 <= i < j < |npcs| ==> npcs[i] != npcs[j]
    requires player !in npcs && player.turn.Some?
    modifies player`turn, npcs`turn
    ensures player.turn == Some(old(player.turn.value).(active := false))
    ensures r.Ok? <==> forall j :: 0 <= j < |npcs| ==> old(npcs[j].turn).Some?
    ensures r.Ok? ==> HandedOver(npcs)
  {
    player.turn := Some(player.turn.value.(active := false));
    r := StartAll(npcs);
  }

  /** The new round: all turn counts go up, the player starts a new turn and the NPCs wait. */
  method NewRound(player: Entity, npcs: seq<Entity>) returns (r: Result<(), PyError>)
    requires forall i, j :: 0 <= i < j < |npcs| ==> npcs[i] != npcs[j]
    requires player !in npcs && player.turn.Some?
    modifies player`turn, npcs`turn
    ensures r.Ok? <==> forall j :: 0 <= j < |npcs| ==> old(npcs[j].turn).Some?
    ensures player.turn == Some(old(player.turn.value).(count := old(player.turn.value.count) + 1, active := true,
                                                        actionPoints := old(player.turn.value.maxAps)))
    ensures r.Ok? ==> RoundClosed(npcs)
  {
    EndRound(player, npcs);
    r := BeginRound(player, npcs);
  }

  /** The first half of a new round: the player's and then every NPC's turn count goes up. */
  method EndRound(player: Entity, npcs: seq<Entity>)
    requires forall i, j :: 0 <= i < j < |npcs| ==> npcs[i] != npcs[j]
    requires player !in npcs && player.turn.Some?
    modifies player`turn, npcs`turn
    ensures player.turn == Some(old(player.turn.value).(count := old(player.turn.value.count) + 1))
    ensures forall j :: 0 <= j < |npcs| ==> (npcs[j].turn.Some? <==> old(npcs[j].turn).Some?)
    ensures forall j :: 0 <= j < |npcs| && old(npcs[j].turn).Some? ==>
      npcs[j].turn == Some(old(npcs[j].turn.value).(count := old(npcs[j].turn.value.count) + 1))
  {
    assert forall j :: 0 <= j < |npcs| ==> npcs[j] != player;
    EndOfTurnSystem(player);
    EndAllTurns(npcs);
  }

  /** The second half: the player starts a new turn and every NPC goes inactive. */
  method BeginRound(player: Entity, npcs: seq<Entity>) returns (r: Result<(), PyError>)
    requires forall i, j :: 0 <= i < j < |npcs| ==> npcs[i] != npcs[j]
    requires player !in npcs && player.turn.Some?
    modifies player`turn, npcs`turn
    ensures player.turn == Some(old(player.turn.value).(active := true, actionPoints := old(player.turn.value.maxAps)))
    ensures r.Ok? <==> forall j :: 0 <= j < |npcs| ==> old(npcs[j].turn).Some?
    ensures r.Ok? ==> forall j :: 0 <= j < |npcs| ==> npcs[j].turn == Some(old(npcs[j].turn.value).(active := false))
  {
    assert forall j :: 0 <= j < |npcs| ==> npcs[j] != player;
    var _ := StartNewTurn(player);
    r := DeactivateAll(npcs);
  }

  /** Whether an NPC has action points left. */
  method AnyFree(npcs: seq<Entity>) returns (b: bool)
    ensures b <==> exists j :: 0 <= j < |npcs| && HasFreeAps(npcs[j].turn, 1)
  {
    b := false;
    var k := 0;
    while k < |npcs|
      invariant 0 <= k <= |npcs|
      invariant b <==> exists j :: 0 <= j < k && HasFreeAps(npcs[j].turn, 1)
    {
      b := b || HasFreeAps(npcs[k].turn, 1);
      k := k + 1;
    }
  }

  /** The closing assert's scan. */
  method CanAnyoneAct(holders: seq<Entity>) returns (b: bool)
    ensures b == SomeoneCanAct(holders)
  {
    b := false;
    var i := 0;
    while i < |holders|
      invariant 0 <= i <= |holders|
      invariant b <==> exists j :: 0 <= j < i && holders[j].turn.Some? && holders[j].turn.value.active
                                     && holders[j].turn.value.actionPoints > 0
    {
      b := b || (holders[i].turn.Some? && holders[i].turn.value.active && holders[i].turn.value.actionPoints > 0);
      i := i + 1;
    }
  }

  /** Some NPC among the Turn holders would have action points after a new turn. */
  predicate SomeNpcCanTakeOver(npcs: seq<Entity>, holders: seq<Entity>)
    reads npcs
  {
    exists j :: 0 <= j < |npcs| && npcs[j] in holders && npcs[j].turn.Some? && npcs[j].turn.value.maxAps > 0
  }

  /** The turn switching of `process_entities`. An active player out of AP hands over: it goes inactive and the NPCs
      start a new turn. When the player was already inactive (the check reads the turn fetched at the start) and no
      NPC has AP, a new round begins: turn counts go up, the player starts anew and the NPCs go inactive. Then the
      source asserts that some entity of `ecm.entities(Turn)`, here `holders`, can act. */
  method SwitchTurns(player: Entity, npcs: seq<Entity>, holders: seq<Entity>) returns (r: Result<(), PyError>)
    requires forall i, j :: 0 <= i < j < |npcs| ==> npcs[i] != npcs[j]
    requires player !in npcs
    modifies player`turn, npcs`turn
    ensures old(player.dead).Some? ==>
      r == Ok(()) && player.turn == old(player.turn) && forall j :: 0 <= j < |npcs| ==> npcs[j].turn == old(npcs[j].turn)
    ensures old(player.dead).None? && old(player.turn).None? ==> r == Err(AttributeError)
    ensures r.Ok? && old(player.dead).None? ==> old(player.turn).Some? && SomeoneCanAct(holders)
    ensures r.Ok? && old(player.dead).None? && old(player.turn).Some? && old(player.turn.value.active)
            && !HasFreeAps(old(player.turn), 1) ==>
      player.turn == Some(old(player.turn.value).(active := false)) && HandedOver(npcs)
    ensures r.Ok? && old(player.dead).None? && old(player.turn).Some? && !old(player.turn.value.active)
            && (forall j :: 0 <= j < |npcs| ==> !HasFreeAps(old(npcs[j].turn), 1)) ==>
      player.turn == Some(old(player.turn.value).(count := old(player.turn.value.count) + 1, active := true,
                                                  actionPoints := old(player.turn.value.maxAps)))
      && RoundClosed(npcs)
    ensures r.Ok? && old(player.dead).None? && old(player.turn).Some?
            && !(old(player.turn.value.active) && !HasFreeAps(old(player.turn), 1))
            && (!old(player.turn.value.active) ==> exists j :: 0 <= j < |npcs| && HasFreeAps(old(npcs[j].turn), 1)) ==>
      player.turn == old(player.turn) && forall j :: 0 <= j < |npcs| ==> npcs[j].turn == old(npcs[j].turn)
    ensures old(player.dead).None? && old(player.turn).Some? && old(player.turn.value.active)
            && !HasFreeAps(old(player.turn), 1) && (forall j :: 0 <= j < |npcs| ==> old(npcs[j].turn).Some?)
            && old(SomeNpcCanTakeOver(npcs, holders)) ==>
      r.Ok?
  {
    if player.dead.Some? {
      return Ok(());
    }
    if player.turn.None? {
      return Err(AttributeError);
    }
    ghost var handsOver := player.turn.value.active && !HasFreeAps(player.turn, 1);
    ghost var j: int := 0;
    if SomeNpcCanTakeOver(npcs, holders) {
      j :| 0 <= j < |npcs| && npcs[j] in holders && npcs[j].turn.Some? && npcs[j].turn.value.maxAps > 0;
    }
    r := PassTurns(player, npcs);
    if r.Err? {
      return;
    }
    if handsOver && old(SomeNpcCanTakeOver(npcs, holders)) {
      var k :| 0 <= k < |holders| && holders[k] == npcs[j];
      assert holders[k].turn.Some? && holders[k].turn.value.active && holders[k].turn.value.actionPoints > 0;
    }
    var ok := CanAnyoneAct(holders);
    if !ok {
      return Err(AssertionError);
    }
    r := Ok(());
  }

  /** The two turn switches of `process_entities`, both decided on the player's turn as it was fetched. */
  method PassTurns(player: Entity, npcs: seq<Entity>) returns (r: Result<(), PyError>)
    requires forall i, j :: 0 <= i < j < |npcs| ==> npcs[i] != npcs[j]
    requires player !in npcs && player.turn.Some?
    modifies player`turn, npcs`turn
    ensures old(player.turn.value.active) && !HasFreeAps(old(player.turn), 1) ==>
      (r.Ok? <==> forall j :: 0 <= j < |npcs| ==> old(npcs[j].turn).Some?)
      && player.turn == Some(old(player.turn.value).(active := false)) && (r.Ok? ==> HandedOver(npcs))
    ensures !old(player.turn.value.active) && (forall j :: 0 <= j < |npcs| ==> !HasFreeAps(old(npcs[j].turn), 1)) ==>
      (r.Ok? <==> forall j :: 0 <= j < |npcs| ==> old(npcs[j].turn).Some?)
      && player.turn == Some(old(player.turn.value).(count := old(player.turn.value.count) + 1, active := true,
                                                     actionPoints := old(player.turn.value.maxAps)))
      && (r.Ok? ==> RoundClosed(npcs))
    ensures !(old(player.turn.value.active) && !HasFreeAps(old(player.turn), 1))
            && (!old(player.turn.value.active) ==> exists j :: 0 <= j < |npcs| && HasFreeAps(old(npcs[j].turn), 1)) ==>
      r.Ok? && player.turn == old(player.turn) && forall j :: 0 <= j < |npcs| ==> npcs[j].turn == old(npcs[j].turn)
  {
    var playerTurn := player.turn.value;
    r := Ok(());
    if playerTurn.active && !HasFreeAps(player.turn, 1) {
      r := HandOver(player, npcs);
    } else if !playerTurn.active {
      var anyFree := AnyFree(npcs);
      if !anyFree {
        r := NewRound(player, npcs);
      }
    }
  }

  // ------------------------------------------------------------------ replays

  datatype Replay = Replay(seed: int, commands: seq<Command>)

  /** `exit(1)` on an empty file or a non-numeric first line; the failed seed assert; `Commands[name]`'s KeyError. */
  datatype ReplayError = EmptyReplay | SeedNotANumber | SeedOutOfRange(seed: int) | UnknownCommand(name: string)

  /** The stripped lines `readlines` gives. */
  function StrippedLines(text: string): (ls: seq<string>)
    ensures |ls| == |Lines(text)| && forall i :: 0 <= i < |ls| ==> ls[i] == Strip(Lines(text)[i])
  {
    seq(|Lines(text)|, i requires 0 <= i < |Lines(text)| => Strip(Lines(text)[i]))
  }

  /** The replay the stripped lines describe: a seed in 1..999999, then one command per line. */
  function ReplayOfLines(lines: seq<string>): (r: Result<Replay, ReplayError>)
    ensures r.Ok? ==> 1 <= r.value.seed <= 999999 && |r.value.commands| + 1 == |lines|
    ensures r.Ok? ==> ParseInt(lines[0]) == Some(r.value.seed)
  {
    if lines == [] then Err(EmptyReplay)
    else match ParseInt(lines[0])
      case None => Err(SeedNotANumber)
      case Some(seed) =>
        if !(1 <= seed <= 999999) then Err(SeedOutOfRange(seed))
        else match ParseCommands(lines[1..])
          case Err(name) => Err(UnknownCommand(name))
          case Ok(cs) => Ok(Replay(seed, cs))
  }

  /** What `load_replay` reads from a replay file's text. */
  function ReplayOf(text: string): (r: Result<Replay, ReplayError>)
    ensures text == "" ==> r == Err(EmptyReplay)
    ensures r.Ok? ==> 1 <= r.value.seed <= 999999 && |r.value.commands| + 1 == |Lines(text)|
  {
    ReplayOfLines(StrippedLines(text))
  }

  /** `load_replay`: strips the lines, reads the seed, then queues the commands one by one. */
  method LoadReplay(text: string) returns (r: Result<Replay, ReplayError>)
    ensures r == ReplayOf(text)
  {
    var lines := StrippedLines(text);
    r := ReadLines(lines);
  }

  /** The body of `load_replay` once the lines are read. */
  method ReadLines(lines: seq<string>) returns (r: Result<Replay, ReplayError>)
    ensures r == ReplayOfLines(lines)
  {
    if lines == [] {
      return Err(EmptyReplay);
    }
    var seed := ParseInt(lines[0]);
    if seed.None? {
      return Err(SeedNotANumber);
    }
    if !(1 <= seed.value <= 999999) {
      return Err(SeedOutOfRange(seed.value));
    }
    var cs := ParseAll(lines[1..]);
    if cs.Err? {
      return Err(UnknownCommand(cs.error));
    }
    r := Ok(Replay(seed.value, cs.value));
  }

  /** Python 2's `int()` lets whitespace follow the sign, so a file whose first line is "+ 5" replays with seed 5. */
  lemma SpacedSeedLoads()
    ensures ReplayOf("+ 5\n") == Ok(Replay(5, []))
  {
    SpacedSeedLine();
    SpacedSeedRead();
  }

  lemma SpacedSeedLine()
    ensures StrippedLines("+ 5\n") == ["+ 5"]
  {
    SplitAfterPiece("+ 5", '\n', "");
    assert "+ 5" + ['\n'] + "" == "+ 5\n";
    var ls := Lines("+ 5\n");
    assert ls == ["+ 5"];
    SpacedSeedStripped();
    assert StrippedLines("+ 5\n")[0] == Strip(ls[0]);
  }

  lemma SpacedSeedStripped()
    ensures Strip("+ 5") == "+ 5"
  {
    var s := "+ 5";
    assert !IsPyWhitespace(s[0]) && !IsPyWhitespace(s[|s| - 1]);
    assert StripLeft(s) == s;
    assert StripRight(s) == s;
  }

  lemma SpacedSeedRead()
    ensures ReplayOfLines(["+ 5"]) == Ok(Replay(5, []))
  {
    var ls: seq<string> := ["+ 5"];
    SignedWithSpace();
    assert ParseInt(ls[0]) == Some(5) && ls[1..] == [];
    assert ParseCommands([]) == Ok([]);
  }

  /** The file `new_game` and `save_for_replay` write: the seed, then the command names. */
  function ReplayText(seed: nat, cmds: seq<Command>): string
  {
    Unlines(ReplayLines(seed, cmds))
  }

  /** A replay file written by a game is read back as the same seed and commands. */
  lemma ReplayRoundTrip(seed: nat, cmds: seq<Command>)
    requires 1 <= seed <= 999999
    ensures ReplayOf(ReplayText(seed, cmds)) == Ok(Replay(seed, cmds))
  {
    WrittenLinesAreClean(seed, cmds);
    StrippedUnlines(ReplayLines(seed, cmds));
    ReadBack(seed, cmds);
  }

  lemma ReadBack(seed: nat, cmds: seq<Command>)
    requires 1 <= seed <= 999999
    ensures ReplayOfLines(ReplayLines(seed, cmds)) == Ok(Replay(seed, cmds))
  {
    var ls := ReplayLines(seed, cmds);
    ParseIntToString(seed);
    assert ls[0] == NatToString(seed) && ls[1..] == Names(cmds);
    ParseCommandsOfNames(cmds);
  }

  predicate Clean(l: string)
  {
    forall i :: 0 <= i < |l| ==> !IsPyWhitespace(l[i])
  }

  /** The lines a game writes hold no line break and no surrounding whitespace. */
  lemma WrittenLinesAreClean(seed: nat, cmds: seq<Command>)
    ensures forall i :: 0 <= i < |cmds| + 1 ==> Clean(ReplayLines(seed, cmds)[i])
  {
    var ls := ReplayLines(seed, cmds);
    forall i | 0 <= i < |ls|
      ensures Clean(ls[i])
    {
      if i == 0 {
        assert ls[0] == NatToString(seed) && AllDigits(ls[0]);
      } else {
        assert ls[i] == ToStr(cmds[i - 1]);
      }
    }
  }

  lemma CleanHasNoBreak(l: string)
    requires Clean(l)
    ensures '\n' !in l
  {
  }

  /** Stripping the lines of joined clean lines gives the lines back. */
  lemma StrippedUnlines(ls: seq<string>)
    requires forall i :: 0 <= i < |ls| ==> Clean(ls[i])
    ensures StrippedLines(Unlines(ls)) == ls
  {
    forall i | 0 <= i < |ls|
      ensures '\n' !in ls[i]
    {
      CleanHasNoBreak(ls[i]);
    }
    LinesUnlines(ls);
    var sl := StrippedLines(Unlines(ls));
    forall i | 0 <= i < |ls|
      ensures sl[i] == ls[i]
    {
      StripNoop(ls[i]);
    }
  }
}
