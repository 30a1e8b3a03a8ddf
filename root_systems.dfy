// The systems of the root systems.rs: each works on one Components.GameObject
// in place; the walkability map is the tcod map, a class here.

module RootSystems {
  import opened Base
  import opened Commands
  import opened Components

  /** The tcod field-of-view map: a width x height grid of (transparent, walkable) flags. */
  class TcodMap {
    const width: int
    const height: int
    var transparent: map<(int, int), bool>
    var walkable: map<(int, int), bool>

    constructor(width: int, height: int, walkable: map<(int, int), bool>)
      ensures this.width == width && this.height == height && this.walkable == walkable && transparent == map[]
    {
      this.width := width;
      this.height := height;
      this.walkable := walkable;
      transparent := map[];
    }

    predicate InBounds(x: int, y: int)
    {
      0 <= x < width && 0 <= y < height
    }

    /** `map_is_walkable` */
    predicate IsWalkable(x: int, y: int)
      reads this
    {
      (x, y) in walkable && walkable[(x, y)]
    }

    /** `map_set_properties`: overwrites the two flags of one cell. */
    method SetProperties(x: int, y: int, t: bool, w: bool)
      modifies this
      ensures transparent == old(transparent)[(x, y) := t] && walkable == old(walkable)[(x, y) := w]
    {
      transparent := transparent[(x, y) := t];
      walkable := walkable[(x, y) := w];
    }
  }

  /** The destination a command sets: the position plus the command's unit step. */
  function StepBy(p: Position, c: Command): (d: Position)
    ensures d.x - p.x == Offset(c).0 && d.y - p.y == Offset(c).1
  {
    Position(p.x + Offset(c).0, p.y + Offset(c).1)
  }

  /** `turn_system`: a Turn of the current side has its spent AP zeroed. */
  method TurnSystem(e: GameObject, side: Side)
    modifies e`turn
    ensures old(e.turn).None? ==> e.turn == None
    ensures old(e.turn).Some? ==>
      e.turn == Some(if old(e.turn.value.side) == side then old(e.turn.value).(spentThisTurn := 0) else old(e.turn.value))
  {
    match e.turn
    case None =>
    case Some(t) =>
      if t.side == side {
        e.turn := Some(t.(spentThisTurn := 0));
      }
  }

  /** The command queue and the replay log. */
  class CommandQueue {
    var pending: seq<Command>
    var logged: seq<string>

    constructor(pending: seq<Command>)
      ensures this.pending == pending && logged == []
    {
      this.pending := pending;
      logged := [];
    }
  }

  /** `input_system`: returns without popping unless the object takes input, has a Position, commands wait and it is the
      Player's side; then one command is popped, logged and turned into the destination. */
  method InputSystem(e: GameObject, q: CommandQueue, side: Side)
    modifies e`destination, q
    ensures var acts := e.acceptsUserInput && e.position.Some? && old(q.pending) != [] && side == Player;
      if !acts then e.destination == old(e.destination) && q.pending == old(q.pending) && q.logged == old(q.logged)
      else
        var cmd := old(q.pending[0]);
        q.pending == old(q.pending[1..]) && q.logged == old(q.logged) + [ToStr(cmd)]
        && e.destination == Some(StepBy(e.position.value, cmd))
  {
    if !e.acceptsUserInput || e.position.None? || q.pending == [] || side != Player {
      return;
    }
    var cmd := q.pending[0];
    q.pending := q.pending[1..];
    q.logged := q.logged + [ToStr(cmd)];
    e.destination := Some(StepBy(e.position.value, cmd));
  }

  /** `ai_system`, with the random command as a parameter: an AI on the Computer's side heads one step that way. */
  method AiSystem(e: GameObject, cmd: Command, side: Side)
    modifies e`destination
    ensures e.ai && e.position.Some? && side == Computer ==> e.destination == Some(StepBy(e.position.value, cmd))
    ensures !(e.ai && e.position.Some? && side == Computer) ==> e.destination == old(e.destination)
  {
    if e.ai && e.position.Some? && side == Computer {
      e.destination := Some(StepBy(e.position.value, cmd));
    }
  }

  /** `movement_system`. */
  method MovementSystem(e: GameObject, m: TcodMap)
    modifies e`turn, e`position, e`destination, m
    ensures var reaches := old(e.position).Some? && old(e.destination).Some? && old(e.turn).Some? && old(e.turn.value.ap) > 0;
      if !reaches then
        e.turn == old(e.turn) && e.position == old(e.position) && e.destination == old(e.destination) && unchanged(m)
      else
        var old_pos := old(e.position.value);
        var dest := old(e.destination.value);
        e.destination == None
        && if m.InBounds(dest.x, dest.y) && old(m.IsWalkable(dest.x, dest.y)) then
             e.turn == Some(Spent(old(e.turn.value), 1)) && e.position == Some(dest)
             && m.walkable == old(m.walkable)[(old_pos.x, old_pos.y) := true][(dest.x, dest.y) := !e.solid]
             && m.transparent == old(m.transparent)[(old_pos.x, old_pos.y) := true][(dest.x, dest.y) := true]
           else
             e.turn == old(e.turn) && e.position == old(e.position) && unchanged(m)
  {
    if e.position.None? || e.destination.None? || e.turn.None? {
      return;
    }
    if e.turn.value.ap <= 0 {
      return;
    }
    var old_pos := e.position.value;
    var dest := e.destination.value;
    if !m.InBounds(dest.x, dest.y) {
      // the edge of the screen
    } else if m.IsWalkable(dest.x, dest.y) {
      var _ := e.SpendAp(1);
      e.position := Some(dest);
      m.SetProperties(old_pos.x, old_pos.y, true, true);
      m.SetProperties(dest.x, dest.y, true, !e.solid);
    }
    e.destination := None;
  }

  /** `idle_ai_system`: one AP is spent exactly for an unspent AI of the Computer's side with AP left. */
  method IdleAiSystem(e: GameObject, side: Side)
    modifies e`turn
    ensures var idles := old(e.turn).Some? && e.ai && side == Computer && old(e.turn.value.side) == side
                         && old(e.turn.value.spentThisTurn) == 0 && old(e.turn.value.ap) > 0;
      (idles ==> e.turn == Some(Spent(old(e.turn.value), 1))) && (!idles ==> e.turn == old(e.turn))
  {
    if e.turn.None? || !e.ai || side != Computer {
      return;
    }
    var t := e.turn.value;
    if t.side == side && t.spentThisTurn == 0 && t.ap > 0 {
      var _ := e.SpendAp(1);
    }
  }

  /** The `all` closure of `end_of_turn_system`. */
  predicate Done(t: Option<Turn>, side: Side)
  {
    match t
    case None => true
    case Some(turn) => side != turn.side || turn.ap == 0
  }

  function Other(side: Side): (r: Side)
    ensures r != side
  {
    match side
    case Player => Computer
    case Computer => Player
  }

  /** A Turn after the flip to `side`: refilled if it belongs to that side. */
  function Refilled(t: Option<Turn>, side: Side): (r: Option<Turn>)
    ensures r.Some? <==> t.Some?
    ensures t.Some? && t.value.side == side ==> r == Some(t.value.(ap := t.value.maxAp, spentThisTurn := 0))
    ensures t.Some? && t.value.side != side ==> r == t
  {
    match t
    case None => None
    case Some(turn) => if turn.side == side then Some(turn.(ap := turn.maxAp, spentThisTurn := 0)) else t
  }

  /** `end_of_turn_system`: the side flips iff nobody of the current side holds AP; then the new side is refilled. */
  method EndOfTurnSystem(es: seq<GameObject>, side: Side) returns (newSide: Side)
    requires forall i, j :: 0 <= i < j < |es| ==> es[i] != es[j]
    modifies es`turn
    ensures var over := forall i :: 0 <= i < |es| ==> Done(old(es[i].turn), side);
      newSide == (if over then Other(side) else side)
      && forall i :: 0 <= i < |es| ==> es[i].turn == (if over then Refilled(old(es[i].turn), newSide) else old(es[i].turn))
  {
    var over := true;
    var i := 0;
    while i < |es|
      invariant 0 <= i <= |es|
      invariant over <==> forall j :: 0 <= j < i ==> Done(es[j].turn, side)
    {
      over := over && Done(es[i].turn, side);
      i := i + 1;
    }
    if !over {
      return side;
    }
    newSide := Other(side);
    i := 0;
    while i < |es|
      invariant 0 <= i <= |es|
      invariant forall j :: 0 <= j < i ==> es[j].turn == Refilled(old(es[j].turn), newSide)
      invariant forall j :: i <= j < |es| ==> es[j].turn == old(es[j].turn)
    {
      es[i].turn := Refilled(es[i].turn, newSide);
      i := i + 1;
    }
  }

  /** Refilling is idempotent: a second flip to the same side changes nothing more. */
  lemma RefilledIdempotent(t: Option<Turn>, side: Side)
    ensures Refilled(Refilled(t, side), side) == Refilled(t, side)
  {
  }

  /** After a flip every Turn of the new side holds its full AP again, so the new side holds the turn when its maximum is positive. */
  lemma RefilledHoldsTurn(t: Option<Turn>, side: Side)
    requires t.Some? && t.value.side == side && t.value.maxAp > 0
    ensures !Done(Refilled(t, side), side)
  {
  }
}
