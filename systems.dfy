// The per-entity systems of src/systems.rs. Entities are GameObject records in
// an entity vector, addressed by id; the component set is the one of
// Components plus the `bump` and `attack` slots this generation adds.

module Systems {
  import opened Base
  import opened Commands
  import opened GridMap
  import C = Components

  type Point = (int, int)

  datatype Obj = Obj(
    ai: bool, acceptsUserInput: bool, background: bool,
    position: Option<Point>, destination: Option<Point>, path: Option<C.Path>,
    solid: bool, tile: Option<C.Tile>, turn: Option<C.Turn>,
    bump: Option<int>, attack: Option<int>)

  /** The panics of these systems. */
  datatype Panic = PlayerMissing(player: int) | EntityMissing(id: int) | BumpedItself(id: int)

  /** The entity vector; `get_ref` answers None outside it. */
  class Objects {
    var objs: seq<Obj>

    constructor(objs: seq<Obj>)
      ensures this.objs == objs
    {
      this.objs := objs;
    }

    function GetRef(id: int): (r: Option<Obj>)
      reads this
      ensures r.Some? <==> 0 <= id < |objs|
      ensures r.Some? ==> r.value == objs[id]
    {
      if 0 <= id < |objs| then Some(objs[id]) else None
    }
  }

  /** The command queue and the replay log the input system writes to. */
  class CommandQueue {
    var pending: seq<Command>
    var logged: seq<string>

    constructor(pending: seq<Command>)
      ensures this.pending == pending && logged == []
    {
      this.pending := pending;
      logged := [];
    }
  }

  function Other(side: C.Side): (r: C.Side)
    ensures r != side
  {
    match side
    case Player => C.Computer
    case Computer => C.Player
  }

  // ---------------------------------------------------------------- turn_system

  /** `turn_system` on one object: spent_this_turn is zeroed for a Turn of the current side. */
  function TurnReset(o: Obj, side: C.Side): (r: Obj)
    ensures r.turn.Some? <==> o.turn.Some?
    ensures r == o.(turn := r.turn)
    ensures o.turn.Some? ==>
      r.turn.value == (if o.turn.value.side == side then o.turn.value.(spentThisTurn := 0) else o.turn.value)
  {
    match o.turn
    case None => o
    case Some(t) => if t.side == side then o.(turn := Some(t.(spentThisTurn := 0))) else o
  }

  lemma TurnResetIdempotent(o: Obj, side: C.Side)
    ensures TurnReset(TurnReset(o, side), side) == TurnReset(o, side)
  {
  }

  method TurnSystem(w: Objects, id: int, side: C.Side)
    modifies w
    ensures w.GetRef(id).Some? == old(w.GetRef(id)).Some?
    ensures old(w.GetRef(id)).None? ==> w.objs == old(w.objs)
    ensures old(w.GetRef(id)).Some? ==> w.objs == old(w.objs)[id := TurnReset(old(w.objs[id]), side)]
  {
    if 0 <= id < |w.objs| {
      w.objs := w.objs[id := TurnReset(w.objs[id], side)];
    }
  }

  // --------------------------------------------------------------- input_system

  /** Whether `input_system` gets as far as popping a command for this object. */
  predicate TakesInput(o: Obj, side: C.Side)
  {
    o.acceptsUserInput && o.position.Some? && side == C.Player
  }

  /** The destination a command sets: the position plus the command's unit step. */
  function InputDestination(pos: Point, cmd: Command): (d: Point)
    ensures d.0 - pos.0 == Offset(cmd).0 && d.1 - pos.1 == Offset(cmd).1
    ensures d != pos
  {
    (pos.0 + Offset(cmd).0, pos.1 + Offset(cmd).1)
  }

  method InputSystem(w: Objects, q: CommandQueue, id: int, side: C.Side)
    modifies w, q
    ensures var acts := old(w.GetRef(id)).Some? && TakesInput(old(w.objs[id]), side) && old(q.pending) != [];
      if !acts then w.objs == old(w.objs) && q.pending == old(q.pending) && q.logged == old(q.logged)
      else
        var o := old(w.objs[id]);
        var cmd := old(q.pending[0]);
        q.pending == old(q.pending[1..]) && q.logged == old(q.logged) + [ToStr(cmd)]
        && w.objs == old(w.objs)[id := o.(destination := Some(InputDestination(o.position.value, cmd)))]
  {
    if w.GetRef(id).None? {
      return;
    }
    var o := w.objs[id];
    if !o.acceptsUserInput || o.position.None? || side != C.Player {
      return;
    }
    if q.pending == [] {
      return;
    }
    var cmd := q.pending[0];
    q.pending := q.pending[1..];
    q.logged := q.logged + [ToStr(cmd)];
    w.objs := w.objs[id := o.(destination := Some(InputDestination(o.position.value, cmd)))];
  }

  /** The log the input system writes parses back to the commands it popped, in order. */
  lemma {:induction false} LoggedCommandsParse(cmds: seq<Command>)
    ensures forall i :: 0 <= i < |cmds| ==> FromStr(seq(|cmds|, j requires 0 <= j < |cmds| => ToStr(cmds[j]))[i]) == Some(cmds[i])
  {
    forall i | 0 <= i < |cmds|
      ensures FromStr(seq(|cmds|, j requires 0 <= j < |cmds| => ToStr(cmds[j]))[i]) == Some(cmds[i])
    {
      FromStrToStr(cmds[i], ToStr(cmds[i]));
    }
  }

  // ------------------------------------------------------------------ ai_system

  /** `ai_system` on one object, with the random command as a parameter: an AI on the Computer's side heads one step that way. */
  function AiStep(o: Obj, side: C.Side, cmd: Command): (r: Obj)
    ensures r.destination != o.destination ==> o.ai && o.position.Some? && side == C.Computer
    ensures o.ai && o.position.Some? && side == C.Computer ==>
      r == o.(destination := Some(InputDestination(o.position.value, cmd)))
    ensures !(o.ai && o.position.Some? && side == C.Computer) ==> r == o
  {
    if o.ai && o.position.Some? && side == C.Computer then
      o.(destination := Some(InputDestination(o.position.value, cmd)))
    else o
  }

  // ---------------------------------------------------------------- path_system

  /** `path_system` on one object: with a Position, a set destination is replaced by the path to it, and the destination is always dropped. */
  function PathStep(o: Obj, m: Map): (r: Obj)
    ensures o.position.None? ==> r == o
    ensures o.position.Some? ==> r.destination == None
    ensures o.position.Some? && o.destination.Some? ==> r.path == m.FindPath(o.position.value, o.destination.value)
    ensures o.destination.None? ==> r.path == o.path
    ensures r == o.(destination := r.destination, path := r.path)
  {
    if o.position.None? then o
    else match o.destination
      case Some(dest) => o.(path := m.FindPath(o.position.value, dest), destination := None)
      case None => o.(destination := None)
  }

  method PathSystem(w: Objects, m: Map, id: int)
    modifies w
    ensures old(w.GetRef(id)).None? ==> w.objs == old(w.objs)
    ensures old(w.GetRef(id)).Some? ==> w.objs == old(w.objs)[id := PathStep(old(w.objs[id]), m)]
  {
    if 0 <= id < |w.objs| {
      w.objs := w.objs[id := PathStep(w.objs[id], m)];
    }
  }

  // ------------------------------------------------------------ movement_system

  /** Whether `movement_system` reaches `path.walk()`. */
  predicate CanWalk(o: Obj)
  {
    o.position.Some? && o.path.Some? && o.turn.Some? && o.turn.value.ap > 0
  }

  method MovementSystem(w: Objects, m: Map, id: int) returns (r: Result<(), Panic>)
    modifies w, m
    ensures |w.objs| == old(|w.objs|)
    ensures r.Err? ==> r.error == BumpedItself(id)
    ensures !(old(w.GetRef(id)).Some? && CanWalk(old(w.objs[id])) && old(w.objs[id].path.value) != []) ==>
      r.Ok? && w.objs == old(w.objs) && m.calls == old(m.calls)
    ensures old(w.GetRef(id)).Some? && CanWalk(old(w.objs[id])) && old(w.objs[id].path.value) != [] ==>
      var o := old(w.objs[id]);
      var step := o.path.value[0];
      var walked := o.(path := Some(o.path.value[1..]));
      if m.IsWalkable(step) then
        r.Ok? && m.calls == old(m.calls) + [MoveEntity(id, o.position.value, step)]
        && w.objs == old(w.objs)[id := walked.(turn := Some(C.Spent(o.turn.value, 1)), position := Some(step))]
      else
        m.calls == old(m.calls)
        && match FirstSolid(m.EntitiesOnPos(step), id)
           case Err(_) => r.Err?
           case Ok(None) => r.Ok? && w.objs == old(w.objs)[id := walked]
           case Ok(Some(b)) => r.Ok? && w.objs == old(w.objs)[id := walked.(bump := Some(b))]
  {
    r := Ok(());
    if w.GetRef(id).None? {
      return;
    }
    var o := w.objs[id];
    if o.position.None? || o.path.None? || o.turn.None? || o.turn.value.ap <= 0 {
      return;
    }
    if o.path.value == [] {
      return;
    }
    var step := o.path.value[0];
    o := o.(path := Some(o.path.value[1..]));
    if m.IsWalkable(step) {
      var t := C.Spent(o.turn.value, 1);
      m.Move(id, o.position.value, step);
      w.objs := w.objs[id := o.(turn := Some(t), position := Some(step))];
    } else {
      var found := ScanForSolid(m.EntitiesOnPos(step), id);
      match found
      case Err(_) =>
        return Err(BumpedItself(id));
      case Ok(None) =>
        w.objs := w.objs[id := o];
      case Ok(Some(b)) =>
        w.objs := w.objs[id := o.(bump := Some(b))];
    }
  }

  // ---------------------------------------------------------------- bump_system

  /** `bump_system` on the bumper, given the bumpee's Turn: an attack only across sides; the bump is always cleared. */
  function BumpStep(e: Obj, bumpee: int, bumpeeTurn: Option<C.Turn>): (r: Obj)
    ensures r.bump == None
    ensures r.attack == (if bumpeeTurn.Some? && e.turn.Some? && bumpeeTurn.value.side != e.turn.value.side
                         then Some(bumpee) else e.attack)
    ensures r == e.(bump := None, attack := r.attack)
  {
    if bumpeeTurn.Some? && e.turn.Some? && bumpeeTurn.value.side != e.turn.value.side
    then e.(attack := Some(bumpee), bump := None)
    else e.(bump := None)
  }

  method BumpSystem(w: Objects, id: int) returns (r: Result<(), Panic>)
    modifies w
    ensures old(w.GetRef(id)).None? ==> r == Err(EntityMissing(id)) && w.objs == old(w.objs)
    ensures old(w.GetRef(id)).Some? && old(w.objs[id].bump).None? ==> r.Ok? && w.objs == old(w.objs)
    ensures old(w.GetRef(id)).Some? && old(w.objs[id].bump).Some? ==>
      var b := old(w.objs[id].bump.value);
      if old(w.GetRef(b)).None? then r == Err(EntityMissing(b)) && w.objs == old(w.objs)
      else r.Ok? && w.objs == old(w.objs)[id := BumpStep(old(w.objs[id]), b, old(w.objs[b].turn))]
  {
    var e := w.GetRef(id);
    if e.None? {
      return Err(EntityMissing(id));
    }
    if e.value.bump.None? {
      return Ok(());
    }
    var b := e.value.bump.value;
    var bumpee := w.GetRef(b);
    if bumpee.None? {
      return Err(EntityMissing(b));
    }
    w.objs := w.objs[id := BumpStep(e.value, b, bumpee.value.turn)];
    r := Ok(());
  }

  // -------------------------------------------------------------- combat_system

  /** The attacker after a successful attack: one AP spent, the attack dropped. */
  function Attacked(a: Obj): (r: Obj)
    requires a.turn.Some? && a.turn.value.ap > 0
    ensures r.turn == Some(C.Spent(a.turn.value, 1)) && r.attack == None
    ensures r == a.(turn := r.turn, attack := None)
  {
    a.(turn := Some(C.Spent(a.turn.value, 1)), attack := None)
  }

  /** The target after a successful attack: no AI, Position, input or Turn left. */
  function Killed(t: Obj): (r: Obj)
    ensures !r.ai && r.position == None && !r.acceptsUserInput && r.turn == None
    ensures r == t.(ai := false, position := None, acceptsUserInput := false, turn := None)
  {
    t.(ai := false, position := None, acceptsUserInput := false, turn := None)
  }

  /** A killed object stays killed, and no system can make it act again without a Turn. */
  lemma KilledIdempotent(t: Obj)
    ensures Killed(Killed(t)) == Killed(t)
    ensures !CanWalk(Killed(t))
  {
  }

  method CombatSystem(w: Objects, m: Map, id: int)
    modifies w, m
    ensures |w.objs| == old(|w.objs|)
    ensures var attacks := old(w.GetRef(id)).Some? && old(w.objs[id].attack).Some?
                           && old(w.objs[id].turn).Some? && old(w.objs[id].turn.value.ap) > 0
                           && old(w.GetRef(w.objs[id].attack.value)).Some?;
      if !attacks then w.objs == old(w.objs) && m.calls == old(m.calls)
      else
        var target := old(w.objs[id].attack.value);
        var afterAttacker := old(w.objs)[id := Attacked(old(w.objs[id]))];
        w.objs == afterAttacker[target := Killed(afterAttacker[target])]
        && m.calls == old(m.calls) + (match afterAttacker[target].position
                                       case None => []
                                       case Some(p) => [RemoveEntity(target, p)])
  {
    var e := w.GetRef(id);
    if e.None? || e.value.attack.None? {
      return;
    }
    var freeAps := if e.value.turn.Some? then e.value.turn.value.ap else 0;
    var target := e.value.attack.value;
    if w.GetRef(target).None? || freeAps <= 0 {
      return;
    }
    w.objs := w.objs[id := Attacked(e.value)];
    var t := w.objs[target];
    if t.position.Some? {
      m.Remove(target, t.position.value);
    }
    w.objs := w.objs[target := Killed(t)];
  }

  // ------------------------------------------------------------- idle_ai_system

  /** `idle_ai_system`: exactly one AP is spent iff the object is an unspent AI of the Computer's side with AP left. */
  function IdleStep(o: Obj, side: C.Side): (r: Obj)
    ensures var idles := o.turn.Some? && o.ai && side == C.Computer && o.turn.value.side == side
                         && o.turn.value.spentThisTurn == 0 && o.turn.value.ap > 0;
      (idles ==> r == o.(turn := Some(C.Spent(o.turn.value, 1)))) && (!idles ==> r == o)
  {
    if o.turn.Some? && o.ai && side == C.Computer && o.turn.value.side == side
       && o.turn.value.spentThisTurn == 0 && o.turn.value.ap > 0
    then o.(turn := Some(C.Spent(o.turn.value, 1)))
    else o
  }

  /** After idling once the object has spent an AP, so a second pass leaves it alone. */
  lemma IdleOnce(o: Obj, side: C.Side)
    ensures IdleStep(IdleStep(o, side), side) == IdleStep(o, side)
  {
  }

  method IdleAiSystem(w: Objects, id: int, side: C.Side)
    modifies w
    ensures old(w.GetRef(id)).None? ==> w.objs == old(w.objs)
    ensures old(w.GetRef(id)).Some? ==> w.objs == old(w.objs)[id := IdleStep(old(w.objs[id]), side)]
  {
    if 0 <= id < |w.objs| {
      w.objs := w.objs[id := IdleStep(w.objs[id], side)];
    }
  }

  // --------------------------------------------------------- end_of_turn_system

  /** The `all` closure: an object without a Turn, of the other side, or out of AP does not hold the turn. */
  predicate Done(o: Obj, side: C.Side)
  {
    match o.turn
    case None => true
    case Some(t) => side != t.side || t.ap == 0
  }

  predicate TurnOver(objs: seq<Obj>, side: C.Side)
  {
    forall i :: 0 <= i < |objs| ==> Done(objs[i], side)
  }

  /** The refill after a flip: a Turn of the new side gets its full AP back and nothing spent. */
  function Refill(o: Obj, side: C.Side): (r: Obj)
    ensures r.turn.Some? <==> o.turn.Some?
    ensures r == o.(turn := r.turn)
    ensures o.turn.Some? && o.turn.value.side == side ==>
      r.turn.value == o.turn.value.(ap := o.turn.value.maxAp, spentThisTurn := 0)
    ensures o.turn.Some? && o.turn.value.side != side ==> r == o
  {
    match o.turn
    case None => o
    case Some(t) => if t.side == side then o.(turn := Some(t.(ap := t.maxAp, spentThisTurn := 0))) else o
  }

  method EndOfTurnSystem(w: Objects, side: C.Side) returns (newSide: C.Side)
    modifies w
    ensures |w.objs| == old(|w.objs|)
    ensures newSide == if TurnOver(old(w.objs), side) then Other(side) else side
    ensures !TurnOver(old(w.objs), side) ==> w.objs == old(w.objs)
    ensures TurnOver(old(w.objs), side) ==> forall i :: 0 <= i < |w.objs| ==> w.objs[i] == Refill(old(w.objs[i]), newSide)
  {
    var over := true;
    var i := 0;
    while i < |w.objs|
      invariant 0 <= i <= |w.objs|
      invariant over <==> forall j :: 0 <= j < i ==> Done(w.objs[j], side)
    {
      over := over && Done(w.objs[i], side);
      i := i + 1;
    }
    if !over {
      return side;
    }
    newSide := Other(side);
    i := 0;
    while i < |w.objs|
      invariant 0 <= i <= |w.objs| && |w.objs| == old(|w.objs|)
      invariant forall j :: 0 <= j < i ==> w.objs[j] == Refill(old(w.objs[j]), newSide)
      invariant forall j :: i <= j < |w.objs| ==> w.objs[j] == old(w.objs[j])
    {
      w.objs := w.objs[i := Refill(w.objs[i], newSide)];
      i := i + 1;
    }
  }

  /** After a flip caused by the other side running dry, the new side holds the turn again unless it has no AP at all. */
  lemma {:induction false} RefilledSideHasTurn(objs: seq<Obj>, side: C.Side, i: nat)
    requires i < |objs| && objs[i].turn.Some? && objs[i].turn.value.side == Other(side) && objs[i].turn.value.maxAp > 0
    ensures !Done(Refill(objs[i], Other(side)), Other(side))
  {
    var r := Refill(objs[i], Other(side));
    assert r.turn.value.ap == objs[i].turn.value.maxAp;
  }

  // --------------------------------------------------------- player_dead_system

  /** `player_dead_system`: a missing player is a panic; a player without Position or Turn disables the object's AI. */
  method PlayerDeadSystem(w: Objects, id: int, player: int) returns (r: Result<(), Panic>)
    modifies w
    ensures old(w.GetRef(player)).None? <==> r.Err?
    ensures r.Err? ==> r.error == PlayerMissing(player) && w.objs == old(w.objs)
    ensures r.Ok? ==>
      var dead := old(w.objs[player].position).None? || old(w.objs[player].turn).None?;
      if dead && old(w.GetRef(id)).Some? then w.objs == old(w.objs)[id := old(w.objs[id]).(ai := false)]
      else w.objs == old(w.objs)
  {
    var p := w.GetRef(player);
    if p.None? {
      return Err(PlayerMissing(player));
    }
    r := Ok(());
    if p.value.position.None? || p.value.turn.None? {
      if 0 <= id < |w.objs| {
        w.objs := w.objs[id := w.objs[id].(ai := false)];
      }
    }
  }
}
