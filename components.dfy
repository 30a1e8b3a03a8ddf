// The GameObject of src/components.rs: one optional slot per component kind.
// The unit-struct components (AI, AcceptsUserInput, Background, Solid) are
// presence flags.

module Components {
  import opened Base

  datatype Side = Player | Computer

  /** `Destination` has the same shape. */
  datatype Position = Position(x: int, y: int)

  datatype Color = Color(r: int, g: int, b: int)

  datatype Tile = Tile(level: nat, glyph: char, color: Color)

  datatype Turn = Turn(side: Side, ap: int, maxAp: int, spentThisTurn: int)

  /** A path is the sequence of steps still to walk. */
  type Path = seq<(int, int)>

  /** `spend_ap` on the Turn value: the AP move to `spent_this_turn`; side and maximum are kept. */
  function Spent(t: Turn, spend: int): (r: Turn)
    requires spend <= t.ap
    ensures r.side == t.side && r.maxAp == t.maxAp
    ensures r.ap >= 0 && r.ap + spend == t.ap
    ensures r.ap + r.spentThisTurn == t.ap + t.spentThisTurn
  {
    t.(ap := t.ap - spend, spentThisTurn := t.spentThisTurn + spend)
  }

  /** Two spends in a row are one spend of the sum. */
  lemma SpentTwice(t: Turn, a: int, b: int)
    requires a <= t.ap && b <= t.ap - a
    ensures Spent(Spent(t, a), b) == Spent(t, a + b)
  {
  }

  datatype Failure = NoTurn

  class GameObject {
    var ai: bool
    var acceptsUserInput: bool
    var background: bool
    var position: Option<Position>
    var destination: Option<Position>
    var path: Option<Path>
    var solid: bool
    var tile: Option<Tile>
    var turn: Option<Turn>

    /** `GameObject::new`: no component at all. */
    constructor()
      ensures !ai && !acceptsUserInput && !background && !solid
      ensures position == None && destination == None && path == None && tile == None && turn == None
    {
      ai := false;
      acceptsUserInput := false;
      background := false;
      position := None;
      destination := None;
      path := None;
      solid := false;
      tile := None;
      turn := None;
    }

    /** `spend_ap`: an object without a Turn is a failure; otherwise the Turn is spent (and the AP must suffice). */
    method SpendAp(spend: int) returns (s: Result<(), Failure>)
      requires turn.Some? ==> spend <= turn.value.ap
      modifies this`turn
      ensures old(turn).None? ==> s == Err(NoTurn) && turn == None
      ensures old(turn).Some? ==> s.Ok? && turn == Some(Spent(old(turn).value, spend))
    {
      match turn
      case None =>
        s := Err(NoTurn);
      case Some(t) =>
        turn := Some(Spent(t, spend));
        s := Ok(());
    }
  }
}
