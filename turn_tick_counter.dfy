/**
 * The turn tick counter system of src/systems/turn_tick_counter.rs: at the
 * start of a tick it clears `spent_this_tick` of every Turn on the side
 * whose tick it is.
 */
module TurnTickCounter {
  import opened Base
  import opened ComponentKinds
  import Ecm

  /** The Turn after the tick reset: cleared on the acting side, untouched otherwise. */
  function ResetTick(turn: Component, side: Side): (r: Component)
    requires turn.Turn?
    ensures r.Turn? && r.side == turn.side && r.ap == turn.ap && r.maxAp == turn.maxAp
    ensures r.spentThisTick == (if turn.side == side then 0 else turn.spentThisTick)
  {
    if turn.side == side then turn.(spentThisTick := 0) else turn
  }

  /** Resetting twice is resetting once. */
  lemma ResetTickIdempotent(turn: Component, side: Side)
    requires turn.Turn?
    ensures ResetTick(ResetTick(turn, side), side) == ResetTick(turn, side)
  {
  }

  /** The reset neither creates nor consumes action points. */
  lemma ResetTickKeepsAp(turn: Component, side: Side, spend: int)
    requires turn.Turn? && spend <= turn.ap
    ensures SpendAp(ResetTick(turn, side), spend).ap == SpendAp(turn, spend).ap
  {
  }

  /** `process_entity`, run on every entity that has a Turn. */
  method ProcessEntity(ecm: Ecm.ECM, e: int, side: Side)
    requires ecm.Valid() && e in ecm.store && tTurn in ecm.store[e]
    modifies ecm
    ensures ecm.Valid()
    ensures ecm.store == old(ecm.store)[e := old(ecm.store)[e][tTurn := ResetTick(old(ecm.store)[e][tTurn], side)]]
    ensures ecm.positionCache == old(ecm.positionCache) && ecm.issued == old(ecm.issued)
  {
    var turn := ecm.Get(e, tTurn).value;
    if turn.side == side {
      var reset := turn.(spentThisTick := 0);
      assert TypeOf(reset) == tTurn && reset == ResetTick(turn, side);
      var s := ecm.Set(e, reset);
    } else {
      assert old(ecm.store)[e][tTurn := turn] == old(ecm.store)[e];
    }
  }
}
