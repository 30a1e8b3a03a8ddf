/**
 * The fade-out system of src/systems/fade_out.rs: once an entity that is
 * fading out has no colour animation left, its Tile and its FadingOut
 * marker are removed, so it is no longer drawn.
 */
module FadeOut {
  import opened Base
  import opened ComponentKinds
  import Ecm

  /** The entity after one step of the system. */
  function FadeStep(e: Entity): (r: Entity)
    ensures tColorAnimation in e ==> r == e
    ensures tColorAnimation !in e ==> tTile !in r && tFadingOut !in r
    ensures forall t :: t != tTile && t != tFadingOut ==> (t in r <==> t in e) && (t in r ==> r[t] == e[t])
  {
    if tColorAnimation in e then e else e - {tTile, tFadingOut}
  }

  /** A finished fade is final: running the system again changes nothing. */
  lemma FadeStepIdempotent(e: Entity)
    ensures FadeStep(FadeStep(e)) == FadeStep(e)
  {
  }

  /** `process_entity`, run on every entity with FadingOut and Tile. */
  method ProcessEntity(ecm: Ecm.ECM, e: int)
    requires ecm.Valid() && e in ecm.store && tFadingOut in ecm.store[e] && tTile in ecm.store[e]
    modifies ecm
    ensures ecm.Valid()
    ensures ecm.store == old(ecm.store)[e := FadeStep(old(ecm.store)[e])]
    ensures ecm.positionCache == old(ecm.positionCache) && ecm.issued == old(ecm.issued)
  {
    ghost var s0, c0 := ecm.store, ecm.positionCache;
    var animating := ecm.Has(e, tColorAnimation);
    if !animating.value {
      var s := ecm.Remove(e, tTile);
      assert s.Success? && ecm.positionCache == c0;
      ghost var s1 := ecm.store;
      assert s1 == s0[e := s0[e] - {tTile}];
      s := ecm.Remove(e, tFadingOut);
      assert s.Success? && ecm.positionCache == c0;
      assert ecm.store == s1[e := s1[e] - {tFadingOut}];
      assert s1[e] - {tFadingOut} == s0[e] - {tTile, tFadingOut};
    } else {
      assert s0[e := s0[e]] == s0;
    }
  }
}
