// The random generator the map generators draw from, taken as the infinite
// stream of numbers it produces: every sample consumes the next number of the
// stream. `WeightedChoice` picks an item by a sampled weight below the total,
// here the drawn number modulo the total; `choose` picks a slice element by
// the drawn number modulo the slice length.

module Random {
  import opened Base

  class Rng {
    const stream: nat -> nat
    var used: nat

    constructor(stream: nat -> nat)
      ensures this.stream == stream && used == 0
    {
      this.stream := stream;
      used := 0;
    }

    /** The next number of the stream. */
    method Draw() returns (v: nat)
      modifies this`used
      ensures v == stream(old(used)) && used == old(used) + 1
    {
      v := stream(used);
      used := used + 1;
    }
  }

  datatype Weighted<T> = Weighted(weight: nat, item: T)

  function Total<T>(ws: seq<Weighted<T>>): nat
  {
    if ws == [] then 0 else ws[0].weight + Total(ws[1..])
  }

  /** The entry a sampled weight falls on: the first whose running total exceeds it, so never one of weight 0. */
  function Pick<T>(ws: seq<Weighted<T>>, v: nat): (i: nat)
    requires v < Total(ws)
    ensures i < |ws| && ws[i].weight > 0
  {
    if v < ws[0].weight then 0 else 1 + Pick(ws[1..], v - ws[0].weight)
  }

  /** `ind_sample` on a `WeightedChoice`, for the drawn number `draw`. */
  function Chosen<T>(ws: seq<Weighted<T>>, draw: nat): (x: T)
    requires Total(ws) > 0
    ensures exists i :: 0 <= i < |ws| && ws[i].weight > 0 && ws[i].item == x
  {
    var i := Pick(ws, draw % Total(ws));
    ws[i].item
  }

  /** An item that appears only with weight 0 is never chosen. */
  lemma NeverChosen<T>(ws: seq<Weighted<T>>, draw: nat, x: T)
    requires Total(ws) > 0
    requires forall i :: 0 <= i < |ws| && ws[i].item == x ==> ws[i].weight == 0
    ensures Chosen(ws, draw) != x
  {
  }

  method Sample<T>(rng: Rng, ws: seq<Weighted<T>>) returns (x: T)
    requires Total(ws) > 0
    modifies rng`used
    ensures x == Chosen(ws, rng.stream(old(rng.used))) && rng.used == old(rng.used) + 1
  {
    var v := rng.Draw();
    x := Chosen(ws, v);
  }

  /** `choose`: nothing from an empty slice, without drawing; otherwise the element the drawn number selects. */
  method Choose<T>(rng: Rng, values: seq<T>) returns (x: Option<T>)
    modifies rng`used
    ensures values == [] ==> x == None && rng.used == old(rng.used)
    ensures values != [] ==>
      x == Some(values[rng.stream(old(rng.used)) % |values|]) && rng.used == old(rng.used) + 1
  {
    if values == [] {
      return None;
    }
    var v := rng.Draw();
    x := Some(values[v % |values|]);
  }
}
