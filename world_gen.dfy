// src/world_gen.rs: the older forest generator, which draws one weighted item
// for every cell of a w x h area, column by column, from the random generator
// (Random.Rng).

module WorldGen {
  import opened Base
  import opened Grid
  import opened Random

  datatype WorldItem = Empty | Tree | Dose | StrongDose | Food | Anxiety | Depression | Hunger | Voices | Shadows

  /** The five monster kinds share 30 in weight equally. */
  const MONSTER_COUNT: nat := 5
  const MONSTER_WEIGHT: nat := 30 / MONSTER_COUNT

  const WEIGHTS: seq<Weighted<WorldItem>> := [
    Weighted(595, Empty), Weighted(390, Tree),
    Weighted(7, Dose), Weighted(3, StrongDose), Weighted(5, Food),
    Weighted(MONSTER_WEIGHT, Anxiety), Weighted(MONSTER_WEIGHT, Depression), Weighted(MONSTER_WEIGHT, Hunger),
    Weighted(MONSTER_WEIGHT, Voices), Weighted(MONSTER_WEIGHT, Shadows)]

  function Cells(w: int, h: int): nat
  {
    if w > 0 && h > 0 then w * h else 0
  }

  /** Entry `i` of the result: cell (i / h, i % h), with the item drawn from stream entry `start + i`. */
  function WorldCell(stream: nat -> nat, start: nat, h: int, i: nat): (int, int, WorldItem)
    requires h > 0
  {
    (i / h, i % h, Chosen(WEIGHTS, stream(start + i)))
  }

  /** `forrest`: x in the outer loop and y in the inner one, one draw for every cell. */
  method Forrest(rng: Rng, w: int, h: int) returns (result: seq<(int, int, WorldItem)>)
    modifies rng`used
    ensures |result| == Cells(w, h) && rng.used == old(rng.used) + |result|
    ensures forall i :: 0 <= i < |result| ==> h > 0 && result[i] == WorldCell(rng.stream, old(rng.used), h, i)
  {
    ghost var start := rng.used;
    result := [];
    var x := 0;
    while x < w
      invariant 0 <= x && (x <= w || x == 0)
      invariant |result| == (if h > 0 then x * h else 0) && rng.used == start + |result|
      invariant forall i :: 0 <= i < |result| ==> h > 0 && result[i] == WorldCell(rng.stream, start, h, i)
    {
      if h > 0 {
        result := Column(rng, h, x, result, start);
        assert (x + 1) * h == x * h + h;
      }
      x := x + 1;
    }
  }

  /** One column of `forrest`: the inner loop, over the rows of column `x`. */
  method Column(rng: Rng, h: int, x: int, before: seq<(int, int, WorldItem)>, ghost start: nat)
    returns (result: seq<(int, int, WorldItem)>)
    requires h > 0 && x >= 0 && |before| == x * h && rng.used == start + |before|
    requires forall i :: 0 <= i < |before| ==> before[i] == WorldCell(rng.stream, start, h, i)
    modifies rng`used
    ensures |result| == x * h + h && rng.used == start + |result|
    ensures forall i :: 0 <= i < |result| ==> result[i] == WorldCell(rng.stream, start, h, i)
  {
    result := before;
    var y := 0;
    while y < h
      invariant 0 <= y <= h
      invariant |result| == x * h + y && rng.used == start + |result|
      invariant forall i :: 0 <= i < |result| ==> result[i] == WorldCell(rng.stream, start, h, i)
    {
      RowMajorIndex(y, x, h);
      var item := Sample(rng, WEIGHTS);
      result := result + [(x, y, item)];
      y := y + 1;
    }
  }

  /** Every cell of the area has exactly one entry: (x, y) is entry x * h + y, and no other entry names it. */
  lemma EachCellOnce(stream: nat -> nat, start: nat, w: int, h: int, x: int, y: int)
    requires 0 <= x < w && 0 <= y < h
    ensures 0 <= x * h + y < Cells(w, h)
    ensures WorldCell(stream, start, h, x * h + y).0 == x && WorldCell(stream, start, h, x * h + y).1 == y
    ensures forall i: nat ::
      (i < Cells(w, h) && WorldCell(stream, start, h, i).0 == x && WorldCell(stream, start, h, i).1 == y) ==>
      i == x * h + y
  {
    RowMajorIndex(y, x, h);
    RowMajorBound(y, x, h, w);
    assert h * w == w * h;
    forall i: nat | i < Cells(w, h) && WorldCell(stream, start, h, i).0 == x && WorldCell(stream, start, h, i).1 == y
      ensures i == x * h + y
    {
      assert i == (i / h) * h + i % h;
    }
  }

  /** Every item can come up: each has a positive weight. */
  lemma EveryItemPossible(item: WorldItem)
    ensures exists i :: 0 <= i < |WEIGHTS| && WEIGHTS[i].item == item && WEIGHTS[i].weight > 0
  {
    match item
    case Empty => assert WEIGHTS[0].item == item;
    case Tree => assert WEIGHTS[1].item == item;
    case Dose => assert WEIGHTS[2].item == item;
    case StrongDose => assert WEIGHTS[3].item == item;
    case Food => assert WEIGHTS[4].item == item;
    case Anxiety => assert WEIGHTS[5].item == item;
    case Depression => assert WEIGHTS[6].item == item;
    case Hunger => assert WEIGHTS[7].item == item;
    case Voices => assert WEIGHTS[8].item == item;
    case Shadows => assert WEIGHTS[9].item == item;
  }
}
