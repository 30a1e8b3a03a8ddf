// src/generators/forrest.rs: the forest world of the level-based generation.
// The map is drawn row by row, then the monsters and then the items are drawn
// over it, all from one random generator (Random.Rng). Each generator is a
// method with the loops of the source, proved against a function of the
// stream it draws from; the placement rules are lemmas about those functions.

module Forrest {
  import opened Base
  import opened Point
  import opened Grid
  import opened Random
  import M = Monster
  import opened LevelRs

  /** The generator's tile kinds are the tiles of the level. */
  type TileKind = Tile

  /** The three item kinds the generator places. */
  datatype ItemKind = Dose | StrongDose | Food

  const TILE_WEIGHTS: seq<Weighted<TileKind>> := [Weighted(610, Empty), Weighted(390, Tree)]

  /** A 3% chance of a monster, shared out equally between the five kinds. */
  const MONSTER_COUNT: nat := 5
  const MONSTER_CHANCE: nat := 30
  const MONSTER_WEIGHTS: seq<Weighted<Option<M.Kind>>> := [
    Weighted(1000 - MONSTER_CHANCE, None),
    Weighted(MONSTER_CHANCE / MONSTER_COUNT, Some(M.Anxiety)),
    Weighted(MONSTER_CHANCE / MONSTER_COUNT, Some(M.Depression)),
    Weighted(MONSTER_CHANCE / MONSTER_COUNT, Some(M.Hunger)),
    Weighted(MONSTER_CHANCE / MONSTER_COUNT, Some(M.Shadows)),
    Weighted(MONSTER_CHANCE / MONSTER_COUNT, Some(M.Voices))]

  /** Items within tile distance 6 of the player: no strong doses there. */
  const NEAR_PLAYER_WEIGHTS: seq<Weighted<Option<ItemKind>>> :=
    [Weighted(1000, None), Weighted(2, Some(Dose)), Weighted(0, Some(StrongDose)), Weighted(20, Some(Food))]

  const REST_WEIGHTS: seq<Weighted<Option<ItemKind>>> :=
    [Weighted(1000, None), Weighted(7, Some(Dose)), Weighted(3, Some(StrongDose)), Weighted(5, Some(Food))]

  /** The offsets of the initial dose from the player, on each axis. */
  const POS_OFFSET: seq<int> := [-4, -3, -2, -1, 1, 2, 3, 4]

  /** The monster-free radius around the player, which is also the reach of the near-player item table. */
  const SAFE_DISTANCE: nat := 6

  // ------------------------------------------------------------------ the map

  predicate Inside(w: int, h: int, p: Point)
  {
    0 <= p.x < w && 0 <= p.y < h
  }

  function Cells(w: int, h: int): nat
  {
    if w > 0 && h > 0 then w * h else 0
  }

  /** The number of the stream entry cell `i` of the map is drawn from: cells before the player's each use one. */
  function CellDraw(start: nat, i: nat, w: int, h: int, player: Point): nat
  {
    if Inside(w, h, player) && player.y * w + player.x < i then start + i - 1 else start + i
  }

  /** How many numbers drawing the whole map takes: one per cell except the player's. */
  function MapDraws(w: int, h: int, player: Point): nat
  {
    if Inside(w, h, player) then Cells(w, h) - 1 else Cells(w, h)
  }

  /** Cell `i` of the map drawn from `stream`: the player's cell is always Empty. */
  function MapCell(stream: nat -> nat, start: nat, w: int, h: int, player: Point, i: nat): (Point, TileKind)
    requires w > 0
  {
    var p := Point(i % w, i / w);
    (p, if p == player then Empty else Chosen(TILE_WEIGHTS, stream(CellDraw(start, i, w, h, player))))
  }

  /** `generate_map`: w x h tiles, top to bottom and left to right within a row. */
  method GenerateMap(rng: Rng, w: int, h: int, player: Point) returns (result: seq<(Point, TileKind)>)
    modifies rng`used
    ensures |result| == Cells(w, h)
    ensures forall i :: 0 <= i < |result| ==> w > 0 && result[i] == MapCell(rng.stream, old(rng.used), w, h, player, i)
    ensures rng.used == old(rng.used) + MapDraws(w, h, player)
  {
    ghost var start := rng.used;
    result := [];
    var y := 0;
    while y < h
      invariant 0 <= y && (y <= h || y == 0)
      invariant |result| == if w > 0 then y * w else 0
      invariant forall i :: 0 <= i < |result| ==> w > 0 && result[i] == MapCell(rng.stream, start, w, h, player, i)
      invariant rng.used == start + |result| - if Inside(w, h, player) && player.y < y then 1 else 0
    {
      if w > 0 {
        result := GenerateRow(rng, w, h, player, y, result, start);
        assert (y + 1) * w == y * w + w;
      }
      y := y + 1;
    }
    if !(w > 0 && h > 0) {
      assert |result| == 0;
    } else if Inside(w, h, player) {
      RowMajorBound(player.x, player.y, w, h);
    }
  }

  /** One row of `generate_map`: the inner loop, over the columns of row `y`. */
  method GenerateRow(rng: Rng, w: int, h: int, player: Point, y: int, before: seq<(Point, TileKind)>, ghost start: nat)
    returns (result: seq<(Point, TileKind)>)
    requires 0 <= y < h && w > 0
    requires |before| == y * w
    requires forall i :: 0 <= i < |before| ==> before[i] == MapCell(rng.stream, start, w, h, player, i)
    requires rng.used == start + |before| - if Inside(w, h, player) && player.y < y then 1 else 0
    modifies rng`used
    ensures |result| == y * w + w
    ensures forall i :: 0 <= i < |result| ==> result[i] == MapCell(rng.stream, start, w, h, player, i)
    ensures rng.used == start + |result| - if Inside(w, h, player) && player.y <= y then 1 else 0
  {
    result := before;
    var x := 0;
    while x < w
      invariant 0 <= x <= w
      invariant |result| == y * w + x
      invariant forall i :: 0 <= i < |result| ==> result[i] == MapCell(rng.stream, start, w, h, player, i)
      invariant rng.used == start + |result| -
        if Inside(w, h, player) && (player.y < y || (player.y == y && player.x < x)) then 1 else 0
    {
      MapStep(rng.stream, start, w, h, player, x, y);
      var kind: TileKind;
      if Point(x, y) == player {
        kind := Empty;
      } else {
        kind := Sample(rng, TILE_WEIGHTS);
      }
      result := result + [(Point(x, y), kind)];
      x := x + 1;
    }
  }

  /** What the map loop needs about the cell at (x, y): its number, and whether it is the player's. */
  lemma MapStep(stream: nat -> nat, start: nat, w: int, h: int, player: Point, x: int, y: int)
    requires 0 <= x < w && 0 <= y < h
    ensures MapCell(stream, start, w, h, player, y * w + x).0 == Point(x, y)
    ensures Point(x, y) == player ==> MapCell(stream, start, w, h, player, y * w + x).1 == Empty
    ensures y * w + x >= 0 && CellDraw(start, y * w + x, w, h, player) ==
      start + y * w + x - if Inside(w, h, player) && (player.y < y || (player.y == y && player.x < x)) then 1 else 0
  {
    RowMajorIndex(x, y, w);
    RowMajorBound(x, y, w, h);
    if Inside(w, h, player) {
      RowMajorOrder(player.x, player.y, x, y, w);
    }
  }

  /** The player's cell is in the map, and Empty, whenever the player is inside it. */
  lemma PlayerCellIsEmpty(stream: nat -> nat, start: nat, w: int, h: int, player: Point)
    requires Inside(w, h, player)
    ensures var i := player.y * w + player.x;
      0 <= i < Cells(w, h) && MapCell(stream, start, w, h, player, i) == (player, Empty)
  {
    RowMajorBound(player.x, player.y, w, h);
    RowMajorIndex(player.x, player.y, w);
  }

  /** Every cell of the map draws its own number of the stream: after the player's cell the numbers run one
      behind, so no number is drawn twice and none is skipped. */
  lemma CellDrawsDistinct(start: nat, i: nat, j: nat, w: int, h: int, player: Point)
    requires w > 0 && i < j
    requires Point(i % w, i / w) != player && Point(j % w, j / w) != player
    ensures CellDraw(start, i, w, h, player) < CellDraw(start, j, w, h, player)
  {
    if Inside(w, h, player) && player.y * w + player.x == i {
      RowMajorIndex(player.x, player.y, w);
    }
  }

  // ------------------------------------------------------------ the monsters

  /** A scan over the map: what it found, the map numbers of the cells it found them on, and the next stream entry
      to draw. */
  datatype Scan<T> = Scan(found: seq<(Point, T)>, sites: seq<nat>, next: nat)

  /** The monsters drawn over `tiles`: one draw for each Empty cell at tile distance 6 or more from the player. */
  function MonstersOf(stream: nat -> nat, start: nat, tiles: seq<(Point, TileKind)>, player: Point): (s: Scan<M.Kind>)
    ensures |s.sites| == |s.found|
  {
    if tiles == [] then Scan([], [], start)
    else
      var n := |tiles| - 1;
      MonsterVisit(stream, MonstersOf(stream, start, tiles[..n], player), tiles[n].0, tiles[n].1, n, player)
  }

  /** One cell of the monster scan, the cell numbered `site` at `pos`. */
  function MonsterVisit(stream: nat -> nat, s: Scan<M.Kind>, pos: Point, kind: TileKind, site: nat, player: Point)
    : (t: Scan<M.Kind>)
    requires |s.sites| == |s.found|
    ensures |t.sites| == |t.found|
  {
    if kind != Empty || TileDistance(pos, player) < SAFE_DISTANCE then s
    else match Chosen(MONSTER_WEIGHTS, stream(s.next))
      case None => s.(next := s.next + 1)
      case Some(m) => Scan(s.found + [(pos, m)], s.sites + [site], s.next + 1)
  }

  /** `generate_monsters` */
  method GenerateMonsters(rng: Rng, tiles: seq<(Point, TileKind)>, player: Point) returns (result: seq<(Point, M.Kind)>)
    modifies rng`used
    ensures var s := MonstersOf(rng.stream, old(rng.used), tiles, player); result == s.found && rng.used == s.next
  {
    ghost var start := rng.used;
    result := [];
    ghost var sites: seq<nat> := [];
    var i := 0;
    while i < |tiles|
      invariant 0 <= i <= |tiles|
      invariant MonstersOf(rng.stream, start, tiles[..i], player) == Scan(result, sites, rng.used)
    {
      assert tiles[..i + 1][..i] == tiles[..i];
      var (pos, tile) := tiles[i];
      if tile != Empty {
        i := i + 1;
        continue;
      }
      if TileDistance(pos, player) < SAFE_DISTANCE {
        i := i + 1;
        continue;
      }
      var monster := Sample(rng, MONSTER_WEIGHTS);
      if monster.Some? {
        result := result + [(pos, monster.value)];
        sites := sites + [i];
      }
      i := i + 1;
    }
    assert tiles[..|tiles|] == tiles;
  }

  /** Everything found lies on an Empty cell of the map, the one its site numbers. */
  ghost predicate OnEmptyCells<T>(tiles: seq<(Point, TileKind)>, found: seq<(Point, T)>, sites: seq<nat>)
  {
    |sites| == |found| &&
    forall j :: 0 <= j < |sites| ==> sites[j] < |tiles| && tiles[sites[j]].0 == found[j].0 && tiles[sites[j]].1 == Empty
  }

  /** Sites strictly increase: at most one find to a cell, in map order. */
  ghost predicate Ascending(sites: seq<nat>)
  {
    forall j, k :: 0 <= j < k < |sites| ==> sites[j] < sites[k]
  }

  /** Monsters stand only on Empty cells at tile distance 6 or more from the player, at most one to a cell, and come
      in map order. */
  lemma {:induction false} MonsterPlacement(stream: nat -> nat, start: nat, tiles: seq<(Point, TileKind)>, player: Point)
    ensures var s := MonstersOf(stream, start, tiles, player);
      OnEmptyCells(tiles, s.found, s.sites) && Ascending(s.sites) &&
      forall j :: 0 <= j < |s.found| ==> TileDistance(s.found[j].0, player) >= SAFE_DISTANCE
    decreases |tiles|
  {
    if tiles != [] {
      var pre := tiles[..|tiles| - 1];
      MonsterPlacement(stream, start, pre, player);
      var s := MonstersOf(stream, start, pre, player);
      var n := |tiles| - 1;
      assert forall j :: 0 <= j < |s.sites| ==> s.sites[j] < n && tiles[s.sites[j]] == pre[s.sites[j]];
    }
  }

  // --------------------------------------------------------------- the items

  /** Where the initial dose starts: an offset of 1 to 4 on each axis, in either direction, from the player. */
  function InitialDose(stream: nat -> nat, start: nat, player: Point): Point
  {
    Point(player.x + POS_OFFSET[stream(start) % 8], player.y + POS_OFFSET[stream(start + 1) % 8])
  }

  /** The initial dose moved off a tree: one cell right, or, when that leaves tile distance 4 of the player,
      three cells left and one row down. */
  function Relocated(dose: Point, player: Point): Point
  {
    var right := Point(dose.x + 1, dose.y);
    if TileDistance(right, player) > 4 then Point(right.x - 4, right.y + 1) else right
  }

  datatype ItemScan = ItemScan(found: seq<(Point, ItemKind)>, sites: seq<nat>, next: nat, dose: Point)

  /** The items drawn over `tiles`: the initial dose goes on the first Empty cell it reaches, a tree pushes it on, and
      every other Empty cell draws from the table for its distance to the player. */
  function ItemsOf(stream: nat -> nat, start: nat, tiles: seq<(Point, TileKind)>, player: Point): (s: ItemScan)
    ensures |s.sites| == |s.found|
  {
    if tiles == [] then ItemScan([], [], start + 2, InitialDose(stream, start, player))
    else
      var n := |tiles| - 1;
      ItemVisit(stream, ItemsOf(stream, start, tiles[..n], player), tiles[n].0, tiles[n].1, n, player)
  }

  /** One cell of the item scan, the cell numbered `site` at `pos`. */
  function ItemVisit(stream: nat -> nat, s: ItemScan, pos: Point, kind: TileKind, site: nat, player: Point)
    : (t: ItemScan)
    requires |s.sites| == |s.found|
    ensures |t.sites| == |t.found|
  {
    match kind
    case Tree => if pos == s.dose then s.(dose := Relocated(s.dose, player)) else s
    case Empty =>
      if pos == s.dose then s.(found := s.found + [(pos, Dose)], sites := s.sites + [site])
      else
        var table := if TileDistance(pos, player) < SAFE_DISTANCE then NEAR_PLAYER_WEIGHTS else REST_WEIGHTS;
        match Chosen(table, stream(s.next))
        case None => s.(next := s.next + 1)
        case Some(item) => ItemScan(s.found + [(pos, item)], s.sites + [site], s.next + 1, s.dose)
  }

  /** `generate_items` */
  method GenerateItems(rng: Rng, tiles: seq<(Point, TileKind)>, player: Point) returns (result: seq<(Point, ItemKind)>)
    modifies rng`used
    ensures var s := ItemsOf(rng.stream, old(rng.used), tiles, player); result == s.found && rng.used == s.next
  {
    ghost var start := rng.used;
    var dx := Choose(rng, POS_OFFSET);
    var dy := Choose(rng, POS_OFFSET);
    var initialDose := Point(player.x + dx.value, player.y + dy.value);
    result := [];
    ghost var sites: seq<nat> := [];
    var i := 0;
    while i < |tiles|
      invariant 0 <= i <= |tiles|
      invariant ItemsOf(rng.stream, start, tiles[..i], player) == ItemScan(result, sites, rng.used, initialDose)
      decreases |tiles| - i
    {
      assert tiles[..i + 1][..i] == tiles[..i];
      ghost var before := ItemScan(result, sites, rng.used, initialDose);
      var (pos, tile) := tiles[i];
      match tile {
        case Tree =>
          if pos == initialDose {
            initialDose := Point(initialDose.x + 1, initialDose.y);
            if TileDistance(initialDose, player) > 4 {
              initialDose := Point(initialDose.x - 4, initialDose.y + 1);
            }
          }
        case Empty =>
          if pos == initialDose {
            result := result + [(pos, Dose)];
            sites := sites + [i];
          } else {
            var table := if TileDistance(pos, player) < SAFE_DISTANCE then NEAR_PLAYER_WEIGHTS else REST_WEIGHTS;
            var item := Sample(rng, table);
            if item.Some? {
              result := result + [(pos, item.value)];
              sites := sites + [i];
            }
          }
      }
      assert ItemScan(result, sites, rng.used, initialDose) == ItemVisit(rng.stream, before, pos, tile, i, player);
      i := i + 1;
    }
    assert tiles[..|tiles|] == tiles;
  }

  /** The items found over `tiles` extend those found over all but its last cell by at most the last cell. */
  lemma ItemStep(stream: nat -> nat, start: nat, tiles: seq<(Point, TileKind)>, player: Point)
    requires tiles != []
    ensures var n := |tiles| - 1;
      var s := ItemsOf(stream, start, tiles[..n], player);
      var t := ItemsOf(stream, start, tiles, player);
      (t.found == s.found && t.sites == s.sites) ||
      (tiles[n].1 == Empty && t.found == s.found + [(tiles[n].0, t.found[|t.found| - 1].1)] && t.sites == s.sites + [n] &&
       (TileDistance(tiles[n].0, player) < SAFE_DISTANCE ==> t.found[|t.found| - 1].1 != StrongDose))
  {
    var n := |tiles| - 1;
    var s := ItemsOf(stream, start, tiles[..n], player);
    var (pos, kind) := tiles[n];
    if kind == Empty && pos != s.dose && TileDistance(pos, player) < SAFE_DISTANCE {
      NeverChosen(NEAR_PLAYER_WEIGHTS, stream(s.next), Some(StrongDose));
    }
  }

  /** Items lie only on Empty cells, at most one to a cell, in map order; a strong dose never lies within tile
      distance 6 of the player. */
  lemma {:induction false} ItemPlacement(stream: nat -> nat, start: nat, tiles: seq<(Point, TileKind)>, player: Point)
    ensures var s := ItemsOf(stream, start, tiles, player);
      OnEmptyCells(tiles, s.found, s.sites) && Ascending(s.sites) &&
      forall j :: 0 <= j < |s.found| && s.found[j].1 == StrongDose ==> TileDistance(s.found[j].0, player) >= SAFE_DISTANCE
    decreases |tiles|
  {
    if tiles != [] {
      var n := |tiles| - 1;
      var pre := tiles[..n];
      ItemPlacement(stream, start, pre, player);
      ItemStep(stream, start, tiles, player);
      var s := ItemsOf(stream, start, pre, player);
      assert forall j :: 0 <= j < |s.sites| ==> s.sites[j] < n && tiles[s.sites[j]] == pre[s.sites[j]];
    }
  }

  /** The initial dose starts between one and four cells from the player on each axis, so never on the player. */
  lemma InitialDoseNearby(stream: nat -> nat, start: nat, player: Point)
    ensures var d := InitialDose(stream, start, player);
      1 <= Abs(d.x - player.x) <= 4 && 1 <= Abs(d.y - player.y) <= 4 && d != player
  {
  }

  /** Pushed off a tree, the dose moves to a cell later in map order, so the scan can still reach it. */
  lemma RelocatedIsAhead(dose: Point, player: Point)
    ensures var r := Relocated(dose, player); r.y > dose.y || (r.y == dose.y && r.x > dose.x)
    ensures var r := Relocated(dose, player); r == Point(dose.x + 1, dose.y) || r == Point(dose.x - 3, dose.y + 1)
  {
  }

  // ---------------------------------------------------------------- generate

  /** `generate`: the tiles, then the monsters, then the items, on one generator. */
  method Generate(rng: Rng, w: int, h: int, player: Point)
    returns (tiles: seq<(Point, TileKind)>, monsters: seq<(Point, M.Kind)>, items: seq<(Point, ItemKind)>)
    modifies rng`used
    ensures |tiles| == Cells(w, h)
    ensures forall i :: 0 <= i < |tiles| ==> w > 0 && tiles[i] == MapCell(rng.stream, old(rng.used), w, h, player, i)
    ensures var ms := MonstersOf(rng.stream, old(rng.used) + MapDraws(w, h, player), tiles, player);
      var its := ItemsOf(rng.stream, ms.next, tiles, player);
      monsters == ms.found && items == its.found && rng.used == its.next
  {
    tiles := GenerateMap(rng, w, h, player);
    ghost var afterMap := rng.used;
    monsters := GenerateMonsters(rng, tiles, player);
    ghost var afterMonsters := rng.used;
    assert afterMonsters == MonstersOf(rng.stream, afterMap, tiles, player).next;
    items := GenerateItems(rng, tiles, player);
  }
}
