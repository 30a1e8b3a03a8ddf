// src/world.rs: `populate_world`, which writes a generated world into a level:
// every map entry with `set_tile`, then a new monster for every generated
// monster, then every generated item. `Level::walkable` and `Level::add_item`
// are not part of the level this model contains: walkability is a predicate of
// the level's cells that the caller supplies, and the added items are kept in
// an `ItemLog` in the order they are added.

module World {
  import opened Point
  import opened Grid
  import opened LevelRs
  import M = Monster
  import F = Forrest

  /** The caller's `Vec<Monster>`. */
  class MonsterList {
    var list: seq<M.Monster>

    constructor()
      ensures list == []
    {
      list := [];
    }
  }

  /** The items handed to the level by `add_item`, oldest first. */
  class ItemLog {
    var added: seq<(Point, F.ItemKind)>

    constructor()
      ensures added == []
    {
      added := [];
    }

    /** `add_item` */
    method AddItem(pos: Point, item: F.ItemKind)
      modifies this
      ensures added == old(added) + [(pos, item)]
    {
      added := added + [(pos, item)];
    }
  }

  /** `GeneratedWorld`: the map, the monsters and the items. */
  datatype GeneratedWorld = GeneratedWorld(
    tiles: seq<(Point, Tile)>,
    monsters: seq<(Point, M.Kind)>,
    items: seq<(Point, F.ItemKind)>)

  /** The buffer index `set_tile` writes for a position. */
  function CellIndex(pos: Point, width: int): int
  {
    pos.y * width + pos.x
  }

  /** Every entry of the map names a cell of a buffer of `n` cells. */
  predicate InBuffer(tiles: seq<(Point, Tile)>, width: int, n: int)
  {
    forall i :: 0 <= i < |tiles| ==> 0 <= CellIndex(tiles[i].0, width) < n
  }

  /** The cells after the entries of `tiles` are written over `cells` one after the other. */
  function Written(cells: seq<Tile>, tiles: seq<(Point, Tile)>, width: int): (r: seq<Tile>)
    requires InBuffer(tiles, width, |cells|)
    ensures |r| == |cells|
    decreases |tiles|
  {
    if tiles == [] then cells
    else
      var last := tiles[|tiles| - 1];
      Written(cells, tiles[..|tiles| - 1], width)[CellIndex(last.0, width) := last.1]
  }

  /** `Monster::new(kind, pos)` as `populate_world` leaves it. */
  ghost predicate Spawned(m: M.Monster, entry: (Point, M.Kind))
    reads m
  {
    m.kind == entry.1 && m.position == entry.0 && m.id == 0 && !m.dead && m.ap == 0 &&
    m.maxAp == (if entry.1 == M.Depression then 2 else 1) &&
    (m.dieAfterAttack <==> entry.1 == M.Shadows || entry.1 == M.Voices)
  }

  /** `populate_world`. The walkability of every monster and item position is asserted once the whole map has been
      written; each of those assertions is this method's precondition. */
  method PopulateWorld(level: Level, monsters: MonsterList, items: ItemLog, walkable: (seq<Tile>, Point) -> bool,
                       world: GeneratedWorld)
    requires InBuffer(world.tiles, level.width, level.cells.Length)
    requires forall i :: 0 <= i < |world.monsters| ==>
      walkable(Written(level.cells[..], world.tiles, level.width), world.monsters[i].0)
    requires forall i :: 0 <= i < |world.items| ==>
      walkable(Written(level.cells[..], world.tiles, level.width), world.items[i].0)
    modifies level.cells, monsters, items
    ensures level.cells[..] == Written(old(level.cells[..]), world.tiles, level.width)
    ensures |monsters.list| == old(|monsters.list|) + |world.monsters|
    ensures monsters.list[..old(|monsters.list|)] == old(monsters.list)
    ensures forall i :: old(|monsters.list|) <= i < |monsters.list| ==>
      fresh(monsters.list[i]) && Spawned(monsters.list[i], world.monsters[i - old(|monsters.list|)])
    ensures items.added == old(items.added) + world.items
  {
    WriteMap(level, world.tiles);
    SpawnMonsters(monsters, world.monsters);
    AddItems(items, world.items);
  }

  /** The third loop of `populate_world`: `add_item` for every generated item, in order. */
  method AddItems(items: ItemLog, generated: seq<(Point, F.ItemKind)>)
    modifies items
    ensures items.added == old(items.added) + generated
  {
    var k := 0;
    while k < |generated|
      invariant 0 <= k <= |generated|
      invariant items.added == old(items.added) + generated[..k]
    {
      items.AddItem(generated[k].0, generated[k].1);
      k := k + 1;
    }
    assert generated[..|generated|] == generated;
  }

  /** The first loop of `populate_world`: `set_tile` for every map entry, in order. */
  method WriteMap(level: Level, tiles: seq<(Point, Tile)>)
    requires InBuffer(tiles, level.width, level.cells.Length)
    modifies level.cells
    ensures level.cells[..] == Written(old(level.cells[..]), tiles, level.width)
  {
    ghost var start := level.cells[..];
    var i := 0;
    while i < |tiles|
      invariant 0 <= i <= |tiles|
      invariant InBuffer(tiles[..i], level.width, |start|)
      invariant level.cells[..] == Written(start, tiles[..i], level.width)
    {
      assert tiles[..i + 1][..i] == tiles[..i];
      level.SetTile(tiles[i].0, tiles[i].1);
      i := i + 1;
    }
    assert tiles[..|tiles|] == tiles;
  }

  /** The second loop of `populate_world`: a new monster for every generated one, appended in order. */
  method SpawnMonsters(monsters: MonsterList, generated: seq<(Point, M.Kind)>)
    modifies monsters
    ensures |monsters.list| == old(|monsters.list|) + |generated|
    ensures monsters.list[..old(|monsters.list|)] == old(monsters.list)
    ensures forall i :: old(|monsters.list|) <= i < |monsters.list| ==>
      fresh(monsters.list[i]) && Spawned(monsters.list[i], generated[i - old(|monsters.list|)])
  {
    ghost var before := monsters.list;
    var j := 0;
    while j < |generated|
      invariant 0 <= j <= |generated|
      invariant |monsters.list| == |before| + j && monsters.list[..|before|] == before
      invariant forall k :: |before| <= k < |monsters.list| ==>
        fresh(monsters.list[k]) && Spawned(monsters.list[k], generated[k - |before|])
    {
      var monster := new M.Monster(generated[j].1, generated[j].0);
      monsters.list := monsters.list + [monster];
      j := j + 1;
    }
  }

  /** A cell no entry of the map names keeps its tile. */
  lemma {:induction false} WrittenUntouched(cells: seq<Tile>, tiles: seq<(Point, Tile)>, width: int, c: int)
    requires InBuffer(tiles, width, |cells|) && 0 <= c < |cells|
    requires forall i :: 0 <= i < |tiles| ==> CellIndex(tiles[i].0, width) != c
    ensures Written(cells, tiles, width)[c] == cells[c]
    decreases |tiles|
  {
    if tiles != [] {
      WrittenUntouched(cells, tiles[..|tiles| - 1], width, c);
    }
  }

  /** When the entries of the map name distinct cells, every entry's cell ends up holding its tile. */
  lemma {:induction false} WrittenDistinct(cells: seq<Tile>, tiles: seq<(Point, Tile)>, width: int, j: int)
    requires InBuffer(tiles, width, |cells|) && 0 <= j < |tiles|
    requires forall a, b :: 0 <= a < b < |tiles| ==> CellIndex(tiles[a].0, width) != CellIndex(tiles[b].0, width)
    ensures Written(cells, tiles, width)[CellIndex(tiles[j].0, width)] == tiles[j].1
    decreases |tiles|
  {
    if j < |tiles| - 1 {
      WrittenDistinct(cells, tiles[..|tiles| - 1], width, j);
    }
  }

  /** The map `Forrest.GenerateMap` makes for a w x h level fills the level's cells with exactly its tiles: entry i
      is written to cell i. */
  lemma GeneratedMapFillsLevel(cells: seq<Tile>, tiles: seq<(Point, Tile)>, stream: nat -> nat, start: nat,
                               w: int, h: int, player: Point)
    requires w > 0 && |cells| == w * h && |tiles| == F.Cells(w, h)
    requires forall i :: 0 <= i < |tiles| ==> tiles[i] == F.MapCell(stream, start, w, h, player, i)
    ensures InBuffer(tiles, w, |cells|)
    ensures forall i :: 0 <= i < |tiles| ==> Written(cells, tiles, w)[i] == tiles[i].1
  {
    forall i | 0 <= i < |tiles|
      ensures CellIndex(tiles[i].0, w) == i
    {
      MapCellIndex(stream, start, w, h, player, i);
    }
    forall i | 0 <= i < |tiles|
      ensures Written(cells, tiles, w)[i] == tiles[i].1
    {
      WrittenDistinct(cells, tiles, w, i);
    }
  }

  lemma MapCellIndex(stream: nat -> nat, start: nat, w: int, h: int, player: Point, i: nat)
    requires w > 0
    ensures CellIndex(F.MapCell(stream, start, w, h, player, i).0, w) == i
  {
    assert i == (i / w) * w + i % w;
  }
}
