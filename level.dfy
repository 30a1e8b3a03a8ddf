// src/level.rs: the level of the level-based generation, a row-major buffer of
// cells of a fixed size and the player's position. Drawing goes to a display
// this model does not contain; `render` is modelled by the draw calls it makes.

module LevelRs {
  import opened Point
  import opened Grid

  datatype Tile = Empty | Tree

  function Glyph(t: Tile): char
  {
    match t
    case Empty => '.'
    case Tree => '#'
  }

  const PLAYER_GLYPH: char := '@'

  /** A `draw_char` call: layer, column, row and glyph. */
  datatype Draw = Draw(layer: int, x: int, y: int, glyph: char)

  class Level {
    const width: int
    const height: int
    var player: Point
    const cells: array<Tile>

    ghost predicate Valid()
      reads this
    {
      width > 0 && height > 0 && cells.Length == width * height
    }

    /** `new` asserts a positive size; every cell starts Empty and the player starts at (40, 25). */
    constructor(width: int, height: int)
      requires width > 0 && height > 0
      ensures Valid() && this.width == width && this.height == height
      ensures fresh(cells) && forall i :: 0 <= i < cells.Length ==> cells[i] == Empty
      ensures player == Point(40, 25)
    {
      this.width := width;
      this.height := height;
      player := Point(40, 25);
      MulMonotone(0, height, width);
      cells := new Tile[width * height](_ => Empty);
    }

    /** `set_tile`: the cell numbered y * width + x, which must lie in the buffer, and no other. */
    method SetTile(pos: Point, tile: Tile)
      requires 0 <= pos.y * width + pos.x < cells.Length
      modifies cells
      ensures cells[..] == old(cells[..])[pos.y * width + pos.x := tile]
    {
      cells[pos.y * width + pos.x] := tile;
    }

    function Size(): (int, int)
    {
      (width, height)
    }

    /** `move_player` */
    method MovePlayer(newPos: Point)
      modifies this`player
      ensures player == newPos
    {
      player := newPos;
    }

    /** `render`: every cell on layer 0 in buffer order, cell i at column i % width of row i / width, then the player
        on layer 2. */
    method Render() returns (draws: seq<Draw>)
      requires Valid()
      ensures |draws| == cells.Length + 1
      ensures forall i :: 0 <= i < cells.Length ==> draws[i] == Draw(0, i % width, i / width, Glyph(cells[i]))
      ensures draws[cells.Length] == Draw(2, player.x, player.y, PLAYER_GLYPH)
    {
      draws := [];
      var x, y := 0, 0;
      var i := 0;
      while i < cells.Length
        invariant 0 <= i <= cells.Length && |draws| == i
        invariant 0 <= x < width && i == y * width + x
        invariant forall k :: 0 <= k < i ==> draws[k] == Draw(0, k % width, k / width, Glyph(cells[k]))
      {
        RowMajorIndex(x, y, width);
        draws := draws + [Draw(0, x, y, Glyph(cells[i]))];
        x := x + 1;
        if x >= width {
          x := 0;
          y := y + 1;
        }
        i := i + 1;
      }
      draws := draws + [Draw(2, player.x, player.y, PLAYER_GLYPH)];
    }
  }

  /** The cell a tile set at (x, y) inside the level is drawn at is (x, y) itself. */
  lemma SetTileIsDrawnInPlace(x: int, y: int, width: int, height: int)
    requires 0 <= x < width && 0 <= y < height
    ensures 0 <= y * width + x < width * height
    ensures (y * width + x) % width == x && (y * width + x) / width == y
  {
    RowMajorIndex(x, y, width);
    RowMajorBound(x, y, width, height);
  }
}
