// src/engine.rs: the `Display` the game draws into, a buffer of cells one tile
// wider than the game area on every side, addressed by positions from (-1, -1)
// to (width, height); the greedy word wrap of `wrap_text`; and the visibility
// test of `rect_intersects_area`. The glyph advance table is generated at build
// time and is a parameter here (`advance`); vertex building and the renderer
// are not part of this model.

module Engine {
  import opened Base
  import opened Point
  import opened Grid
  import opened Text

  datatype Color = Color(r: int, g: int, b: int)

  /** `Color::default()`. */
  const BLACK: Color := Color(0, 0, 0)

  datatype ColorAlpha = ColorAlpha(rgb: Color, alpha: int)

  /** `color::invisible`: nothing is faded. */
  const INVISIBLE: ColorAlpha := ColorAlpha(BLACK, 0)

  datatype Cell = Cell(glyph: char, foreground: Color, background: Color)

  /** `Cell::default()`: a blank glyph, black on black. */
  const DEFAULT_CELL: Cell := Cell(' ', BLACK, BLACK)

  /** A rectangle by its edges as the rectangle type reports them. */
  datatype Rect = Rect(left: int, top: int, right: int, bottom: int)

  /** A queued draw call; the texture of an image call is not modelled. */
  datatype Drawcall = Rectangle(rect: Rect, color: ColorAlpha) | Image(src: Rect, dst: Rect, tint: Color)

  class Display {
    const displaySize: Point
    const tilesize: int
    const padding: Point
    var offsetPx: Point
    /** The cell buffer (`map`), row-major over the padded area. */
    const buffer: array<Cell>
    var drawcalls: seq<Drawcall>
    var fade: ColorAlpha
    var clearBackground: Option<Color>

    ghost predicate Valid()
    {
      displaySize.x > 0 && displaySize.y > 0 && tilesize > 0 && padding == Point(1, 1) &&
      buffer.Length == FullSize().x * FullSize().y
    }

    /** `new` asserts that both sides of the game area and the tile size are positive. */
    constructor(displaySize: Point, tilesize: int)
      requires PartialCmp(displaySize, Point(0, 0)) == Some(Greater)
      requires tilesize > 0
      ensures Valid() && this.displaySize == displaySize && this.tilesize == tilesize
      ensures fresh(buffer) && buffer.Length == (displaySize.x + 2) * (displaySize.y + 2)
      ensures forall i :: 0 <= i < buffer.Length ==> buffer[i] == DEFAULT_CELL
      ensures offsetPx == Point(0, 0) && drawcalls == [] && fade == INVISIBLE && clearBackground == None
    {
      this.displaySize := displaySize;
      this.tilesize := tilesize;
      padding := Point(1, 1);
      offsetPx := Point(0, 0);
      MulMonotone(0, displaySize.y + 2, displaySize.x + 2);
      buffer := new Cell[(displaySize.x + 2) * (displaySize.y + 2)](_ => DEFAULT_CELL);
      drawcalls := [];
      fade := INVISIBLE;
      clearBackground := None;
    }

    /** `full_size_with_padding_in_tiles`: the game area with the padding on both sides. */
    function FullSize(): (s: Point)
      ensures s == Point(displaySize.x + 2 * padding.x, displaySize.y + 2 * padding.y)
    {
      Point(displaySize.x + padding.x * 2, displaySize.y + padding.y * 2)
    }

    /** `contains`: the game area grown by one tile on every side. */
    predicate Contains(pos: Point)
    {
      pos.x >= 0 - padding.x && pos.y >= 0 - padding.y &&
      pos.x < displaySize.x + padding.x && pos.y < displaySize.y + padding.y
    }

    /** `index`: the buffer cell of a position, for the positions the display contains and no others. */
    function Index(pos: Point): (ix: Option<int>)
      ensures ix.Some? <==> Contains(pos)
      ensures Valid() && ix.Some? ==> 0 <= ix.value < buffer.Length && CellPos(ix.value) == pos
    {
      if Contains(pos) then
        var p := Point(pos.x + padding.x, pos.y + padding.y);
        PaddedIndex(pos);
        Some(p.y * FullSize().x + p.x)
      else None
    }

    lemma PaddedIndex(pos: Point)
      requires Contains(pos)
      ensures var r := (pos.y + padding.y) * FullSize().x + pos.x + padding.x;
              Valid() ==> 0 <= r < buffer.Length && CellPos(r) == pos
    {
      if Valid() {
        var p := Point(pos.x + padding.x, pos.y + padding.y);
        RowMajorIndex(p.x, p.y, FullSize().x);
        RowMajorBound(p.x, p.y, FullSize().x, FullSize().y);
      }
    }

    /** The position `cells` gives buffer cell `i`. */
    function CellPos(i: int): Point
      requires Valid()
    {
      Point(i % FullSize().x - padding.x, i / FullSize().x - padding.y)
    }

    /** `cells`: every buffer cell with its position, in buffer order. */
    function Cells(): (cs: seq<(Point, Cell)>)
      requires Valid()
      reads buffer
      ensures |cs| == buffer.Length
      ensures forall i :: 0 <= i < |cs| ==> cs[i] == (CellPos(i), buffer[i])
    {
      seq(buffer.Length, i reads buffer requires 0 <= i < buffer.Length => (CellPos(i), buffer[i]))
    }

    /** `clear`: every cell becomes a blank glyph on `background`, the queued draw calls are dropped and the fade is
        reset. */
    method Clear(background: Color)
      modifies buffer, this`drawcalls, this`fade, this`clearBackground
      ensures forall i :: 0 <= i < buffer.Length ==> buffer[i] == Cell(' ', BLACK, background)
      ensures drawcalls == [] && fade == INVISIBLE && clearBackground == Some(background)
    {
      for i := 0 to buffer.Length
        invariant forall k :: 0 <= k < i ==> buffer[k] == Cell(' ', BLACK, background)
      {
        buffer[i] := DEFAULT_CELL.(background := background);
      }
      drawcalls := [];
      fade := INVISIBLE;
      clearBackground := Some(background);
    }

    /** `set`: replaces the cell at `pos` if the display contains it; nothing otherwise. */
    method Set(pos: Point, glyph: char, foreground: Color, background: Color)
      requires Valid()
      modifies buffer
      ensures Index(pos).Some? ==>
        buffer[..] == old(buffer[..])[Index(pos).value := Cell(glyph, foreground, background)]
      ensures Index(pos).None? ==> buffer[..] == old(buffer[..])
    {
      var ix := Index(pos);
      if ix.Some? {
        buffer[ix.value] := Cell(glyph, foreground, background);
      }
    }

    /** `set_glyph`: the glyph and foreground of the cell at `pos`, keeping its background. */
    method SetGlyph(pos: Point, glyph: char, foreground: Color)
      requires Valid()
      modifies buffer
      ensures Index(pos).Some? ==>
        buffer[..] == old(buffer[..])[Index(pos).value := old(buffer[Index(pos).value]).(glyph := glyph,
                                                                                           foreground := foreground)]
      ensures Index(pos).None? ==> buffer[..] == old(buffer[..])
    {
      var ix := Index(pos);
      if ix.Some? {
        buffer[ix.value] := buffer[ix.value].(glyph := glyph, foreground := foreground);
      }
    }

    /** `set_background`: the background of the cell at `pos`, keeping its glyph and foreground. */
    method SetBackground(pos: Point, background: Color)
      requires Valid()
      modifies buffer
      ensures Index(pos).Some? ==>
        buffer[..] == old(buffer[..])[Index(pos).value := old(buffer[Index(pos).value]).(background := background)]
      ensures Index(pos).None? ==> buffer[..] == old(buffer[..])
    {
      var ix := Index(pos);
      if ix.Some? {
        buffer[ix.value] := buffer[ix.value].(background := background);
      }
    }

    /** `get`: the background at `pos`, or the default colour outside the display. */
    function Get(pos: Point): (c: Color)
      requires Valid()
      reads buffer
      ensures Contains(pos) ==> c == buffer[Index(pos).value].background
      ensures !Contains(pos) ==> c == BLACK
    {
      match Index(pos)
      case Some(ix) => buffer[ix].background
      case None => BLACK
    }

    /** Every buffer cell is the cell of exactly one contained position: `cells` undoes `index`. */
    lemma IndexOfCellPos(i: int)
      requires Valid() && 0 <= i < buffer.Length
      ensures Contains(CellPos(i)) && Index(CellPos(i)) == Some(i)
    {
      var w, h := FullSize().x, FullSize().y;
      var x, y := i % w, i / w;
      assert i == y * w + x;
      assert y < h by {
        if y >= h {
          MulMonotone(h, y, w);
        }
      }
      assert CellPos(i) == Point(x - 1, y - 1);
    }

    /** Distinct positions have distinct cells, so a write at one position leaves every other position's cell. */
    lemma IndexInjective(p: Point, q: Point)
      requires Valid() && Contains(p) && Contains(q) && p != q
      ensures Index(p) != Index(q)
    {
    }

    /** The display contains exactly the positions from (-1, -1) to (width, height). */
    lemma ContainsPadded(pos: Point)
      requires Valid()
      ensures Contains(pos) <==> -1 <= pos.x <= displaySize.x && -1 <= pos.y <= displaySize.y
    {
    }
  }

  /** `rect_intersects_area` */
  predicate RectIntersectsArea(rect: Rect, area: Point)
  {
    rect.right >= 0 && rect.left < area.x && rect.top < area.y && rect.bottom >= 0
  }

  predicate InRect(rect: Rect, p: Point)
  {
    rect.left <= p.x <= rect.right && rect.top <= p.y <= rect.bottom
  }

  predicate InArea(area: Point, p: Point)
  {
    0 <= p.x < area.x && 0 <= p.y < area.y
  }

  /** For a rectangle whose edges are in order and an area that is not empty, the test holds exactly when the rectangle shares a tile with the
      area from (0, 0) up to `area`. */
  lemma IntersectsIffShared(rect: Rect, area: Point)
    requires rect.left <= rect.right && rect.top <= rect.bottom
    requires area.x > 0 && area.y > 0
    ensures RectIntersectsArea(rect, area) <==> exists p :: InRect(rect, p) && InArea(area, p)
  {
    if RectIntersectsArea(rect, area) {
      var p := Point(Max(rect.left, 0), Max(rect.top, 0));
      assert InRect(rect, p) && InArea(area, p);
    }
  }

  // Word wrapping.

  /** The widths `wrap_text` works with: `advance(size, c)` is the generated table's advance of glyph `c` at font
      size `size`, if it has one. */
  datatype WrapParams = WrapParams(fontSize: nat, widthTiles: int, tileWidthPx: int, advance: (nat, char) -> Option<int>)

  /** A glyph's advance, or the tile width when the table has none. */
  function GlyphWidth(p: WrapParams, size: nat, c: char): int
  {
    match p.advance(size, c)
    case Some(w) => w
    case None => p.tileWidthPx
  }

  /** `text_width_px`: the advances of the glyphs of a text. */
  function TextWidthPx(p: WrapParams, size: nat, text: string): int
  {
    if text == [] then 0 else TextWidthPx(p, size, text[..|text| - 1]) + GlyphWidth(p, size, text[|text| - 1])
  }

  /** The width of a text is the sum of the widths of its parts. */
  lemma {:induction false} TextWidthPxAppend(p: WrapParams, size: nat, a: string, b: string)
    ensures TextWidthPx(p, size, a + b) == TextWidthPx(p, size, a) + TextWidthPx(p, size, b)
    decreases |b|
  {
    if b == [] {
      assert a + b == a;
    } else {
      var ab := a + b;
      assert ab[..|ab| - 1] == a + b[..|b| - 1];
      assert ab[|ab| - 1] == b[|b| - 1];
      TextWidthPxAppend(p, size, a, b[..|b| - 1]);
    }
  }

  function WrapWidth(p: WrapParams): int
  {
    p.widthTiles * p.tileWidthPx
  }

  /** The space is measured at the caller's font size. */
  function SpaceWidth(p: WrapParams): int
  {
    GlyphWidth(p, p.fontSize, ' ')
  }

  /** Words are measured at the tile width taken as a font size, a cast to `u32`. */
  function WordWidth(p: WrapParams, word: string): int
  {
    TextWidthPx(p, p.tileWidthPx % 0x1_0000_0000, word)
  }

  /** The width `wrap_text` accounts for a line of words: the words and one space between each two. */
  function GroupWidth(p: WrapParams, g: seq<string>): int
  {
    if g == [] then 0
    else if |g| == 1 then WordWidth(p, g[0])
    else GroupWidth(p, g[..|g| - 1]) + SpaceWidth(p) + WordWidth(p, g[|g| - 1])
  }

  /** A line of two or more words fits the wrap width (a single word is kept whatever its width). */
  predicate Fits(p: WrapParams, g: seq<string>)
  {
    |g| >= 2 ==> GroupWidth(p, g) <= WrapWidth(p)
  }

  /** The first word of the next line would not have fit on this one. */
  predicate Breaks(p: WrapParams, g: seq<string>, next: string)
  {
    GroupWidth(p, g) + SpaceWidth(p) + WordWidth(p, next) > WrapWidth(p)
  }

  /** Lines of words as the greedy wrap makes them, checked from the last line back: none empty, each fitting, and
      every break forced. */
  predicate Wrapped(p: WrapParams, gs: seq<seq<string>>)
    decreases |gs|
  {
    gs == [] ||
    (var front, last := gs[..|gs| - 1], gs[|gs| - 1];
     Wrapped(p, front) && last != [] && Fits(p, last) && (front != [] ==> Breaks(p, front[|front| - 1], last[0])))
  }

  /** `Wrapped` line by line. */
  lemma {:induction false} WrappedLines(p: WrapParams, gs: seq<seq<string>>)
    requires Wrapped(p, gs)
    ensures forall i :: 0 <= i < |gs| ==> gs[i] != [] && Fits(p, gs[i])
    ensures forall i :: 1 <= i < |gs| ==> Breaks(p, gs[i - 1], gs[i][0])
    decreases |gs|
  {
    if gs != [] {
      var front := gs[..|gs| - 1];
      WrappedLines(p, front);
      assert forall i :: 0 <= i < |front| ==> gs[i] == front[i];
    }
  }

  /** The words of the lines, in order. */
  function Flatten(gs: seq<seq<string>>): seq<string>
  {
    if gs == [] then [] else Flatten(gs[..|gs| - 1]) + gs[|gs| - 1]
  }

  /** The greedy wrap, from lines `done`, the current line `line` of width `width`, and the words still to place. */
  function Fill(p: WrapParams, done: seq<seq<string>>, line: seq<string>, width: int, rest: seq<string>)
    : seq<seq<string>>
    decreases |rest|
  {
    if rest == [] then done + [line]
    else
      var ww := WordWidth(p, rest[0]);
      if width + SpaceWidth(p) + ww <= WrapWidth(p) then Fill(p, done, line + [rest[0]], width + SpaceWidth(p) + ww, rest[1..])
      else Fill(p, done + [line], [rest[0]], ww, rest[1..])
  }

  /** The lines of words `wrap_text` makes from a text split at its spaces. */
  function WrapGroups(p: WrapParams, text: string): seq<seq<string>>
  {
    var words := Split(text, ' ');
    Fill(p, [], [words[0]], WordWidth(p, words[0]), words[1..])
  }

  /** Each line of words written as text. */
  function Render(gs: seq<seq<string>>): (ls: seq<string>)
    ensures |ls| == |gs|
  {
    if gs == [] then [] else Render(gs[..|gs| - 1]) + [Join(gs[|gs| - 1], ' ')]
  }

  /** `wrap_text`: the words of `text` in greedily filled lines. */
  method WrapText(text: string, p: WrapParams) returns (result: seq<string>)
    ensures result == Render(WrapGroups(p, text))
  {
    var words := Split(text, ' ');
    ghost var done: seq<seq<string>> := [];
    ghost var group := [words[0]];
    result := [];
    var currentLine := words[0];
    var currentWidthPx := WordWidth(p, words[0]);
    var spaceWidth := SpaceWidth(p);
    var wrapWidthPx := WrapWidth(p);
    var k := 1;
    while k < |words|
      invariant 1 <= k <= |words|
      invariant result == Render(done) && currentLine == Join(group, ' ') && group != []
      invariant Fill(p, done, group, currentWidthPx, words[k..]) == WrapGroups(p, text)
    {
      var word := words[k];
      var wordWidth := WordWidth(p, word);
      assert words[k..][1..] == words[k + 1..];
      if currentWidthPx + spaceWidth + wordWidth <= wrapWidthPx {
        currentWidthPx := currentWidthPx + spaceWidth + wordWidth;
        currentLine := currentLine + [' '] + word;
        JoinSnoc(group, word, ' ');
        group := group + [word];
      } else {
        result := result + [currentLine];
        done := done + [group];
        currentWidthPx := wordWidth;
        currentLine := word;
        group := [word];
      }
      k := k + 1;
    }
    result := result + [currentLine];
  }

  lemma {:induction false} JoinSnoc(g: seq<string>, w: string, sep: char)
    requires g != []
    ensures Join(g + [w], sep) == Join(g, sep) + [sep] + w
    decreases |g|
  {
    if |g| > 1 {
      assert (g + [w])[1..] == g[1..] + [w];
      JoinSnoc(g[1..], w, sep);
    }
  }

  lemma {:induction false} JoinAppend(a: seq<string>, b: seq<string>, sep: char)
    requires a != [] && b != []
    ensures Join(a + b, sep) == Join(a, sep) + [sep] + Join(b, sep)
    decreases |a|
  {
    if |a| > 1 {
      assert (a + b)[1..] == a[1..] + b;
      JoinAppend(a[1..], b, sep);
    }
  }

  /** A line that fits and whose first word was forced onto it extends wrapped lines. */
  lemma WrappedSnoc(p: WrapParams, done: seq<seq<string>>, line: seq<string>)
    requires Wrapped(p, done) && line != [] && Fits(p, line)
    requires done != [] ==> Breaks(p, done[|done| - 1], line[0])
    ensures Wrapped(p, done + [line])
  {
    assert (done + [line])[..|done|] == done;
  }

  lemma GroupWidthSnoc(p: WrapParams, g: seq<string>, w: string)
    requires g != []
    ensures GroupWidth(p, g + [w]) == GroupWidth(p, g) + SpaceWidth(p) + WordWidth(p, w)
  {
    assert (g + [w])[..|g|] == g;
  }

  /** The greedy wrap keeps the lines `Wrapped`. */
  lemma {:induction false} FillWraps(p: WrapParams, done: seq<seq<string>>, line: seq<string>, width: int, rest: seq<string>)
    requires Wrapped(p, done) && line != [] && Fits(p, line) && width == GroupWidth(p, line)
    requires done != [] ==> Breaks(p, done[|done| - 1], line[0])
    ensures Wrapped(p, Fill(p, done, line, width, rest))
    decreases |rest|
  {
    if rest == [] {
      WrappedSnoc(p, done, line);
    } else {
      var ww := WordWidth(p, rest[0]);
      var wider := width + SpaceWidth(p) + ww;
      if wider <= WrapWidth(p) {
        GroupWidthSnoc(p, line, rest[0]);
        FillWraps(p, done, line + [rest[0]], wider, rest[1..]);
      } else {
        WrappedSnoc(p, done, line);
        FillWraps(p, done + [line], [rest[0]], ww, rest[1..]);
      }
    }
  }

  /** The greedy wrap places every word, in order. */
  lemma {:induction false} FillFlattens(p: WrapParams, done: seq<seq<string>>, line: seq<string>, width: int,
                                        rest: seq<string>)
    ensures Flatten(Fill(p, done, line, width, rest)) == Flatten(done) + line + rest
    decreases |rest|
  {
    if rest == [] {
      assert (done + [line])[..|done|] == done;
    } else {
      var ww := WordWidth(p, rest[0]);
      var wider := width + SpaceWidth(p) + ww;
      if wider <= WrapWidth(p) {
        FillFlattens(p, done, line + [rest[0]], wider, rest[1..]);
        assert line + rest == line + [rest[0]] + rest[1..];
      } else {
        FillFlattens(p, done + [line], [rest[0]], ww, rest[1..]);
        assert (done + [line])[..|done|] == done;
        assert rest == [rest[0]] + rest[1..];
      }
    }
  }

  lemma {:induction false} FillKeepsLines(p: WrapParams, done: seq<seq<string>>, line: seq<string>, width: int,
                                          rest: seq<string>)
    ensures |Fill(p, done, line, width, rest)| >= |done| + 1
    decreases |rest|
  {
    if rest != [] {
      FillKeepsLines(p, done, line + [rest[0]], width + SpaceWidth(p) + WordWidth(p, rest[0]), rest[1..]);
      FillKeepsLines(p, done + [line], [rest[0]], WordWidth(p, rest[0]), rest[1..]);
    }
  }

  /** With no empty line, the lines joined by spaces read like the words joined by spaces. */
  lemma {:induction false} JoinRender(gs: seq<seq<string>>)
    requires gs != [] && forall i :: 0 <= i < |gs| ==> gs[i] != []
    ensures Flatten(gs) != [] && Join(Render(gs), ' ') == Join(Flatten(gs), ' ')
    decreases |gs|
  {
    var front := gs[..|gs| - 1];
    var last := gs[|gs| - 1];
    if front == [] {
      assert Flatten(gs) == last;
    } else {
      JoinRender(front);
      JoinAppend(Render(front), [Join(last, ' ')], ' ');
      JoinAppend(Flatten(front), last, ' ');
    }
  }

  /** `wrap_text` gives at least one line, its lines are greedily filled, and joining them with single spaces
      gives the text back: wrapping only turns some spaces into line breaks. */
  lemma WrapTextProperties(p: WrapParams, text: string)
    ensures |WrapGroups(p, text)| >= 1 && Wrapped(p, WrapGroups(p, text))
    ensures forall i :: 0 <= i < |WrapGroups(p, text)| ==>
      WrapGroups(p, text)[i] != [] && Fits(p, WrapGroups(p, text)[i])
    ensures forall i :: 1 <= i < |WrapGroups(p, text)| ==>
      Breaks(p, WrapGroups(p, text)[i - 1], WrapGroups(p, text)[i][0])
    ensures Join(Render(WrapGroups(p, text)), ' ') == text
  {
    var words := Split(text, ' ');
    WrapWords(p, words);
    JoinSplit(text, ' ');
  }

  /** The wrap of any non-empty list of words. */
  lemma WrapWords(p: WrapParams, words: seq<string>)
    requires words != []
    ensures var gs := Fill(p, [], [words[0]], WordWidth(p, words[0]), words[1..]);
      |gs| >= 1 && Wrapped(p, gs) &&
      (forall i :: 0 <= i < |gs| ==> gs[i] != [] && Fits(p, gs[i])) &&
      (forall i :: 1 <= i < |gs| ==> Breaks(p, gs[i - 1], gs[i][0])) &&
      Join(Render(gs), ' ') == Join(words, ' ')
  {
    var gs := Fill(p, [], [words[0]], WordWidth(p, words[0]), words[1..]);
    FillWraps(p, [], [words[0]], WordWidth(p, words[0]), words[1..]);
    FillFlattens(p, [], [words[0]], WordWidth(p, words[0]), words[1..]);
    FillKeepsLines(p, [], [words[0]], WordWidth(p, words[0]), words[1..]);
    WrappedLines(p, gs);
    assert Flatten(gs) == words by {
      assert Flatten([]) + [words[0]] + words[1..] == words;
    }
    JoinRender(gs);
  }
}
