// src/graphic.rs: the graphics the game draws and the glyph the textual
// display shows for each.

module Graphic {
  datatype Graphic =
    | Empty
    | Tree1 | Tree2 | Tree3 | Tree4 | Tree5 | Tree6 | Tree7 | Tree8 | Tree9 | Tree10
    | Ground1 | Ground2 | Ground3 | Ground4 | Ground5
    | Grass1 | Grass2 | Grass3 | Grass4 | Grass5 | Grass6 | Grass7 | Grass8 | Grass9
    | Player | Npc | Corpse
    | Anxiety | Depression | Hunger | Shadows | Voices
    | Dose | StrongDose | CardinalDose | DiagonalDose | Food
    | Signpost

  predicate IsTree(g: Graphic)
  {
    g in {Tree1, Tree2, Tree3, Tree4, Tree5, Tree6, Tree7, Tree8, Tree9, Tree10}
  }

  /** The ground and grass variants. */
  predicate IsFloor(g: Graphic)
  {
    g in {Ground1, Ground2, Ground3, Ground4, Ground5,
          Grass1, Grass2, Grass3, Grass4, Grass5, Grass6, Grass7, Grass8, Grass9}
  }

  /** `Into<char> for Graphic`: every tree is '#', all ground and grass '.', and both the player and other
      characters '@'. */
  function Glyph(g: Graphic): (c: char)
    ensures c == '#' <==> IsTree(g)
    ensures c == '.' <==> IsFloor(g)
    ensures c == '@' <==> g == Player || g == Npc
  {
    match g
    case Empty => ' '
    case Tree1 => '#'
    case Tree2 => '#'
    case Tree3 => '#'
    case Tree4 => '#'
    case Tree5 => '#'
    case Tree6 => '#'
    case Tree7 => '#'
    case Tree8 => '#'
    case Tree9 => '#'
    case Tree10 => '#'
    case Ground1 => '.'
    case Ground2 => '.'
    case Ground3 => '.'
    case Ground4 => '.'
    case Ground5 => '.'
    case Grass1 => '.'
    case Grass2 => '.'
    case Grass3 => '.'
    case Grass4 => '.'
    case Grass5 => '.'
    case Grass6 => '.'
    case Grass7 => '.'
    case Grass8 => '.'
    case Grass9 => '.'
    case Player => '@'
    case Npc => '@'
    case Corpse => '&'
    case Anxiety => 'a'
    case Depression => 'D'
    case Hunger => 'h'
    case Shadows => 'S'
    case Voices => 'v'
    case Dose => 'i'
    case StrongDose => 'I'
    case CardinalDose => '+'
    case DiagonalDose => 'x'
    case Food => '%'
    case Signpost => '!'
  }

  /** The glyph loses information only within the trees, within the floor and between the player and other
      characters: any other two graphics with the same glyph are the same graphic. */
  lemma GlyphCollisions(a: Graphic, b: Graphic)
    requires Glyph(a) == Glyph(b) && a != b
    ensures (IsTree(a) && IsTree(b)) || (IsFloor(a) && IsFloor(b)) || ({a, b} == {Player, Npc})
  {
  }

  /** So the textual display cannot tell the player from another character. */
  lemma PlayerLooksLikeNpc()
    ensures Glyph(Player) == Glyph(Npc) && Player != Npc
  {
  }
}
