// src/animation.rs: the areas of effect of explosions, the two iterators that
// trace the arms of a cross and of an X around a centre, and the screen fade.
// Colours are left out; durations are whole milliseconds. The timer these
// animations run on comes from src/timer.rs, which is not part of this model:
// it is taken to be the countdown timer of src/main.rs (MainRs.Timer).

module Animation {
  import opened Base
  import opened Point
  import MR = MainRs

  // ------------------------------------------------------------ tile effects

  /** The `TileEffect` bit flags. */
  const KILL: bv32 := 1
  const SHATTER: bv32 := 2

  /** The shatter tiles are tagged `KILL & SHATTER`, the intersection of two disjoint flags: no effect at all. */
  lemma KillAndShatterIsEmpty()
    ensures KILL & SHATTER == 0
    ensures KILL | SHATTER == 3
  {
  }

  // ------------------------------------------------------------------- arms

  /** The four arms the iterators walk along: the row and column of a cross, and the two diagonals of an X. */
  datatype Arm = Row | Column | Rising | Falling

  /** Offset `k` along an arm through `c`. */
  function ArmPoint(c: Point, arm: Arm, k: int): Point
  {
    match arm
    case Row => Offset(c, k, 0)
    case Column => Offset(c, 0, k)
    case Rising => Offset(c, k, -k)
    case Falling => Offset(c, k, k)
  }

  /** The point at offset `k` on any arm is `|k|` tiles away from the centre. */
  lemma ArmPointDistance(c: Point, arm: Arm, k: int)
    ensures TileDistance(c, ArmPoint(c, arm, k)) == Abs(k)
  {
  }

  /** The points of an arm at offsets `from`, `from + 1`, ..., `to`. */
  function Walk(c: Point, arm: Arm, from: int, to: int): (ps: seq<Point>)
    ensures |ps| == if from <= to then to - from + 1 else 0
    ensures forall i :: 0 <= i < |ps| ==> ps[i] == ArmPoint(c, arm, from + i)
  {
    seq(if from <= to then to - from + 1 else 0, i => ArmPoint(c, arm, from + i))
  }

  /** An arm that still has points yields the one at `from` and goes on from `from + 1`. */
  lemma WalkStep(c: Point, arm: Arm, from: int, to: int)
    requires from <= to
    ensures Walk(c, arm, from, to) == [ArmPoint(c, arm, from)] + Walk(c, arm, from + 1, to)
  {
    var ps, rest := Walk(c, arm, from, to), Walk(c, arm, from + 1, to);
    assert forall i :: 0 <= i < |rest| ==> ps[i + 1] == rest[i];
  }

  /** Everything `CrossIterator` yields: the row through the centre, then its column. */
  function Cross(c: Point, range: int): seq<Point>
  {
    Walk(c, Row, -range, range) + Walk(c, Column, -range, range)
  }

  /** Everything `XIterator` yields: the rising diagonal, then the falling one. */
  function Ex(c: Point, range: int): seq<Point>
  {
    Walk(c, Rising, -range, range) + Walk(c, Falling, -range, range)
  }

  /** A cross of range `r` has 4r + 2 points, all within tile distance `r`; the centre comes twice, in the middle of
      each arm. */
  lemma CrossShape(c: Point, r: int)
    requires r >= 0
    ensures |Cross(c, r)| == 4 * r + 2
    ensures forall p :: p in Cross(c, r) ==> TileDistance(c, p) <= r
    ensures Cross(c, r)[r] == c && Cross(c, r)[3 * r + 1] == c
    ensures forall i :: 0 <= i <= 2 * r ==> Cross(c, r)[i] == Offset(c, i - r, 0)
    ensures forall i :: 2 * r + 1 <= i <= 4 * r + 1 ==> Cross(c, r)[i] == Offset(c, 0, i - 3 * r - 1)
  {
    var first := Walk(c, Row, -r, r);
    var second := Walk(c, Column, -r, r);
    forall p | p in first + second
      ensures TileDistance(c, p) <= r
    {
      if p in first {
        var i :| 0 <= i < |first| && first[i] == p;
        assert p == ArmPoint(c, Row, i - r);
        ArmPointDistance(c, Row, i - r);
      } else {
        var i :| 0 <= i < |second| && second[i] == p;
        assert p == ArmPoint(c, Column, i - r);
        ArmPointDistance(c, Column, i - r);
      }
    }
  }

  /** An X of range `r` has 4r + 2 points, all within tile distance `r`, on the two diagonals through the centre. */
  lemma ExShape(c: Point, r: int)
    requires r >= 0
    ensures |Ex(c, r)| == 4 * r + 2
    ensures forall p :: p in Ex(c, r) ==> TileDistance(c, p) <= r
    ensures Ex(c, r)[r] == c && Ex(c, r)[3 * r + 1] == c
    ensures forall i :: 0 <= i <= 2 * r ==> Ex(c, r)[i] == Offset(c, i - r, r - i)
    ensures forall i :: 2 * r + 1 <= i <= 4 * r + 1 ==> Ex(c, r)[i] == Offset(c, i - 3 * r - 1, i - 3 * r - 1)
  {
    var first := Walk(c, Rising, -r, r);
    var second := Walk(c, Falling, -r, r);
    forall p | p in first + second
      ensures TileDistance(c, p) <= r
    {
      if p in first {
        var i :| 0 <= i < |first| && first[i] == p;
        assert p == ArmPoint(c, Rising, i - r);
        ArmPointDistance(c, Rising, i - r);
      } else {
        var i :| 0 <= i < |second| && second[i] == p;
        assert p == ArmPoint(c, Falling, i - r);
        ArmPointDistance(c, Falling, i - r);
      }
    }
  }

  // -------------------------------------------------------------- iterators

  /** The points an iterator over two arms still has to yield, given its offsets and its two flags. */
  function ArmsLeft(c: Point, range: int, first: Arm, second: Arm, firstOffset: int, secondOffset: int,
                    onFirst: bool, onSecond: bool): seq<Point>
  {
    (if onFirst then Walk(c, first, firstOffset, range) else [])
    + (if onFirst || onSecond then Walk(c, second, secondOffset, range) else [])
  }

  /** The first arm yields its point at `fo` and moves on. */
  lemma FirstArmStep(c: Point, range: int, first: Arm, second: Arm, fo: int, so: int)
    requires fo <= range
    ensures var before := ArmsLeft(c, range, first, second, fo, so, true, false);
      before != [] && before[0] == ArmPoint(c, first, fo)
      && before[1..] == ArmsLeft(c, range, first, second, fo + 1, so, true, false)
  {
    WalkStep(c, first, fo, range);
  }

  /** A used-up first arm hands over to the second without yielding. */
  lemma FirstArmDone(c: Point, range: int, first: Arm, second: Arm, fo: int, so: int)
    requires fo > range
    ensures ArmsLeft(c, range, first, second, fo, so, true, false) == ArmsLeft(c, range, first, second, fo, so, false, true)
  {
    assert Walk(c, first, fo, range) == [];
  }

  /** The second arm yields its point at `so` and moves on. */
  lemma SecondArmStep(c: Point, range: int, first: Arm, second: Arm, fo: int, so: int)
    requires so <= range
    ensures var before := ArmsLeft(c, range, first, second, fo, so, false, true);
      before != [] && before[0] == ArmPoint(c, second, so)
      && before[1..] == ArmsLeft(c, range, first, second, fo, so + 1, false, true)
  {
    WalkStep(c, second, so, range);
  }

  /** A used-up second arm leaves nothing. */
  lemma SecondArmDone(c: Point, range: int, first: Arm, second: Arm, fo: int, so: int)
    requires so > range
    ensures ArmsLeft(c, range, first, second, fo, so, false, true) == []
  {
    assert Walk(c, second, so, range) == [];
  }

  class CrossIterator {
    const center: Point
    const range: int
    var xOffset: int
    var yOffset: int
    var horizontal: bool
    var vertical: bool

    ghost predicate Valid()
      reads this
    {
      !(horizontal && vertical) && (horizontal ==> yOffset == -range)
    }

    /** What the iterator will still yield. */
    function Remaining(): seq<Point>
      reads this
    {
      ArmsLeft(center, range, Row, Column, xOffset, yOffset, horizontal, vertical)
    }

    /** `new` asserts a range of at least zero. */
    constructor(center: Point, range: int)
      requires range >= 0
      ensures Valid()
      ensures Remaining() == Cross(center, range)
    {
      this.center := center;
      this.range := range;
      xOffset := -range;
      yOffset := -range;
      horizontal := true;
      vertical := false;
    }

    /** `next`: the row first, then the column; once both are used up, None for ever. */
    method Next() returns (p: Option<Point>)
      requires Valid()
      modifies this
      ensures Valid()
      ensures old(Remaining()) == [] ==> p == None && Remaining() == []
      ensures old(Remaining()) != [] ==> p == Some(old(Remaining())[0]) && Remaining() == old(Remaining())[1..]
    {
      if horizontal {
        var x := xOffset;
        if x <= range {
          FirstArmStep(center, range, Row, Column, x, yOffset);
          xOffset := xOffset + 1;
          return Some(Offset(center, x, 0));
        } else {
          FirstArmDone(center, range, Row, Column, x, yOffset);
          horizontal := false;
          vertical := true;
        }
      }
      p := NextOnColumn();
    }

    /** The part of `next` after the row is used up. */
    method NextOnColumn() returns (p: Option<Point>)
      requires Valid() && !horizontal
      modifies this
      ensures Valid()
      ensures old(Remaining()) == [] ==> p == None && Remaining() == []
      ensures old(Remaining()) != [] ==> p == Some(old(Remaining())[0]) && Remaining() == old(Remaining())[1..]
    {
      if vertical {
        var y := yOffset;
        if y <= range {
          SecondArmStep(center, range, Row, Column, xOffset, y);
          yOffset := yOffset + 1;
          return Some(Offset(center, 0, y));
        } else {
          SecondArmDone(center, range, Row, Column, xOffset, y);
          vertical := false;
        }
      }
      return None;
    }
  }

  class XIterator {
    const center: Point
    const range: int
    var xOffset: int
    var yOffset: int
    var horizontal: bool
    var vertical: bool

    ghost predicate Valid()
      reads this
    {
      !(horizontal && vertical) && (horizontal ==> yOffset == -range)
    }

    /** What the iterator will still yield. */
    function Remaining(): seq<Point>
      reads this
    {
      ArmsLeft(center, range, Rising, Falling, xOffset, yOffset, horizontal, vertical)
    }

    /** `new` asserts a range of at least zero. */
    constructor(center: Point, range: int)
      requires range >= 0
      ensures Valid()
      ensures Remaining() == Ex(center, range)
    {
      this.center := center;
      this.range := range;
      xOffset := -range;
      yOffset := -range;
      horizontal := true;
      vertical := false;
    }

    /** `next`: the rising diagonal first, then the falling one; once both are used up, None for ever. */
    method Next() returns (p: Option<Point>)
      requires Valid()
      modifies this
      ensures Valid()
      ensures old(Remaining()) == [] ==> p == None && Remaining() == []
      ensures old(Remaining()) != [] ==> p == Some(old(Remaining())[0]) && Remaining() == old(Remaining())[1..]
    {
      if horizontal {
        var x := xOffset;
        if x <= range {
          FirstArmStep(center, range, Rising, Falling, x, yOffset);
          xOffset := xOffset + 1;
          return Some(Offset(center, x, -x));
        } else {
          FirstArmDone(center, range, Rising, Falling, x, yOffset);
          horizontal := false;
          vertical := true;
        }
      }
      p := NextOnFalling();
    }

    /** The part of `next` after the rising diagonal is used up. */
    method NextOnFalling() returns (p: Option<Point>)
      requires Valid() && !horizontal
      modifies this
      ensures Valid()
      ensures old(Remaining()) == [] ==> p == None && Remaining() == []
      ensures old(Remaining()) != [] ==> p == Some(old(Remaining())[0]) && Remaining() == old(Remaining())[1..]
    {
      if vertical {
        var y := yOffset;
        if y <= range {
          SecondArmStep(center, range, Rising, Falling, xOffset, y);
          yOffset := yOffset + 1;
          return Some(Offset(center, y, y));
        } else {
          SecondArmDone(center, range, Rising, Falling, xOffset, y);
          vertical := false;
        }
      }
      return None;
    }
  }

  /** One step of draining an iterator: the yielded point moves from what is left to what was collected. */
  lemma DrainStep(ps: seq<Point>, p: Point, rest: seq<Point>, left: seq<Point>, all: seq<Point>)
    requires ps + rest == all && rest != [] && p == rest[0] && left == rest[1..]
    ensures (ps + [p]) + left == all && |left| < |rest|
  {
    assert rest == [p] + left;
  }

  /** Draining a `CrossIterator` yields the whole cross, and it stays exhausted. */
  method CollectCross(c: Point, range: int) returns (ps: seq<Point>)
    requires range >= 0
    ensures ps == Cross(c, range)
  {
    var it := new CrossIterator(c, range);
    ghost var all := it.Remaining();
    ps := [];
    while true
      invariant it.Valid()
      invariant ps + it.Remaining() == all
      decreases |it.Remaining()|
    {
      ghost var rest := it.Remaining();
      var p := it.Next();
      if p.None? {
        break;
      }
      DrainStep(ps, p.value, rest, it.Remaining(), all);
      ps := ps + [p.value];
    }
  }

  /** Draining an `XIterator` yields the whole X. */
  method CollectEx(c: Point, range: int) returns (ps: seq<Point>)
    requires range >= 0
    ensures ps == Ex(c, range)
  {
    var it := new XIterator(c, range);
    ghost var all := it.Remaining();
    ps := [];
    while true
      invariant it.Valid()
      invariant ps + it.Remaining() == all
      decreases |it.Remaining()|
    {
      ghost var rest := it.Remaining();
      var p := it.Next();
      if p.None? {
        break;
      }
      DrainStep(ps, p.value, rest, it.Remaining(), all);
      ps := ps + [p.value];
    }
  }

  // ------------------------------------------------------------- explosions

  /** The three explosions share their fields and their `update`; they differ in the tiles they cover. */
  datatype ExplosionKind = SquareKind | CardinalKind | DiagonalKind

  /** One wave of an explosion lasts 100 ms. */
  const WAVE_DURATION: int := 100

  class Explosion {
    const kind: ExplosionKind
    const center: Point
    const maxRadius: int
    const initialRadius: int
    const waveCount: int
    var currentRadius: int
    const timer: MR.Timer

    ghost predicate Valid()
      reads this
    {
      waveCount == maxRadius - initialRadius + 1 && initialRadius <= currentRadius <= maxRadius
    }

    /** `new` asserts the initial radius is at most the maximum; there is one wave for the initial radius and one for
        each step up to the maximum, and the timer runs for all of them. */
    constructor(kind: ExplosionKind, center: Point, maxRadius: int, initialRadius: int)
      requires initialRadius <= maxRadius
      ensures Valid() && waveCount >= 1
      ensures this.kind == kind && this.center == center && this.maxRadius == maxRadius
      ensures this.initialRadius == initialRadius && currentRadius == initialRadius
      ensures fresh(timer) && timer.max == WAVE_DURATION * waveCount && timer.current == timer.max
    {
      this.kind := kind;
      this.center := center;
      this.maxRadius := maxRadius;
      this.initialRadius := initialRadius;
      waveCount := maxRadius - initialRadius + 1;
      currentRadius := initialRadius;
      timer := new MR.Timer(WAVE_DURATION * (maxRadius - initialRadius + 1));
    }

    /** `update`: a finished explosion stays as it is; otherwise the timer runs down and the radius grows from the
        initial one by `waves`, the whole number of waves the elapsed time amounts to, but never past the maximum. */
    method Update(dt: int, waves: nat)
      requires Valid()
      modifies this`currentRadius, timer`current
      ensures Valid()
      ensures old(timer.Finished()) ==> timer.current == old(timer.current) && currentRadius == old(currentRadius)
      ensures !old(timer.Finished()) ==>
        timer.current == MR.Remaining(old(timer.current), dt) && currentRadius == Min(initialRadius + waves, maxRadius)
    {
      if timer.Finished() {
      } else {
        timer.Update(dt);
        currentRadius := initialRadius + waves;
        if currentRadius > maxRadius {
          currentRadius := maxRadius;
        }
      }
    }

    predicate Finished()
      reads this, timer
    {
      timer.Finished()
    }

    /** `tiles`: a square explosion kills everything in the square of its radius; the others kill the 3 x 3 square
        around the centre and then mark the cross or the X of their radius with `KILL & SHATTER`. Making those
        iterators asserts the radius is not negative. */
    function Tiles(): (ts: seq<(Point, bv32)>)
      reads this
      requires kind != SquareKind ==> currentRadius >= 0
      ensures kind == SquareKind ==> (|ts| == |Square(center, currentRadius)| &&
                                      forall i :: 0 <= i < |ts| ==> ts[i] == (Square(center, currentRadius)[i], KILL))
      ensures kind != SquareKind ==> |ts| == 9 + 4 * currentRadius + 2
      ensures kind != SquareKind ==> forall i :: 0 <= i < 9 ==> ts[i].1 == KILL
      ensures kind != SquareKind ==> ts[..9] == Tagged(Square(center, 1), KILL)
      ensures kind != SquareKind ==> forall i :: 9 <= i < |ts| ==> ts[i].1 == 0
      ensures kind == CardinalKind ==> ts[9..] == Tagged(Cross(center, currentRadius), 0)
      ensures kind == DiagonalKind ==> ts[9..] == Tagged(Ex(center, currentRadius), 0)
    {
      if kind == SquareKind then Tagged(Square(center, currentRadius), KILL)
      else
        var killZone := Tagged(Square(center, 1), KILL);
        var shatter := Tagged(if kind == CardinalKind then Cross(center, currentRadius) else Ex(center, currentRadius),
                              KILL & SHATTER);
        SquareShape(center, 1);
        KillAndShatterIsEmpty();
        assert |killZone| == 9;
        killZone + shatter
    }

    /** `tiles` as evidently intended: the cross or X arms both kill and shatter, `KILL | SHATTER`. The points are
        those of `tiles`, and the square kind and the 3 x 3 kill zone are unchanged. */
    function IntendedTiles(): (ts: seq<(Point, bv32)>)
      reads this
      requires kind != SquareKind ==> currentRadius >= 0
      ensures |ts| == |Tiles()|
      ensures forall i :: 0 <= i < |ts| ==> ts[i].0 == Tiles()[i].0 && ts[i].1 & KILL == KILL
      ensures kind == SquareKind ==> ts == Tiles()
      ensures kind != SquareKind ==> ts[..9] == Tiles()[..9]
      ensures kind != SquareKind ==> forall i :: 9 <= i < |ts| ==> ts[i].1 & SHATTER == SHATTER
    {
      if kind == SquareKind then Tagged(Square(center, currentRadius), KILL)
      else
        var killZone := Tagged(Square(center, 1), KILL);
        var shatter := Tagged(if kind == CardinalKind then Cross(center, currentRadius) else Ex(center, currentRadius),
                              KILL | SHATTER);
        SquareShape(center, 1);
        KillAndShatterIsEmpty();
        assert |killZone| == 9;
        killZone + shatter
    }
  }

  /** The first arm tile of a cross or X explosion carries neither flag as written, and both as intended. */
  lemma ArmTileHasNoEffect(e: Explosion)
    requires e.kind != SquareKind && e.currentRadius >= 0
    ensures |e.Tiles()| > 9
    ensures e.Tiles()[9].1 & KILL == 0 && e.Tiles()[9].1 & SHATTER == 0
    ensures e.IntendedTiles()[9].1 == KILL | SHATTER
  {
  }

  /** Every point of an area paired with one effect. */
  function Tagged(ps: seq<Point>, effect: bv32): (ts: seq<(Point, bv32)>)
    ensures |ts| == |ps|
    ensures forall i :: 0 <= i < |ts| ==> ts[i] == (ps[i], effect)
  {
    if ps == [] then [] else [(ps[0], effect)] + Tagged(ps[1..], effect)
  }

  // ------------------------------------------------------------ screen fade

  /** `ScreenFade`, the same phase machine as the screen fade of src/main.rs. */
  class ScreenFade {
    const fadeOutTime: int
    const waitTime: int
    const fadeInTime: int
    var timer: MR.Timer
    var phase: MR.FadePhase

    /** `new`: fading out, on a timer of the fade-out time. */
    constructor(fadeOut: int, wait: int, fadeIn: int)
      ensures fadeOutTime == fadeOut && waitTime == wait && fadeInTime == fadeIn
      ensures fresh(timer) && timer.max == fadeOut && timer.current == fadeOut && phase == MR.FadeOut
    {
      fadeOutTime := fadeOut;
      waitTime := wait;
      fadeInTime := fadeIn;
      timer := new MR.Timer(fadeOut);
      phase := MR.FadeOut;
    }

    /** `update`: the timer runs down; once it has finished the phase moves on by one, FadeOut to Wait to FadeIn to
        Done, and entering Wait or FadeIn starts a timer of that phase's length. Done stays Done. */
    method Update(dt: int)
      modifies this`timer, this`phase, timer`current
      ensures phase == old(phase) || phase == MR.NextPhase(old(phase))
      ensures phase != old(phase) <==> old(phase) != MR.Done && MR.Remaining(old(timer.current), dt) == 0
      ensures old(phase) == MR.Done ==> phase == MR.Done
      ensures phase == old(phase) || old(phase) == MR.FadeIn ==>
        timer == old(timer) && timer.current == MR.Remaining(old(timer.current), dt)
      ensures phase != old(phase) && phase == MR.Wait ==>
        fresh(timer) && timer.max == waitTime && timer.current == waitTime
      ensures phase != old(phase) && phase == MR.FadeIn ==>
        fresh(timer) && timer.max == fadeInTime && timer.current == fadeInTime
    {
      timer.Update(dt);
      if timer.Finished() {
        match phase
        case FadeOut =>
          timer := new MR.Timer(waitTime);
          phase := MR.Wait;
        case Wait =>
          timer := new MR.Timer(fadeInTime);
          phase := MR.FadeIn;
        case FadeIn =>
          phase := MR.Done;
        case Done =>
      }
    }
  }
}
