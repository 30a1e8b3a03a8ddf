/**
 * Grid points, the Chebyshev ("tile") distance, the partial order on points
 * and the square-area iterator of src/point.rs. Coordinates are unbounded:
 * the i32 overflow of `+` and `abs` is outside this model.
 */
module Point {
  import opened Base

  datatype Point = Point(x: int, y: int)

  datatype Ordering = Less | Equal | Greater

  /** The number of king moves between two tiles. */
  function TileDistance(a: Point, b: Point): (d: nat)
    ensures Abs(a.x - b.x) <= d && Abs(a.y - b.y) <= d
    ensures d == Abs(a.x - b.x) || d == Abs(a.y - b.y)
    ensures d == 0 <==> a == b
  {
    Max(Abs(a.x - b.x), Abs(a.y - b.y))
  }

  lemma TileDistanceSymmetric(a: Point, b: Point)
    ensures TileDistance(a, b) == TileDistance(b, a)
  {
  }

  lemma TileDistanceTriangle(a: Point, b: Point, c: Point)
    ensures TileDistance(a, c) <= TileDistance(a, b) + TileDistance(b, c)
  {
  }

  /** `Point + (i32, i32)`. */
  function Offset(p: Point, dx: int, dy: int): (q: Point)
    ensures q.x - p.x == dx && q.y - p.y == dy
  {
    Point(p.x + dx, p.y + dy)
  }

  /** `Point + Point`. */
  function Add(p: Point, q: Point): (r: Point)
    ensures r == Offset(p, q.x, q.y)
  {
    Point(p.x + q.x, p.y + q.y)
  }

  /** Equal when equal, Less / Greater only when both coordinates agree, otherwise unordered. */
  function PartialCmp(a: Point, b: Point): (o: Option<Ordering>)
    ensures o == Some(Equal) <==> a == b
    ensures o == Some(Less) <==> a != b && a.x < b.x && a.y < b.y
    ensures o == Some(Greater) <==> a != b && a.x > b.x && a.y > b.y
  {
    if a == b then Some(Equal)
    else if a.x < b.x && a.y < b.y then Some(Less)
    else if a.x > b.x && a.y > b.y then Some(Greater)
    else None
  }

  /** The order is consistent from both sides. */
  lemma PartialCmpDual(a: Point, b: Point)
    ensures PartialCmp(a, b) == Some(Less) <==> PartialCmp(b, a) == Some(Greater)
    ensures PartialCmp(a, b).None? <==> PartialCmp(b, a).None?
  {
  }

  lemma PartialCmpTransitive(a: Point, b: Point, c: Point)
    requires PartialCmp(a, b) == Some(Less) && PartialCmp(b, c) == Some(Less)
    ensures PartialCmp(a, c) == Some(Less)
  {
  }

  /** The points still to come from a row-major cursor at (x, y) over columns minX..maxX and rows up to maxY. */
  function Rest(x: int, y: int, minX: int, maxX: int, maxY: int): seq<Point>
    decreases if y > maxY then 0 else maxY - y + 1, if x > maxX then 0 else maxX - x + 1
  {
    if y > maxY then []
    else if x > maxX then Rest(minX, y + 1, minX, maxX, maxY)
    else [Point(x, y)] + Rest(x + 1, y, minX, maxX, maxY)
  }

  /** Every point of the square of the given half side, row by row. */
  function Square(center: Point, half: int): seq<Point>
  {
    Rest(center.x - half, center.y - half, center.x - half, center.x + half, center.y + half)
  }

  lemma {:induction false} RestMembership(x: int, y: int, minX: int, maxX: int, maxY: int, p: Point)
    requires minX <= x
    ensures p in Rest(x, y, minX, maxX, maxY) <==>
      minX <= p.x <= maxX && p.y <= maxY && ((p.y == y && x <= p.x) || y < p.y)
    decreases if y > maxY then 0 else maxY - y + 1, if x > maxX then 0 else maxX - x + 1
  {
    if y > maxY {
    } else if x > maxX {
      RestMembership(minX, y + 1, minX, maxX, maxY, p);
    } else {
      RestMembership(x + 1, y, minX, maxX, maxY, p);
    }
  }

  lemma {:induction false} RestLength(x: int, y: int, minX: int, maxX: int, maxY: int)
    requires minX <= x <= maxX + 1 && y <= maxY + 1
    ensures y <= maxY ==> |Rest(x, y, minX, maxX, maxY)| == (maxX - x + 1) + (maxY - y) * (maxX - minX + 1)
    ensures y > maxY ==> |Rest(x, y, minX, maxX, maxY)| == 0
    decreases if y > maxY then 0 else maxY - y + 1, if x > maxX then 0 else maxX - x + 1
  {
    if y > maxY {
    } else if x > maxX {
      RestLength(minX, y + 1, minX, maxX, maxY);
    } else {
      RestLength(x + 1, y, minX, maxX, maxY);
    }
  }

  /** Row-major precedence. */
  predicate Before(p: Point, q: Point)
  {
    p.y < q.y || (p.y == q.y && p.x < q.x)
  }

  predicate Increasing(s: seq<Point>)
  {
    forall i, j :: 0 <= i < j < |s| ==> Before(s[i], s[j])
  }

  lemma {:induction false} RestOrdered(x: int, y: int, minX: int, maxX: int, maxY: int)
    requires minX <= x
    ensures Increasing(Rest(x, y, minX, maxX, maxY))
    decreases if y > maxY then 0 else maxY - y + 1, if x > maxX then 0 else maxX - x + 1
  {
    if y > maxY {
    } else if x > maxX {
      assert Rest(x, y, minX, maxX, maxY) == Rest(minX, y + 1, minX, maxX, maxY);
      RestOrdered(minX, y + 1, minX, maxX, maxY);
    } else {
      var tail := Rest(x + 1, y, minX, maxX, maxY);
      RestOrdered(x + 1, y, minX, maxX, maxY);
      forall q | q in tail
        ensures Before(Point(x, y), q)
      {
        RestMembership(x + 1, y, minX, maxX, maxY, q);
      }
      var r := Rest(x, y, minX, maxX, maxY);
      assert r == [Point(x, y)] + tail;
      forall i, j | 0 <= i < j < |r|
        ensures Before(r[i], r[j])
      {
        assert r[j] == tail[j - 1];
        if i > 0 {
          assert r[i] == tail[i - 1];
          assert Increasing(tail);
          assert Before(tail[i - 1], tail[j - 1]);
        } else {
          assert tail[j - 1] in tail;
        }
      }
    }
  }

  /** The square holds exactly the points within tile distance `half` of its centre. */
  lemma SquareMembership(center: Point, half: int, p: Point)
    requires half >= 0
    ensures p in Square(center, half) <==> TileDistance(p, center) <= half
  {
    RestMembership(center.x - half, center.y - half, center.x - half, center.x + half, center.y + half, p);
  }

  /** Each point of the square once: (2h + 1)^2 points, strictly increasing in row-major order. */
  lemma SquareShape(center: Point, half: int)
    requires half >= 0
    ensures |Square(center, half)| == (2 * half + 1) * (2 * half + 1)
    ensures Increasing(Square(center, half))
  {
    RestLength(center.x - half, center.y - half, center.x - half, center.x + half, center.y + half);
    RestOrdered(center.x - half, center.y - half, center.x - half, center.x + half, center.y + half);
  }

  /** A negative half side yields nothing. */
  lemma SquareNegative(center: Point, half: int)
    requires half < 0
    ensures Square(center, half) == []
  {
  }

  /** The `SquareArea` iterator: yields (x, y), then steps right, wrapping to the next row. */
  class SquareArea {
    var x: int
    var y: int
    const minX: int
    const maxX: int
    const maxY: int

    ghost predicate Valid()
      reads this
    {
      y > maxY || minX <= x <= maxX
    }

    /** What the iterator will still yield. */
    function Remaining(): seq<Point>
      reads this
    {
      Rest(x, y, minX, maxX, maxY)
    }

    constructor(center: Point, half: int)
      ensures Valid()
      ensures Remaining() == Square(center, half)
    {
      x := center.x - half;
      y := center.y - half;
      minX := center.x - half;
      maxX := center.x + half;
      maxY := center.y + half;
    }

    method Next() returns (p: Option<Point>)
      requires Valid()
      modifies this
      ensures Valid()
      ensures old(Remaining()) == [] ==> p == None && Remaining() == []
      ensures old(Remaining()) != [] ==> p == Some(old(Remaining())[0]) && Remaining() == old(Remaining())[1..]
    {
      if y > maxY {
        return None;
      }
      p := Some(Point(x, y));
      x := x + 1;
      if x > maxX {
        assert Rest(x, y, minX, maxX, maxY) == Rest(minX, y + 1, minX, maxX, maxY);
        y := y + 1;
        x := minX;
      }
    }
  }

  /** Draining the iterator yields the whole square in row-major order. */
  method Collect(center: Point, half: int) returns (ps: seq<Point>)
    ensures ps == Square(center, half)
  {
    var it := new SquareArea(center, half);
    ps := [];
    while true
      invariant it.Valid()
      invariant ps + it.Remaining() == Square(center, half)
      decreases |it.Remaining()|
    {
      var p := it.Next();
      if p.None? {
        break;
      }
      ps := ps + [p.value];
    }
  }

  lemma SquareOfRadiusOne()
    ensures Square(Point(0, 0), 1) == [Point(-1, -1), Point(0, -1), Point(1, -1),
                                      Point(-1, 0), Point(0, 0), Point(1, 0),
                                      Point(-1, 1), Point(0, 1), Point(1, 1)]
    ensures Square(Point(3, 3), 0) == [Point(3, 3)]
  {
  }
}
