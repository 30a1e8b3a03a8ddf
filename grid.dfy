/** Row-major numbering of the cells of a grid, shared by the maps, the level and the display buffer. */
module Grid {
  lemma MulMonotone(a: int, b: int, c: int)
    requires a <= b && c >= 0
    ensures a * c <= b * c
  {
    assert b * c - a * c == (b - a) * c;
  }

  /** Cell (x, y) of a grid `w` wide has number y * w + x, and the number gives the cell back. */
  lemma RowMajorIndex(x: int, y: int, w: int)
    requires 0 <= x < w
    ensures (y * w + x) / w == y && (y * w + x) % w == x
  {
    var n := y * w + x;
    var q, r := n / w, n % w;
    assert n == q * w + r;
    assert (y - q) * w == r - x;
    if y - q >= 1 {
      MulMonotone(1, y - q, w);
    } else if y - q <= -1 {
      MulMonotone(y - q, -1, w);
    }
  }

  /** Numbering follows the rows from the top, and each row from the left. */
  lemma RowMajorOrder(x1: int, y1: int, x2: int, y2: int, w: int)
    requires 0 <= x1 < w && 0 <= x2 < w
    ensures y1 * w + x1 < y2 * w + x2 <==> y1 < y2 || (y1 == y2 && x1 < x2)
  {
    assert y2 * w + x2 - (y1 * w + x1) == (y2 - y1) * w + (x2 - x1);
    if y1 < y2 {
      MulMonotone(1, y2 - y1, w);
    } else if y1 > y2 {
      MulMonotone(y2 - y1, -1, w);
    }
  }

  /** The cells of a w x h grid are numbered 0 to w * h - 1. */
  lemma RowMajorBound(x: int, y: int, w: int, h: int)
    requires 0 <= x < w && 0 <= y < h
    ensures 0 <= y * w + x < w * h
  {
    MulMonotone(0, y, w);
    MulMonotone(y, h - 1, w);
  }
}
