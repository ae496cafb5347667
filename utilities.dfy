/** Geometry helpers (src/framework/utilities.py) and the numeric helpers the
    actors use: Python's `min`, `max` and `int` on a float. */
module Utilities {
  import opened Arena

  function Min(a: real, b: real): (r: real)
    ensures r <= a && r <= b && (r == a || r == b)
  {
    if a <= b then a else b
  }

  function Max(a: real, b: real): (r: real)
    ensures r >= a && r >= b && (r == a || r == b)
  {
    if a >= b then a else b
  }

  /** `min(max(v, lo), hi)`: raise to `lo`, then cap at `hi`. When the
      interval is not empty the result lies in it, and a value already inside
      is left alone. */
  function Clamp(v: real, lo: real, hi: real): (r: real)
    ensures lo <= hi ==> lo <= r <= hi
    ensures lo <= v <= hi ==> r == v
  {
    Min(Max(v, lo), hi)
  }

  /** Python's `int(r)`: truncation toward zero. */
  function Trunc(r: real): (n: int)
    ensures r >= 0.0 ==> n as real <= r < n as real + 1.0
    ensures r < 0.0 ==> n as real - 1.0 < r <= n as real
  {
    if r >= 0.0 then r.Floor else -((-r).Floor)
  }

  /** `center(pos, size)`: the middle of the box with top-left corner `pos`.
      It is the midpoint: as far from the left edge as from the right one,
      and as far from the top edge as from the bottom one. */
  function Center(pos: Point, size: Point): (c: Point)
    ensures c.x - pos.x == (pos.x + size.x) - c.x
    ensures c.y - pos.y == (pos.y + size.y) - c.y
  {
    Point(pos.x + size.x / 2.0, pos.y + size.y / 2.0)
  }

  /** The centre of a box of non-negative size lies inside the box. */
  lemma CenterInsideBox(pos: Point, size: Point)
    requires size.x >= 0.0 && size.y >= 0.0
    ensures pos.x <= Center(pos, size).x <= pos.x + size.x
    ensures pos.y <= Center(pos, size).y <= pos.y + size.y
  {
  }

  /** A zero-size box has its centre at its position. */
  lemma CenterOfPointBox(pos: Point)
    ensures Center(pos, Point(0.0, 0.0)) == pos
  {
  }

  /** `remove_pos(a, b)`: component-wise difference. Its definition is not
      part of this model; its uses in the source (offsetting by half a size,
      making a position relative to the view) read it as this. */
  function RemovePos(a: Point, b: Point): (r: Point)
    ensures r.x + b.x == a.x && r.y + b.y == a.y
  {
    Point(a.x - b.x, a.y - b.y)
  }
}
