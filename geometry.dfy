/**
  Axis-aligned rectangles as the game builds them with pygame's `Rect`, and the
  two roundings the game applies to coordinates (`math.ceil` and `int`).
  Coordinates are kept as reals: pygame's conversion of floats to integer
  rectangle fields is not modelled.
*/
module Geometry {

  /** A rectangle given by its top-left corner and its size. */
  datatype Rect = Rect(x: real, y: real, width: real, height: real)
  {
    /** The same rectangle moved by (dx, dy). */
    function Translate(dx: real, dy: real): (r: Rect)
      ensures r.width == width && r.height == height
      ensures r.x - x == dx && r.y - y == dy
    {
      Rect(x + dx, y + dy, width, height)
    }

    predicate Empty() { width == 0.0 || height == 0.0 }
  }

  /** Lower and upper bound of an interval given by a start and a (possibly negative) extent. */
  function Lo(start: real, extent: real): real { if extent < 0.0 then start + extent else start }
  function Hi(start: real, extent: real): real { if extent < 0.0 then start else start + extent }

  /**
    Rectangle intersection (`colliderect`): two non-empty rectangles overlap when
    their open interiors meet on both axes; an empty rectangle overlaps nothing.
  */
  predicate Overlaps(a: Rect, b: Rect)
  {
    !a.Empty() && !b.Empty() &&
    Lo(a.x, a.width) < Hi(b.x, b.width) && Lo(b.x, b.width) < Hi(a.x, a.width) &&
    Lo(a.y, a.height) < Hi(b.y, b.height) && Lo(b.y, b.height) < Hi(a.y, a.height)
  }

  /** Moving both rectangles by the same offset (as a screen rect does) keeps their overlap. */
  lemma OverlapsTranslated(a: Rect, b: Rect, dx: real, dy: real)
    ensures Overlaps(a.Translate(dx, dy), b.Translate(dx, dy)) == Overlaps(a, b)
  {
  }

  /** `math.ceil`: the least integer not below r. */
  function Ceil(r: real): (c: int)
    ensures r <= c as real < r + 1.0
  {
    var f := r.Floor;
    if f as real == r then f else f + 1
  }

  /** Python's `int()` on a float: truncation toward zero. */
  function Trunc(r: real): (t: int)
    ensures 0.0 <= r ==> 0 <= t && t as real <= r < t as real + 1.0
    ensures r < 0.0 ==> t <= 0 && t as real - 1.0 < r <= t as real
  {
    if r >= 0.0 then r.Floor else -((-r).Floor)
  }
}
