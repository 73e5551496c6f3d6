/**
  The portals of portal.py: a pair of same-sized rectangles. A portal is never
  changed after construction, so it is a value; its `tick` does nothing.
*/
module Portals {
  import opened Geometry
  import Actor

  datatype Portal = Portal(x1: real, y1: real, x2: real, y2: real, width: real, height: real, vertical: bool)
  {
    /** `vertical` is derived from the size: a portal is vertical when it is no wider than it is tall. */
    predicate Valid() { vertical == (width <= height) }

    /** `rect_1`: the first end, at `coords_1`. */
    function Rect1(): (r: Rect)
      ensures r.x == x1 && r.y == y1 && r.width == width && r.height == height
    {
      Rect(x1, y1, width, height)
    }

    /** `rect_2`: the second end, at `coords_2`, of the same size as the first. */
    function Rect2(): (r: Rect)
      ensures r.x == x2 && r.y == y2
      ensures r.width == Rect1().width && r.height == Rect1().height
    {
      Rect(x2, y2, width, height)
    }

    /** `screen_rect_1`: `rect_1` seen from a screen whose top-left corner is (screenX, screenY). */
    function ScreenRect1(screenX: real, screenY: real): (r: Rect)
      ensures r == Rect1().Translate(-screenX, -screenY)
    {
      Rect(x1 - screenX, y1 - screenY, width, height)
    }

    /** `screen_rect_2`: `rect_2` seen from a screen whose top-left corner is (screenX, screenY). */
    function ScreenRect2(screenX: real, screenY: real): (r: Rect)
      ensures r == Rect2().Translate(-screenX, -screenY)
    {
      Rect(x2 - screenX, y2 - screenY, width, height)
    }

    /** `tick` does nothing: neither the portal nor the player changes. */
    method Tick(player: Actor.Player)
      ensures unchanged(player)
    {
    }
  }

  /** `Portal.__init__`: records both ends and the size and derives `vertical`. */
  function NewPortal(coords1: (real, real), coords2: (real, real), dims: (real, real)): (p: Portal)
    ensures p.Valid()
    ensures p.vertical <==> dims.0 <= dims.1
    ensures p.Rect1() == Rect(coords1.0, coords1.1, dims.0, dims.1)
    ensures p.Rect2() == Rect(coords2.0, coords2.1, dims.0, dims.1)
  {
    Portal(coords1.0, coords1.1, coords2.0, coords2.1, dims.0, dims.1, dims.0 <= dims.1)
  }
}
