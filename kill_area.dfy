/** The kill areas of kill_area.py: rectangles that kill the player on contact. */
module KillAreas {
  import opened Geometry

  class KillArea {
    var x: real
    var y: real
    const width: real
    const height: real
    const moving: bool
    const xVel: real := 1.5
    const yVel: real := 0.0

    constructor (coords: (real, real), dims: (real, real), moving: bool)
      ensures x == coords.0 && y == coords.1
      ensures width == dims.0 && height == dims.1 && this.moving == moving
    {
      x, y := coords.0, coords.1;
      width, height := dims.0, dims.1;
      this.moving := moving;
    }

    /** `rect`: at (x, y) with the area's size. */
    function Rect(): (r: Geometry.Rect)
      reads this
      ensures r.x == x && r.y == y && r.width == width && r.height == height
    {
      Geometry.Rect(x, y, width, height)
    }

    /** `screen_rect`: `rect` seen from a screen whose top-left corner is (screenX, screenY). */
    function ScreenRect(screenX: real, screenY: real): (r: Geometry.Rect)
      reads this
      ensures r == Rect().Translate(-screenX, -screenY)
    {
      Geometry.Rect(x - screenX, y - screenY, width, height)
    }

    /** `tick`: move by (1.5, 0) when `moving`; the size is constant. */
    method Tick()
      modifies this`x, this`y
      ensures moving ==> x == old(x) + 1.5 && y == old(y)
      ensures !moving ==> x == old(x) && y == old(y)
    {
      if moving {
        x := x + xVel;
        y := y + yVel;
      }
    }
  }

  /** The objects of a list of kill areas. */
  function AreaFootprint(areas: seq<KillArea>): (r: set<object>)
    ensures forall i :: 0 <= i < |areas| ==> areas[i] in r
  {
    set a | a in areas
  }

  /** The rectangles of a list of kill areas, in order. */
  function KillRects(areas: seq<KillArea>): (rs: seq<Rect>)
    reads AreaFootprint(areas)
    ensures |rs| == |areas|
    ensures forall i :: 0 <= i < |areas| ==> rs[i] == areas[i].Rect()
  {
    if areas == [] then []
    else [areas[0].Rect()] + KillRects(areas[1..])
  }
}
