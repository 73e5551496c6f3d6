/**
  The obstacles of platforms.py: rectangular platforms, circles and image
  stages. Platforms and circles move by a fixed velocity each frame when
  `moving` is set; a platform also carries an overlapping player along. The
  game keeps them in one list, modelled as the `Obstacle` variant over the
  three classes.
*/
module Platforms {
  import opened Geometry
  import opened Collision
  import Physics
  import Actor

  /** The velocity every platform and circle is given: 1.5 pixels per frame to the right. */
  const DefaultXVel: real := 1.5
  const DefaultYVel: real := 0.0

  class Platform {
    var x: real
    var y: real
    const width: real
    const height: real
    const moving: bool
    const xVel: real := DefaultXVel
    const yVel: real := DefaultYVel
    /** Platforms are tested as exact rectangles. */
    const hasRect: bool := true

    constructor (coords: (real, real), dims: (real, real), moving: bool)
      ensures x == coords.0 && y == coords.1
      ensures width == dims.0 && height == dims.1 && this.moving == moving
    {
      x, y := coords.0, coords.1;
      width, height := dims.0, dims.1;
      this.moving := moving;
    }

    /** `rect`: the collision rectangle, at (x, y) with the platform's size. */
    function Rect(): (r: Geometry.Rect)
      reads this
      ensures r.x == x && r.y == y && r.width == width && r.height == height
    {
      Geometry.Rect(x, y, width, height)
    }

    /** `screen_rect`: `rect` seen from a screen whose top-left corner is (screenX, screenY). */
    function ScreenRect(screenX: real, screenY: real): (r: Geometry.Rect)
      reads this
      ensures r == Rect().Translate(-screenX, -screenY)
    {
      Geometry.Rect(x - screenX, y - screenY, width, height)
    }

    /**
      `tick`: move by the velocity when `moving`; then, if the player overlaps
      the platform where it now is, push the player by the velocity rounded up.
      Nothing else about the player changes.
    */
    method Tick(player: Actor.Player)
      modifies this`x, this`y, player`x, player`y
      ensures x == old(x) + (if moving then xVel else 0.0)
      ensures y == old(y) + (if moving then yVel else 0.0)
      ensures Overlaps(Physics.PlayerRectAt(old(player.x), old(player.y)), Rect()) ==>
        player.x == old(player.x) + Ceil(xVel) as real && player.y == old(player.y) + Ceil(yVel) as real
      ensures !Overlaps(Physics.PlayerRectAt(old(player.x), old(player.y)), Rect()) ==>
        player.x == old(player.x) && player.y == old(player.y)
    {
      if moving {
        x := x + xVel;
        y := y + yVel;
      }
      if Overlaps(player.Rect(), Rect()) {
        player.x := player.x + Ceil(xVel) as real;
        player.y := player.y + Ceil(yVel) as real;
      }
    }
  }

  /** With the default velocity the carried player is pushed 2 pixels right and not vertically. */
  lemma DefaultCarry()
    ensures Ceil(DefaultXVel) == 2 && Ceil(DefaultYVel) == 0
  {
    assert (1.5).Floor == 1;
  }

  class Circle {
    /** The centre. */
    var x: real
    var y: real
    const radius: real
    const moving: bool
    const xVel: real := DefaultXVel
    const yVel: real := DefaultYVel
    /** Circles are tested through their pixel mask. */
    const hasRect: bool := false
    /** The mask pygame draws for the circle, given at construction. */
    const mask: Mask

    constructor (coords: (real, real), radius: real, mask: Mask, moving: bool)
      ensures x == coords.0 && y == coords.1 && this.radius == radius && this.moving == moving
      ensures this.mask == mask
    {
      x, y := coords.0, coords.1;
      this.radius := radius;
      this.mask := mask;
      this.moving := moving;
    }

    /** `x_tl`: the left edge of the bounding square, one radius left of the centre. */
    function XTl(): (r: real)
      reads this
      ensures r + radius == x
    {
      x - radius
    }

    /** `y_tl`: the top edge of the bounding square, one radius above the centre. */
    function YTl(): (r: real)
      reads this
      ensures r + radius == y
    {
      y - radius
    }

    /** `tick`: move by the velocity when `moving`; the player is not touched. */
    method Tick(player: Actor.Player)
      modifies this`x, this`y
      ensures x == old(x) + (if moving then xVel else 0.0)
      ensures y == old(y) + (if moving then yVel else 0.0)
    {
      if moving {
        x := x + xVel;
        y := y + yVel;
      }
    }
  }

  class ImageStage {
    const x: real
    const y: real
    const xTl: real
    const yTl: real
    /** The mask of the loaded image (image loading is not modelled). */
    const mask: Mask
    /** Image stages are tested through their pixel mask. */
    const hasRect: bool := false

    constructor (mask: Mask, coords: (int, int) := (0, 0))
      ensures x == coords.0 as real && y == coords.1 as real
      ensures xTl == x && yTl == y && this.mask == mask
    {
      x, y := coords.0 as real, coords.1 as real;
      xTl, yTl := coords.0 as real, coords.1 as real;
      this.mask := mask;
    }

    /** `tick` does nothing. */
    method Tick(player: Actor.Player)
      ensures unchanged(this) && unchanged(player)
    {
    }
  }

  /** One entry of the game's obstacle list. */
  datatype Obstacle = OfPlatform(platform: Platform) | OfCircle(circle: Circle) | OfImage(image: ImageStage)
  {
    /** The object behind the entry. */
    function Ref(): object
    {
      match this
      case OfPlatform(p) => p
      case OfCircle(c) => c
      case OfImage(i) => i
    }

    /** The `has_rect` flag of the object. */
    predicate HasRect()
    {
      match this
      case OfPlatform(p) => p.hasRect
      case OfCircle(c) => c.hasRect
      case OfImage(i) => i.hasRect
    }

    /** Where the obstacle is: `(x, y)` of the object. */
    function Position(): (real, real)
      reads Ref()
    {
      match this
      case OfPlatform(p) => (p.x, p.y)
      case OfCircle(c) => (c.x, c.y)
      case OfImage(i) => (i.x, i.y)
    }

    /** How far one `tick` moves the obstacle. */
    function Drift(): (real, real)
    {
      match this
      case OfPlatform(p) => if p.moving then (p.xVel, p.yVel) else (0.0, 0.0)
      case OfCircle(c) => if c.moving then (c.xVel, c.yVel) else (0.0, 0.0)
      case OfImage(_) => (0.0, 0.0)
    }

    /**
      The collision shape `valid_position` uses: platforms (the only
      obstacles with `has_rect`) by their rectangle, the others by their
      mask at their top-left corner.
    */
    function Solid(): (s: Solid)
      reads Ref()
      ensures s.RectSolid? <==> HasRect()
    {
      match this
      case OfPlatform(p) => RectSolid(p.Rect())
      case OfCircle(c) => MaskSolid(c.XTl(), c.YTl(), c.mask)
      case OfImage(i) => MaskSolid(i.xTl, i.yTl, i.mask)
    }

    /**
      `tick(player)` of the object: the obstacle moves by its drift, and only
      a platform may carry the player, by 2 pixels to the right.
    */
    method Tick(player: Actor.Player)
      modifies Ref(), player`x, player`y
      ensures Position().0 == old(Position().0) + Drift().0
      ensures Position().1 == old(Position().1) + Drift().1
      ensures player.y == old(player.y)
      ensures player.x == old(player.x) || (OfPlatform? && player.x == old(player.x) + 2.0)
    {
      DefaultCarry();
      match this
      case OfPlatform(p) => p.Tick(player);
      case OfCircle(c) => c.Tick(player);
      case OfImage(i) => i.Tick(player);
    }
  }

  /** The objects of an obstacle list. */
  function Footprint(obstacles: seq<Obstacle>): (r: set<object>)
    ensures forall i :: 0 <= i < |obstacles| ==> obstacles[i].Ref() in r
  {
    set o | o in obstacles :: o.Ref()
  }

  /** The collision shapes of an obstacle list, in order. */
  function Solids(obstacles: seq<Obstacle>): (s: seq<Solid>)
    reads Footprint(obstacles)
    ensures |s| == |obstacles|
    ensures forall i :: 0 <= i < |obstacles| ==> s[i] == obstacles[i].Solid()
  {
    if obstacles == [] then []
    else [obstacles[0].Solid()] + Solids(obstacles[1..])
  }
}
