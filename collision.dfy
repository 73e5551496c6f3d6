/**
  The collision world as the player sees it, and the three-way position
  classifier of `Player.valid_position`: kill areas first, then rectangle
  obstacles, then pixel-mask obstacles.
*/
module Collision {
  import opened Geometry

  /**
    A pygame pixel mask, reduced to the one question the game asks of it: does
    it overlap a solid player-sized mask placed at offset (dx, dy) from the
    mask's top-left corner? The pixel-level test is pygame's `mask.overlap`.
  */
  datatype Mask = Mask(overlapsPlayerAt: (real, real) -> bool)

  /** An obstacle's collision shape: an exact rectangle (`Platform`) or a mask with its top-left corner. */
  datatype Solid = RectSolid(rect: Rect) | MaskSolid(xTl: real, yTl: real, mask: Mask)

  /** Everything the player can collide with during one tick. */
  datatype Scene = Scene(solids: seq<Solid>, kills: seq<Rect>)

  /** The result of `valid_position`: `True`, `False` or `"dead"`. */
  datatype Validity = Free | Blocked | Dead

  /** Does the player rectangle r collide with solid s? */
  predicate SolidHit(s: Solid, r: Rect)
  {
    match s
    case RectSolid(q) => Overlaps(r, q)
    case MaskSolid(tx, ty, m) => m.overlapsPlayerAt(r.x - tx, r.y - ty)
  }

  predicate HitsKill(kills: seq<Rect>, r: Rect)
  {
    exists i :: 0 <= i < |kills| && Overlaps(r, kills[i])
  }

  predicate HitsSolid(solids: seq<Solid>, r: Rect)
  {
    exists i :: 0 <= i < |solids| && SolidHit(solids[i], r)
  }

  /** Reference classification of the player rectangle r: dead beats blocked beats free. */
  function Classify(scene: Scene, r: Rect): (v: Validity)
    ensures scene.kills == [] ==> v != Dead
    ensures scene.solids == [] ==> v != Blocked
  {
    if HitsKill(scene.kills, r) then Dead
    else if HitsSolid(scene.solids, r) then Blocked
    else Free
  }

  /** Kill areas take precedence: a position overlapping one is dead whatever the obstacles. */
  lemma KillBeatsObstacles(scene: Scene, extra: seq<Solid>, r: Rect)
    requires HitsKill(scene.kills, r)
    ensures Classify(Scene(scene.solids + extra, scene.kills), r) == Dead
  {
  }
}
