/**
  The player object of player.py: its fields are the position, the velocities,
  the held-key flags and the two ability timers, and its methods change them in
  place. Every method is proved to agree with the value-level rule of module
  Physics, where the properties of those rules are proved.
*/
module Actor {
  import opened Wrappers
  import opened Geometry
  import opened Collision
  import opened Physics

  class Player {
    var x: real
    var y: real
    var xVel: real
    var yVel: real
    // keys held this frame, set by the game loop before `Tick`
    var right: bool
    var left: bool
    var up: bool
    var down: bool
    var jumping: bool
    var timeSinceDash: real
    var timeSinceTouchedFloor: real

    /** The kinematic part of the player, as a value. */
    function State(): Body
      reads this
    {
      Body(x, y, xVel, yVel, timeSinceDash, timeSinceTouchedFloor)
    }

    /** No key is held: the flags `reset` clears. */
    predicate NoInput()
      reads this
    {
      !right && !left && !up && !down && !jumping
    }

    /** `__init__`: the tuning constants are those of module Physics; then `reset()`. */
    constructor ()
      ensures State() == Spawned(None) && NoInput()
    {
      x, y := SpawnX, SpawnY;
      xVel, yVel := 0.0, 0.0;
      right, left, up, down, jumping := false, false, false, false, false;
      timeSinceDash := 0.0;
      timeSinceTouchedFloor := SpawnFloorTimer;
    }

    /** `reset(coords)`: back to the given coordinates, or (100, 100), at rest and with no key held. */
    method Reset(coords: Option<(real, real)>)
      modifies this
      ensures State() == Spawned(coords) && NoInput()
    {
      if coords.None? {
        x, y := SpawnX, SpawnY;
      } else {
        x, y := coords.value.0, coords.value.1;
      }
      xVel := 0.0;
      yVel := 0.0;
      right, left, up, down, jumping := false, false, false, false, false;
      timeSinceDash := 0.0;
      timeSinceTouchedFloor := SpawnFloorTimer;
    }

    /** `rect`: the collision rectangle at the player's position. */
    function Rect(): (r: Geometry.Rect)
      reads this
      ensures r == BodyRect(State())
    {
      Geometry.Rect(x, y, Width, Height)
    }

    /** `screen_rect`: the collision rectangle relative to the top-left corner of the screen. */
    function ScreenRect(screenX: real, screenY: real): (r: Geometry.Rect)
      reads this
      ensures r == Rect().Translate(-screenX, -screenY)
    {
      Geometry.Rect(x - screenX, y - screenY, Width, Height)
    }

    /** `jump(override)`: changes only the vertical velocity and the floor timer. */
    method Jump(override: bool)
      modifies this`yVel, this`timeSinceTouchedFloor
      ensures State() == JumpBody(old(State()), override)
    {
      if Physics.CanJump(State()) || override {
        yVel := -JumpStrength;
        timeSinceTouchedFloor := timeSinceTouchedFloor + CoyoteTime;
      }
    }

    /** `dash()`: changes only the horizontal velocity and the dash timer. */
    method Dash()
      modifies this`xVel, this`timeSinceDash
      ensures State() == DashBody(old(State()), left, right)
    {
      var sign: int;
      if timeSinceDash <= DashCooldown {
        return;
      } else if left && !right {
        sign := -1;
      } else if !left && right {
        sign := 1;
      } else if xVel != 0.0 {
        sign := if xVel == Abs(xVel) then 1 else -1;
      } else {
        return;
      }
      xVel := DashStrength * sign as real;
      timeSinceDash := 0.0;
    }

    /**
      `valid_position`: kill areas first ("dead"), then the rectangle
      obstacles, then the mask obstacles at the player's offset from their
      top-left corners (`False`); otherwise the position is free (`True`).
    */
    method ValidPosition(scene: Scene) returns (v: Validity)
      ensures v == Classify(scene, Rect())
    {
      var r := Rect();
      var k := 0;
      while k < |scene.kills|
        invariant 0 <= k <= |scene.kills|
        invariant forall j :: 0 <= j < k ==> !Overlaps(r, scene.kills[j])
      {
        if Overlaps(r, scene.kills[k]) {
          return Dead;
        }
        k := k + 1;
      }
      // split the obstacles into exact rectangles and masks
      var rects: seq<Geometry.Rect> := [];
      var others: seq<Solid> := [];
      var i := 0;
      while i < |scene.solids|
        invariant 0 <= i <= |scene.solids|
        invariant forall q :: q in rects ==> exists j :: 0 <= j < i && scene.solids[j] == RectSolid(q)
        invariant forall s :: s in others ==> s.MaskSolid? && s in scene.solids[..i]
        invariant forall j :: 0 <= j < i && scene.solids[j].RectSolid? ==> scene.solids[j].rect in rects
        invariant forall j :: 0 <= j < i && scene.solids[j].MaskSolid? ==> scene.solids[j] in others
      {
        var s := scene.solids[i];
        if s.RectSolid? {
          rects := rects + [s.rect];
        } else {
          others := others + [s];
        }
        i := i + 1;
      }
      var m := 0;
      while m < |rects|
        invariant 0 <= m <= |rects|
        invariant forall j :: 0 <= j < m ==> !Overlaps(r, rects[j])
      {
        if Overlaps(r, rects[m]) {
          assert SolidHit(RectSolid(rects[m]), r);
          return Blocked;
        }
        m := m + 1;
      }
      var n := 0;
      while n < |others|
        invariant 0 <= n <= |others|
        invariant forall j :: 0 <= j < n ==> !SolidHit(others[j], r)
      {
        var o := others[n];
        if o.mask.overlapsPlayerAt(x - o.xTl, y - o.yTl) {
          assert SolidHit(o, r);
          return Blocked;
        }
        n := n + 1;
      }
      forall j | 0 <= j < |scene.solids|
        ensures !SolidHit(scene.solids[j], r)
      {
        var s := scene.solids[j];
        if s.RectSolid? {
          var t :| 0 <= t < |rects| && rects[t] == s.rect;
        } else {
          var t :| 0 <= t < |others| && others[t] == s;
        }
      }
      return Free;
    }

    /**
      One offset of the slope loop of `update_position`: lift the player by i;
      keep the lift, with friction on `x_vel`, if no slope was taken yet, the
      player may climb and the lifted position is not blocked; otherwise put
      the player back.
    */
    method TryOffset(scene: Scene, i: nat, slope: bool) returns (found: bool)
      modifies this`y, this`xVel
      ensures Probe(y, xVel, found) == ProbeStep(scene, x, yVel, i, Probe(old(y), old(xVel), slope))
    {
      y := y - i as real;
      var lifted := false;
      if !slope && Climbable(xVel, yVel) {
        var w := ValidPosition(scene);
        assert Rect() == Lifted(x, old(y), i);
        lifted := w != Blocked;
      }
      if lifted {
        xVel := Rubbed(xVel, i);
        found := true;
      } else {
        y := y + i as real;
        found := slope;
      }
    }

    /**
      The slope loop of `update_position`: at offsets 0 .. 9 the player is
      lifted and kept there, with friction on `x_vel`, the first time the
      lifted position is not blocked; otherwise the lift is undone.
    */
    method ClimbSlope(scene: Scene) returns (slope: bool)
      modifies this`y, this`xVel
      ensures Probe(y, xVel, slope) == ProbeFrom(scene, x, yVel, 0, Probe(old(y), old(xVel), false))
    {
      slope := false;
      var i := 0;
      while i < SlopeProbes
        invariant 0 <= i <= SlopeProbes
        invariant ProbeFrom(scene, x, yVel, i, Probe(y, xVel, slope)) ==
                  ProbeFrom(scene, x, yVel, 0, Probe(old(y), old(xVel), false))
      {
        ProbeUnfold(scene, x, yVel, i, Probe(y, xVel, slope));
        slope := TryOffset(scene, i, slope);
        i := i + 1;
      }
    }

    /**
      The X half of one sub-step of `update_position`, including the slope
      probe; `moving` is false once X is blocked for the rest of the tick.
    */
    method MoveX(scene: Scene, dt: real) returns (moving: bool, dead: bool)
      modifies this`x, this`y, this`xVel, this`timeSinceDash
      ensures Step(State(), moving, dead) == XPhase(scene, dt, old(State()))
    {
      ghost var b := State();
      x := x + SubStep(xVel, dt);
      var valid := ValidPosition(scene);
      if valid == Dead {
        return true, true;
      }
      moving, dead := true, false;
      if valid == Blocked {
        var slope := ClimbSlope(scene);
        if !slope {
          x := x - SubStep(xVel, dt);
          xVel := 0.0;
          moving := false;
          if Physics.Dashing(State()) {
            timeSinceDash := DashLength;
          }
        }
      }
    }

    /** The Y half of one sub-step of `update_position`. */
    method MoveY(scene: Scene, dt: real) returns (moving: bool, dead: bool)
      modifies this`y, this`yVel, this`timeSinceTouchedFloor
      ensures Step(State(), moving, dead) == YPhase(scene, dt, old(State()))
    {
      y := y + SubStep(yVel, dt);
      var valid := ValidPosition(scene);
      if valid == Dead {
        return true, true;
      }
      moving, dead := true, false;
      if valid == Blocked {
        y := y - SubStep(yVel, dt);
        if yVel > 0.0 {
          timeSinceTouchedFloor := 0.0;
        }
        yVel := 0.0;
        moving := false;
      }
    }

    /**
      `update_position`: 16 sub-steps, X then Y in each, an axis stopped once
      it is blocked; returns true ("dead") as soon as a kill area is touched.
    */
    method UpdatePosition(scene: Scene, dt: real) returns (dead: bool)
      modifies this`x, this`y, this`xVel, this`yVel, this`timeSinceDash, this`timeSinceTouchedFloor
      ensures Outcome(State(), dead) == Resolve(scene, dt, old(State()), Divide, true, true)
    {
      var changeX, changeY := true, true;
      var k := 0;
      while k < Divide
        invariant 0 <= k <= Divide
        invariant Resolve(scene, dt, State(), Divide - k, changeX, changeY) ==
                  Resolve(scene, dt, old(State()), Divide, true, true)
      {
        ghost var b := State();
        var movedX, movedY := false, false;
        ghost var sx := Step(b, false, false);
        if changeX {
          var d;
          movedX, d := MoveX(scene, dt);
          sx := Step(State(), movedX, d);
          if d {
            return true;
          }
        }
        ghost var sy := Step(sx.body, false, false);
        if changeY {
          var d;
          movedY, d := MoveY(scene, dt);
          sy := Step(State(), movedY, d);
          if d {
            return true;
          }
        }
        assert State() == sy.body;
        changeX, changeY := changeX && movedX, changeY && movedY;
        k := k + 1;
      }
      return false;
    }

    /**
      The horizontal phase of `tick`: deceleration with no direction (or both)
      held, acceleration toward the held direction (doubled while reversing),
      then the terminal-speed clamp; nothing changes while dashing.
    */
    method Steer(dt: real)
      modifies this`xVel
      ensures xVel == AccelerateX(old(xVel), left, right, Physics.Dashing(State()), dt)
    {
      var dashing := Physics.Dashing(State());
      if dashing {
      } else if (right && left) || (!right && !left) {
        if xVel < 0.0 {
          xVel := Min(xVel + XAccel * dt, 0.0);
        } else if xVel > 0.0 {
          xVel := Max(xVel - XAccel * dt, 0.0);
        }
      } else if right {
        if xVel < 0.0 {
          xVel := Min(xVel + XAccel * 2.0 * dt, TerminalXVel);
        } else {
          xVel := Min(xVel + XAccel * dt, TerminalXVel);
        }
      } else if left {
        if xVel > 0.0 {
          xVel := Max(xVel - XAccel * 2.0 * dt, -TerminalXVel);
        } else {
          xVel := Max(xVel - XAccel * dt, -TerminalXVel);
        }
      }
      if !dashing && xVel < 0.0 {
        xVel := Max(xVel, -TerminalXVel);
      } else if !dashing && xVel > 0.0 {
        xVel := Min(xVel, TerminalXVel);
      }
    }

    /**
      The part of `tick` before the resolver: horizontal response, both timers
      advanced, gravity capped at the terminal fall speed, then a jump while
      the jump key is held.
    */
    method Accelerate(dt: real)
      modifies this`xVel, this`yVel, this`timeSinceDash, this`timeSinceTouchedFloor
      ensures State() == Prepare(old(State()), left, right, jumping, dt)
    {
      ghost var b := State();
      Steer(dt);
      assert xVel == AccelerateX(b.xVel, left, right, Physics.Dashing(b), dt);

      timeSinceTouchedFloor := timeSinceTouchedFloor + dt;
      timeSinceDash := timeSinceDash + dt;

      yVel := Min(yVel + Gravity * dt, TerminalYVel);
      assert yVel == Fall(b.yVel, dt);

      if jumping {
        Jump(false);
      }
    }

    /**
      `tick`: the steps of `Accelerate`, then the resolver; a death resets the
      player.
    */
    method Tick(scene: Scene, dt: real)
      modifies this
      ensures var o := TickResult(old(State()), old(left), old(right), old(jumping), scene, dt);
        State() == o.body &&
        (o.dead ==> NoInput()) &&
        (!o.dead ==> right == old(right) && left == old(left) && up == old(up) &&
                     down == old(down) && jumping == old(jumping))
    {
      Accelerate(dt);
      var dead := UpdatePosition(scene, dt);
      if dead {
        Reset(None);
      }
    }
  }
}
