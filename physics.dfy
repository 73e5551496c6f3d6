/**
  The player's kinematics as values: the tuning constants of `Player.__init__`,
  the per-tick rules (horizontal response, gravity, jump, dash) and the
  16-sub-step collision resolver of `update_position`, each as a function of
  the previous state. The `Player` class in module Actor runs the same steps
  in place and is proved to agree with these functions; the properties of the
  game's physics are proved here, about the functions.
*/
module Physics {
  import opened Wrappers
  import opened Geometry
  import opened Collision

  // Tuning constants of the player (speeds in pixels per second, times in seconds).
  const Width: real := 40.0
  const Height: real := 40.0
  const XAccel: real := 1500.0
  const TerminalXVel: real := 480.0
  const TerminalYVel: real := 900.0
  const Gravity: real := 1800.0
  const JumpStrength: real := 800.0
  const CoyoteTime: real := 0.1
  const DashStrength: real := 2400.0
  const DashLength: real := 0.08
  const DashCooldown: real := 0.8

  /** Number of sub-steps one tick's displacement is split into. */
  const Divide: nat := 16
  /** Number of upward offsets (0 .. 9 pixels) the slope probe tries. */
  const SlopeProbes: nat := 10

  // What `reset()` falls back to when no coordinates are given.
  const SpawnX: real := 100.0
  const SpawnY: real := 100.0
  /** Value of the floor timer after a reset: far outside coyote time. */
  const SpawnFloorTimer: real := 10.0

  /** The player's kinematic state: position, velocity and the two ability timers. */
  datatype Body = Body(x: real, y: real, xVel: real, yVel: real, sinceDash: real, sinceFloor: real)

  function Abs(r: real): real { if r < 0.0 then -r else r }
  function Min(a: real, b: real): real { if a <= b then a else b }
  function Max(a: real, b: real): real { if a >= b then a else b }

  /** The player's collision rectangle at (x, y). */
  function PlayerRectAt(x: real, y: real): Rect { Rect(x, y, Width, Height) }

  function BodyRect(b: Body): Rect { PlayerRectAt(b.x, b.y) }

  /** `can_jump`: the floor was touched within coyote time. */
  predicate CanJump(b: Body) { b.sinceFloor < CoyoteTime }

  /** `dashing`: the last dash started less than `DashLength` ago. */
  predicate Dashing(b: Body) { b.sinceDash < DashLength }

  /** The cooldown test of `dash()`: a dash is allowed once the timer exceeds the cooldown. */
  predicate DashReady(b: Body) { b.sinceDash > DashCooldown }

  // ---------------------------------------------------------------- reset

  /** The state `reset(coords)` installs. */
  function Spawned(coords: Option<(real, real)>): (b: Body)
    ensures coords.None? ==> b.x == SpawnX && b.y == SpawnY
    ensures coords.Some? ==> b.x == coords.value.0 && b.y == coords.value.1
    ensures b.xVel == 0.0 && b.yVel == 0.0
    ensures b.sinceDash == 0.0 && b.sinceFloor == SpawnFloorTimer
    ensures Dashing(b) && !DashReady(b) && !CanJump(b)
  {
    var (x, y) := if coords.Some? then coords.value else (SpawnX, SpawnY);
    Body(x, y, 0.0, 0.0, 0.0, SpawnFloorTimer)
  }

  // ---------------------------------------------------------------- jump

  /** `jump(override)`: fires when the player can jump or the override is set. */
  function JumpBody(b: Body, override: bool): (r: Body)
    ensures (CanJump(b) || override) ==>
      r.yVel == -JumpStrength && r.sinceFloor == b.sinceFloor + CoyoteTime &&
      r.(yVel := b.yVel, sinceFloor := b.sinceFloor) == b
    ensures !(CanJump(b) || override) ==> r == b
    ensures (CanJump(b) || override) && b.sinceFloor >= 0.0 ==> !CanJump(r)
  {
    if CanJump(b) || override then b.(yVel := -JumpStrength, sinceFloor := b.sinceFloor + CoyoteTime)
    else b
  }

  /** A second jump without an override, straight after the first, does nothing. */
  lemma JumpOnce(b: Body)
    requires b.sinceFloor >= 0.0
    ensures JumpBody(JumpBody(b, false), false) == JumpBody(b, false)
  {
  }

  // ---------------------------------------------------------------- dash

  /**
    The direction `dash()` picks: -1 for left only, +1 for right only,
    otherwise the sign of the horizontal velocity; 0 when there is none.
  */
  function DashDirection(left: bool, right: bool, xVel: real): (d: int)
    ensures -1 <= d <= 1
    ensures d == 0 <==> left == right && xVel == 0.0
    ensures left && !right ==> d == -1
    ensures !left && right ==> d == 1
    ensures left == right && xVel != 0.0 ==> (d == 1 <==> xVel > 0.0)
  {
    if left && !right then -1
    else if !left && right then 1
    else if xVel != 0.0 then (if xVel == Abs(xVel) then 1 else -1)
    else 0
  }

  /** `dash()`: a no-op during the cooldown or without a direction; otherwise a burst at dash speed. */
  function DashBody(b: Body, left: bool, right: bool): (r: Body)
    ensures !DashReady(b) || DashDirection(left, right, b.xVel) == 0 ==> r == b
    ensures DashReady(b) && DashDirection(left, right, b.xVel) != 0 ==>
      r.xVel == DashStrength * DashDirection(left, right, b.xVel) as real &&
      Abs(r.xVel) == DashStrength && r.sinceDash == 0.0 && Dashing(r) &&
      r.(xVel := b.xVel, sinceDash := b.sinceDash) == b
  {
    var d := DashDirection(left, right, b.xVel);
    if !DashReady(b) || d == 0 then b
    else b.(xVel := DashStrength * d as real, sinceDash := 0.0)
  }

  /** Dashing again straight after a dash is a no-op: the cooldown has restarted. */
  lemma DashTwiceIsNoop(b: Body, left: bool, right: bool)
    ensures DashBody(DashBody(b, left, right), left, right) == DashBody(b, left, right)
  {
  }

  // ---------------------------------------------------------------- horizontal response

  /**
    The horizontal phase of `tick`: with no direction held (or both) the speed
    decays by `XAccel * dt` toward 0; holding a direction accelerates toward
    that direction's terminal speed, at twice the rate while reversing; then
    the terminal-speed clamp. Nothing changes while dashing.
  */
  function AccelerateX(xVel: real, left: bool, right: bool, dashing: bool, dt: real): (r: real)
    ensures dashing ==> r == xVel
    ensures !dashing ==> -TerminalXVel <= r <= TerminalXVel
    // no input: decays toward 0 without changing sign
    ensures !dashing && left == right && dt >= 0.0 ==>
      (0.0 <= xVel ==> 0.0 <= r <= xVel) && (xVel <= 0.0 ==> xVel <= r <= 0.0)
    ensures !dashing && left == right && dt >= 0.0 && Abs(xVel) <= TerminalXVel ==>
      Abs(r) == Max(Abs(xVel) - XAccel * dt, 0.0)
    // (also above terminal speed, as a dash ends: decay first, then the clamp)
    ensures !dashing && left == right && dt >= 0.0 ==>
      Abs(r) == Min(Max(Abs(xVel) - XAccel * dt, 0.0), TerminalXVel)
    // right only: single rate forward, double rate while reversing, capped at terminal speed
    ensures !dashing && right && !left && dt >= 0.0 && 0.0 <= xVel && xVel + XAccel * dt <= TerminalXVel ==>
      r - xVel == XAccel * dt
    ensures !dashing && right && !left && dt >= 0.0 && -TerminalXVel <= xVel < 0.0 &&
            xVel + 2.0 * XAccel * dt <= TerminalXVel ==>
      r - xVel == 2.0 * XAccel * dt
    // left only: the mirror image
    ensures !dashing && left && !right && dt >= 0.0 && xVel <= 0.0 && -TerminalXVel <= xVel - XAccel * dt ==>
      xVel - r == XAccel * dt
    ensures !dashing && left && !right && dt >= 0.0 && 0.0 < xVel <= TerminalXVel &&
            -TerminalXVel <= xVel - 2.0 * XAccel * dt ==>
      xVel - r == 2.0 * XAccel * dt
    // a held key never slows the player in its own direction (beyond the clamp), and saturates at terminal speed
    ensures !dashing && right && !left && dt >= 0.0 ==> r >= Min(xVel, TerminalXVel)
    ensures !dashing && right && !left && dt >= 0.0 && xVel >= 0.0 && xVel + XAccel * dt >= TerminalXVel ==>
      r == TerminalXVel
    ensures !dashing && right && !left && dt >= 0.0 && xVel < 0.0 && xVel + 2.0 * XAccel * dt >= TerminalXVel ==>
      r == TerminalXVel
    ensures !dashing && right && !left && dt >= 0.0 && xVel < 0.0 && xVel + 2.0 * XAccel * dt <= TerminalXVel ==>
      r == Max(xVel + 2.0 * XAccel * dt, -TerminalXVel)
    ensures !dashing && left && !right && dt >= 0.0 ==> r <= Max(xVel, -TerminalXVel)
    ensures !dashing && left && !right && dt >= 0.0 && xVel <= 0.0 && xVel - XAccel * dt <= -TerminalXVel ==>
      r == -TerminalXVel
    ensures !dashing && left && !right && dt >= 0.0 && xVel > 0.0 && xVel - 2.0 * XAccel * dt <= -TerminalXVel ==>
      r == -TerminalXVel
    ensures !dashing && left && !right && dt >= 0.0 && xVel > 0.0 && xVel - 2.0 * XAccel * dt >= -TerminalXVel ==>
      r == Min(xVel - 2.0 * XAccel * dt, TerminalXVel)
  {
    var v :=
      if dashing then xVel
      else if left == right then
        (if xVel < 0.0 then Min(xVel + XAccel * dt, 0.0)
         else if xVel > 0.0 then Max(xVel - XAccel * dt, 0.0)
         else xVel)
      else if right then
        (if xVel < 0.0 then Min(xVel + XAccel * 2.0 * dt, TerminalXVel)
         else Min(xVel + XAccel * dt, TerminalXVel))
      else
        (if xVel > 0.0 then Max(xVel - XAccel * 2.0 * dt, -TerminalXVel)
         else Max(xVel - XAccel * dt, -TerminalXVel));
    if !dashing && v < 0.0 then Max(v, -TerminalXVel)
    else if !dashing && v > 0.0 then Min(v, TerminalXVel)
    else v
  }

  /** Gravity: the vertical velocity grows by `Gravity * dt`, capped at the terminal fall speed. */
  function Fall(yVel: real, dt: real): (r: real)
    ensures r <= TerminalYVel
    ensures yVel + Gravity * dt <= TerminalYVel ==> r - yVel == Gravity * dt
    ensures yVel + Gravity * dt > TerminalYVel ==> r == TerminalYVel
  {
    Min(yVel + Gravity * dt, TerminalYVel)
  }

  /**
    Everything `tick` does before the resolver: horizontal response (decided
    by `dashing` at the start of the tick), both timers advanced by dt,
    gravity, then a jump when the jump key is held.
  */
  function Prepare(b: Body, left: bool, right: bool, jumping: bool, dt: real): (r: Body)
    ensures r.x == b.x && r.y == b.y
    ensures r.sinceDash == b.sinceDash + dt
    ensures r.sinceFloor == b.sinceFloor + dt ||
            (jumping && r.sinceFloor == b.sinceFloor + dt + CoyoteTime && r.yVel == -JumpStrength)
    ensures r.yVel <= TerminalYVel
    ensures Dashing(b) ==> r.xVel == b.xVel
    ensures !Dashing(b) ==> Abs(r.xVel) <= TerminalXVel
    ensures r.xVel == AccelerateX(b.xVel, left, right, Dashing(b), dt)
    // the jump fires exactly when it is held and the advanced floor timer is within coyote time
    ensures jumping && b.sinceFloor + dt < CoyoteTime ==>
      r.yVel == -JumpStrength && r.sinceFloor == b.sinceFloor + dt + CoyoteTime
    ensures !(jumping && b.sinceFloor + dt < CoyoteTime) ==>
      r.yVel == Fall(b.yVel, dt) && r.sinceFloor == b.sinceFloor + dt
  {
    var h := b.(xVel := AccelerateX(b.xVel, left, right, Dashing(b), dt));
    var t := h.(sinceFloor := h.sinceFloor + dt, sinceDash := h.sinceDash + dt);
    var g := t.(yVel := Fall(t.yVel, dt));
    if jumping then JumpBody(g, false) else g
  }

  // ---------------------------------------------------------------- slope probe

  /** State of the slope probe: the current y, the horizontal velocity and whether a slope was taken. */
  datatype Probe = Probe(y: real, xVel: real, found: bool)

  /** The probe only climbs when the player is nearly still vertically or at full rightward speed. */
  predicate Climbable(xVel: real, yVel: real) { Abs(yVel) <= 1.0 || xVel >= TerminalXVel }

  /** The player's rectangle at x, lifted by i pixels from y. */
  function Lifted(x: real, y: real, i: nat): Rect { PlayerRectAt(x, y - i as real) }

  /** The friction factor applied to `x_vel` when the slope is climbed at offset i. */
  function Friction(i: nat): real { i as real / 100.0 + 0.9 }

  /** The horizontal velocity after climbing at offset i: `x_vel *= (i / 100 + 0.9)`. */
  function Rubbed(xVel: real, i: nat): real { xVel * Friction(i) }

  /** Climbing never speeds the player up. */
  lemma RubbedSlower(xVel: real, i: nat)
    requires i < SlopeProbes
    ensures Abs(Rubbed(xVel, i)) <= Abs(xVel)
  {
    var f := Friction(i);
    var d := 1.0 - f;
    assert 0.0 < d <= 0.1;
    assert Rubbed(xVel, i) == xVel - xVel * d;
    if xVel >= 0.0 {
      assert xVel * d >= 0.0 && xVel * f >= 0.0;
    } else {
      assert xVel * d <= 0.0 && xVel * f <= 0.0;
    }
  }

  /**
    The slope loop from offset i on: at each offset the player is lifted by i;
    the lift is kept (with friction) the first time the lifted position is not
    blocked (a "dead" position counts as not blocked), and undone otherwise.
  */
  function ProbeFrom(scene: Scene, x: real, yVel: real, i: nat, p: Probe): Probe
    decreases SlopeProbes - i
  {
    if i >= SlopeProbes then p
    else ProbeFrom(scene, x, yVel, i + 1, ProbeStep(scene, x, yVel, i, p))
  }

  /** The slope loop at offset i alone. */
  function ProbeStep(scene: Scene, x: real, yVel: real, i: nat, p: Probe): Probe
  {
    if !p.found && Climbable(p.xVel, yVel) && Classify(scene, Lifted(x, p.y, i)) != Blocked then
      Probe(p.y - i as real, Rubbed(p.xVel, i), true)
    else
      p
  }

  /** Reference definition: the first offset k in i .. 9 at which the lifted player is not blocked. */
  function FirstOpening(scene: Scene, x: real, y: real, i: nat): (k: Option<nat>)
    decreases SlopeProbes - i
  {
    if i >= SlopeProbes then None
    else if Classify(scene, Lifted(x, y, i)) != Blocked then Some(i)
    else FirstOpening(scene, x, y, i + 1)
  }

  lemma {:induction false} FirstOpeningIsFirst(scene: Scene, x: real, y: real, i: nat)
    ensures var k := FirstOpening(scene, x, y, i);
      (k.Some? ==> i <= k.value < SlopeProbes &&
                   Classify(scene, Lifted(x, y, k.value)) != Blocked) &&
      (forall j: nat :: i <= j < SlopeProbes && (k.None? || j < k.value) ==>
         Classify(scene, Lifted(x, y, j)) == Blocked)
    decreases SlopeProbes - i
  {
    if i < SlopeProbes && Classify(scene, Lifted(x, y, i)) == Blocked {
      FirstOpeningIsFirst(scene, x, y, i + 1);
    }
  }

  /** One step of the probe loop. */
  lemma ProbeUnfold(scene: Scene, x: real, yVel: real, i: nat, p: Probe)
    requires i < SlopeProbes
    ensures ProbeFrom(scene, x, yVel, i, p) == ProbeFrom(scene, x, yVel, i + 1, ProbeStep(scene, x, yVel, i, p))
  {
  }

  /** Once a slope has been taken the rest of the probe changes nothing. */
  lemma {:induction false} ProbeSettled(scene: Scene, x: real, yVel: real, i: nat, p: Probe)
    requires p.found
    ensures ProbeFrom(scene, x, yVel, i, p) == p
    decreases SlopeProbes - i
  {
    if i < SlopeProbes {
      ProbeSettled(scene, x, yVel, i + 1, p);
    }
  }

  /**
    The probe agrees with its reference: if climbing is allowed and some offset
    opens, the player ends lifted by the first such offset with friction
    applied; otherwise y and the velocity are restored exactly.
  */
  lemma {:induction false} ProbeMatchesFirstOpening(scene: Scene, x: real, y: real, xVel: real, yVel: real, i: nat)
    ensures var r := ProbeFrom(scene, x, yVel, i, Probe(y, xVel, false));
            var k := FirstOpening(scene, x, y, i);
      if Climbable(xVel, yVel) && k.Some? then
        r == Probe(y - k.value as real, Rubbed(xVel, k.value), true)
      else
        r == Probe(y, xVel, false)
    decreases SlopeProbes - i
  {
    if i < SlopeProbes {
      if Climbable(xVel, yVel) && Classify(scene, Lifted(x, y, i)) != Blocked {
        ProbeUnfold(scene, x, yVel, i, Probe(y, xVel, false));
        ProbeSettled(scene, x, yVel, i + 1, Probe(y - i as real, Rubbed(xVel, i), true));
      } else {
        ProbeMatchesFirstOpening(scene, x, y, xVel, yVel, i + 1);
      }
    }
  }

  /** What the resolver needs from a full probe started at offset 0. */
  lemma ProbeOutcome(scene: Scene, x: real, y: real, xVel: real, yVel: real)
    ensures var p := ProbeFrom(scene, x, yVel, 0, Probe(y, xVel, false));
      (p.found ==> Climbable(xVel, yVel) && p.y <= y && Abs(p.xVel) <= Abs(xVel) &&
                   Classify(scene, PlayerRectAt(x, p.y)) != Blocked) &&
      (!p.found ==> p == Probe(y, xVel, false))
  {
    ProbeMatchesFirstOpening(scene, x, y, xVel, yVel, 0);
    FirstOpeningIsFirst(scene, x, y, 0);
    var k := FirstOpening(scene, x, y, 0);
    if Climbable(xVel, yVel) && k.Some? {
      assert Lifted(x, y, k.value) == PlayerRectAt(x, y - k.value as real);
      RubbedSlower(xVel, k.value);
    }
  }

  // ---------------------------------------------------------------- one sub-step

  /** Result of moving along one axis for one sub-step: the new state, whether the axis may keep moving, death. */
  datatype Step = Step(body: Body, moving: bool, dead: bool)

  /** The sub-step displacement of a velocity. */
  function SubStep(vel: real, dt: real): real { vel * dt / Divide as real }

  /**
    The X half of a sub-step: move; die on a kill area; when blocked, try the
    slope probe; if no slope is taken, step back, stop horizontally, end any
    dash and stop moving along X for the rest of the tick.
  */
  function XPhase(scene: Scene, dt: real, b: Body): (r: Step)
    ensures r.dead ==> Classify(scene, BodyRect(r.body)) == Dead
    ensures !r.dead && r.moving ==> Classify(scene, BodyRect(r.body)) != Blocked
    ensures !r.dead && !r.moving ==>
      r.body.x == b.x && r.body.y == b.y && r.body.xVel == 0.0 && !Dashing(r.body) &&
      (Dashing(b) ==> r.body.sinceDash == DashLength) &&
      (!Dashing(b) ==> r.body.sinceDash == b.sinceDash)
    ensures r.moving ==> r.body.sinceDash == b.sinceDash
    ensures r.body.yVel == b.yVel && r.body.sinceFloor == b.sinceFloor
    ensures r.body.y <= b.y && (r.body.y != b.y ==> Climbable(b.xVel, b.yVel))
    ensures Abs(r.body.xVel) <= Abs(b.xVel)
    // the outcome, by what the moved position meets
    ensures var x1 := b.x + SubStep(b.xVel, dt);
      Classify(scene, PlayerRectAt(x1, b.y)) == Free ==> r == Step(b.(x := x1), true, false)
    ensures var x1 := b.x + SubStep(b.xVel, dt);
      Classify(scene, PlayerRectAt(x1, b.y)) == Dead ==> r == Step(b.(x := x1), true, true)
    ensures var x1 := b.x + SubStep(b.xVel, dt);
            var k := FirstOpening(scene, x1, b.y, 0);
      Classify(scene, PlayerRectAt(x1, b.y)) == Blocked ==>
        !r.dead &&
        (r.moving <==> Climbable(b.xVel, b.yVel) && k.Some?) &&
        (r.moving ==> r.body == b.(x := x1, y := b.y - k.value as real, xVel := Rubbed(b.xVel, k.value)))
  {
    var x1 := b.x + SubStep(b.xVel, dt);
    var v := Classify(scene, PlayerRectAt(x1, b.y));
    if v == Dead then Step(b.(x := x1), true, true)
    else if v == Free then Step(b.(x := x1), true, false)
    else
      var p := ProbeFrom(scene, x1, b.yVel, 0, Probe(b.y, b.xVel, false));
      ProbeOutcome(scene, x1, b.y, b.xVel, b.yVel);
      ProbeMatchesFirstOpening(scene, x1, b.y, b.xVel, b.yVel, 0);
      if p.found then
        Step(b.(x := x1, y := p.y, xVel := p.xVel), true, false)
      else
        Step(b.(x := x1 - SubStep(p.xVel, dt), y := p.y, xVel := 0.0,
                sinceDash := if Dashing(b) then DashLength else b.sinceDash), false, false)
  }

  /**
    The Y half of a sub-step: move; die on a kill area; when blocked, step
    back, stop vertically, and if the player was falling record a landing.
  */
  function YPhase(scene: Scene, dt: real, b: Body): (r: Step)
    ensures r.dead ==> Classify(scene, BodyRect(r.body)) == Dead
    ensures !r.dead && r.moving ==> Classify(scene, BodyRect(r.body)) == Free
    ensures !r.dead && !r.moving ==>
      r.body.y == b.y && r.body.yVel == 0.0 &&
      (b.yVel > 0.0 ==> r.body.sinceFloor == 0.0 && CanJump(r.body)) &&
      (b.yVel <= 0.0 ==> r.body.sinceFloor == b.sinceFloor)
    ensures r.moving ==> r.body.yVel == b.yVel && r.body.sinceFloor == b.sinceFloor
    ensures r.body.x == b.x && r.body.xVel == b.xVel && r.body.sinceDash == b.sinceDash
    // the outcome, by what the moved position meets
    ensures var y1 := b.y + SubStep(b.yVel, dt);
      Classify(scene, PlayerRectAt(b.x, y1)) == Free ==> r == Step(b.(y := y1), true, false)
    ensures var y1 := b.y + SubStep(b.yVel, dt);
      Classify(scene, PlayerRectAt(b.x, y1)) == Dead ==> r == Step(b.(y := y1), true, true)
    ensures Classify(scene, PlayerRectAt(b.x, b.y + SubStep(b.yVel, dt))) == Blocked ==> !r.dead && !r.moving
  {
    var y1 := b.y + SubStep(b.yVel, dt);
    var v := Classify(scene, PlayerRectAt(b.x, y1));
    if v == Dead then Step(b.(y := y1), true, true)
    else if v == Free then Step(b.(y := y1), true, false)
    else
      Step(b.(y := y1 - SubStep(b.yVel, dt), yVel := 0.0,
              sinceFloor := if b.yVel > 0.0 then 0.0 else b.sinceFloor), false, false)
  }

  // ---------------------------------------------------------------- the resolver

  /** A state together with whether the player died. */
  datatype Outcome = Outcome(body: Body, dead: bool)

  /**
    `update_position` with n sub-steps left: X then Y each sub-step, an axis
    that was stopped is not moved again, and death returns at once.
  */
  function Resolve(scene: Scene, dt: real, b: Body, n: nat, changeX: bool, changeY: bool): (o: Outcome)
    ensures o.dead ==> Classify(scene, BodyRect(o.body)) == Dead
    decreases n
  {
    if n == 0 then Outcome(b, false)
    else
      var sx := if changeX then XPhase(scene, dt, b) else Step(b, false, false);
      if sx.dead then Outcome(sx.body, true)
      else
        var sy := if changeY then YPhase(scene, dt, sx.body) else Step(sx.body, false, false);
        if sy.dead then Outcome(sy.body, true)
        else Resolve(scene, dt, sy.body, n - 1, changeX && sx.moving, changeY && sy.moving)
  }

  /**
    From a position outside every obstacle, the resolver never ends inside
    one: a start that is not blocked gives an end that is not blocked.
  */
  lemma {:induction false} ResolveNeverEntersSolid(scene: Scene, dt: real, b: Body, n: nat, changeX: bool, changeY: bool)
    requires Classify(scene, BodyRect(b)) != Blocked
    ensures var o := Resolve(scene, dt, b, n, changeX, changeY);
      Classify(scene, BodyRect(o.body)) != Blocked && (o.dead ==> Classify(scene, BodyRect(o.body)) == Dead)
    decreases n
  {
    if n > 0 {
      var sx := if changeX then XPhase(scene, dt, b) else Step(b, false, false);
      if !sx.dead {
        assert Classify(scene, BodyRect(sx.body)) != Blocked;
        var sy := if changeY then YPhase(scene, dt, sx.body) else Step(sx.body, false, false);
        if !sy.dead {
          assert Classify(scene, BodyRect(sy.body)) != Blocked;
          ResolveNeverEntersSolid(scene, dt, sy.body, n - 1, changeX && sx.moving, changeY && sy.moving);
        }
      }
    }
  }

  /** Once X has stopped it stays put: x, the horizontal velocity and the dash timer keep their values. */
  lemma {:induction false} ResolveXLocked(scene: Scene, dt: real, b: Body, n: nat, changeY: bool)
    ensures var o := Resolve(scene, dt, b, n, false, changeY);
      o.body.x == b.x && o.body.xVel == b.xVel && o.body.sinceDash == b.sinceDash
    decreases n
  {
    if n > 0 {
      var sy := if changeY then YPhase(scene, dt, b) else Step(b, false, false);
      if !sy.dead {
        ResolveXLocked(scene, dt, sy.body, n - 1, changeY && sy.moving);
      }
    }
  }

  /**
    Once Y has stopped, gravity no longer moves the player: the vertical
    velocity and the floor timer keep their values, and y can only rise
    (through the slope probe).
  */
  lemma {:induction false} ResolveYLocked(scene: Scene, dt: real, b: Body, n: nat, changeX: bool)
    ensures var o := Resolve(scene, dt, b, n, changeX, false);
      o.body.yVel == b.yVel && o.body.sinceFloor == b.sinceFloor && o.body.y <= b.y
    decreases n
  {
    if n > 0 {
      var sx := if changeX then XPhase(scene, dt, b) else Step(b, false, false);
      if !sx.dead {
        ResolveYLocked(scene, dt, sx.body, n - 1, changeX && sx.moving);
      }
    }
  }

  /**
    The resolver never speeds the player up: the horizontal speed only shrinks
    (slope friction, wall stop) and the vertical velocity is kept or zeroed.
  */
  lemma {:induction false} ResolveNeverAccelerates(scene: Scene, dt: real, b: Body, n: nat, changeX: bool, changeY: bool)
    ensures var o := Resolve(scene, dt, b, n, changeX, changeY);
      Abs(o.body.xVel) <= Abs(b.xVel) && (o.body.yVel == b.yVel || o.body.yVel == 0.0)
    decreases n
  {
    if n > 0 {
      var sx := if changeX then XPhase(scene, dt, b) else Step(b, false, false);
      if !sx.dead {
        var sy := if changeY then YPhase(scene, dt, sx.body) else Step(sx.body, false, false);
        if !sy.dead {
          ResolveNeverAccelerates(scene, dt, sy.body, n - 1, changeX && sx.moving, changeY && sy.moving);
        }
      }
    }
  }

  /** A level without kill areas never kills, whatever the obstacles. */
  lemma {:induction false} NoKillsNoDeath(scene: Scene, dt: real, b: Body, n: nat, changeX: bool, changeY: bool)
    requires scene.kills == []
    ensures !Resolve(scene, dt, b, n, changeX, changeY).dead
  {
    var o := Resolve(scene, dt, b, n, changeX, changeY);
    assert Classify(scene, BodyRect(o.body)) != Dead;
  }

  /**
    With nothing to collide with, each of the n sub-steps moves the player by
    one sub-step of its velocity along both axes and nothing else changes.
  */
  lemma {:induction false} ResolveFreeFlight(dt: real, b: Body, n: nat)
    ensures Resolve(Scene([], []), dt, b, n, true, true) ==
      Outcome(b.(x := b.x + n as real * SubStep(b.xVel, dt), y := b.y + n as real * SubStep(b.yVel, dt)), false)
    decreases n
  {
    if n > 0 {
      var scene := Scene([], []);
      var x1 := b.x + SubStep(b.xVel, dt);
      var y1 := b.y + SubStep(b.yVel, dt);
      assert Classify(scene, PlayerRectAt(x1, b.y)) == Free;
      var b1 := b.(x := x1);
      assert XPhase(scene, dt, b) == Step(b1, true, false);
      assert Classify(scene, PlayerRectAt(b1.x, y1)) == Free;
      assert YPhase(scene, dt, b1) == Step(b1.(y := y1), true, false);
      ResolveFreeFlight(dt, b1.(y := y1), n - 1);
      assert (n - 1) as real * SubStep(b.xVel, dt) + SubStep(b.xVel, dt) == n as real * SubStep(b.xVel, dt);
      assert (n - 1) as real * SubStep(b.yVel, dt) + SubStep(b.yVel, dt) == n as real * SubStep(b.yVel, dt);
    }
  }

  // ---------------------------------------------------------------- one tick

  /** One `tick`: prepare, resolve over `Divide` sub-steps, and reset on death. */
  function TickResult(b: Body, left: bool, right: bool, jumping: bool, scene: Scene, dt: real): (o: Outcome)
    ensures o.dead ==> o.body == Spawned(None)
    // the tick dies exactly when the resolver reports death, and a survived tick keeps the resolver's state
    ensures var res := Resolve(scene, dt, Prepare(b, left, right, jumping, dt), Divide, true, true);
      o.dead == res.dead && (!res.dead ==> o == res)
  {
    var res := Resolve(scene, dt, Prepare(b, left, right, jumping, dt), Divide, true, true);
    if res.dead then Outcome(Spawned(None), true) else res
  }

  /**
    A player at rest inside a kill area dies on the next tick and is put back
    at the spawn point with zero velocity.
  */
  lemma KillAreaRespawns(b: Body, left: bool, right: bool, jumping: bool, scene: Scene, dt: real)
    requires b.xVel == 0.0 && left == right
    requires Classify(scene, BodyRect(b)) == Dead
    ensures var o := TickResult(b, left, right, jumping, scene, dt);
      o.dead && o.body.x == SpawnX && o.body.y == SpawnY && o.body.xVel == 0.0 && o.body.yVel == 0.0
  {
    var p := Prepare(b, left, right, jumping, dt);
    assert p.xVel == 0.0;
    assert XPhase(scene, dt, p).dead;
  }

  /** From a start outside every obstacle, a tick that does not end in death ends outside every obstacle. */
  lemma TickNeverEntersSolid(b: Body, left: bool, right: bool, jumping: bool, scene: Scene, dt: real)
    requires Classify(scene, BodyRect(b)) != Blocked
    ensures var o := TickResult(b, left, right, jumping, scene, dt);
      !o.dead ==> Classify(scene, BodyRect(o.body)) != Blocked
  {
    ResolveNeverEntersSolid(scene, dt, Prepare(b, left, right, jumping, dt), Divide, true, true);
  }

  /** In a level without kill areas every tick is survived: `reset` never runs. */
  lemma TickWithoutKillsSurvives(b: Body, left: bool, right: bool, jumping: bool, scene: Scene, dt: real)
    requires scene.kills == []
    ensures var o := TickResult(b, left, right, jumping, scene, dt);
      !o.dead && o == Resolve(scene, dt, Prepare(b, left, right, jumping, dt), Divide, true, true)
  {
    NoKillsNoDeath(scene, dt, Prepare(b, left, right, jumping, dt), Divide, true, true);
  }

  /** The `Divide` sub-steps of a velocity add up to its whole displacement over dt. */
  lemma SubStepsAddUp(vel: real, dt: real)
    ensures Divide as real * SubStep(vel, dt) == vel * dt
  {
  }

  /**
    In an empty level a tick moves the prepared player by exactly its velocity
    times dt: the 16 sub-steps add up to the whole displacement.
  */
  lemma FreeFallTick(b: Body, left: bool, right: bool, jumping: bool, dt: real)
    ensures var p := Prepare(b, left, right, jumping, dt);
      TickResult(b, left, right, jumping, Scene([], []), dt) ==
        Outcome(p.(x := p.x + p.xVel * dt, y := p.y + p.yVel * dt), false)
  {
    FreeFlightResolve(dt, Prepare(b, left, right, jumping, dt));
  }

  /** The whole resolver in an empty level: one tick's displacement, no death. */
  lemma FreeFlightResolve(dt: real, p: Body)
    ensures Resolve(Scene([], []), dt, p, Divide, true, true) ==
      Outcome(p.(x := p.x + p.xVel * dt, y := p.y + p.yVel * dt), false)
  {
    ResolveFreeFlight(dt, p, Divide);
    SubStepsAddUp(p.xVel, dt);
    SubStepsAddUp(p.yVel, dt);
  }
}
