# Platformer core in Dafny

A model of the core of a small pygame platformer, with proofs about it. The
model covers:

- the player's physics and collision resolver (`player.py`);
- the obstacles it collides with (`platforms.py`, `kill_area.py`, `portal.py`);
- the non-drawing parts of the game loop (`game.py`): the edit-mode click
  state machine, the mode toggle, camera scrolling, editor panning and the
  order of updates in a platformer frame.

The modules are:

- `Geometry`: rectangles as pygame builds them, rectangle intersection
  (`colliderect`), and the two roundings the game uses (`math.ceil` and
  `int()`, which truncates toward zero).
- `Collision`: what `valid_position` sees. A `Scene` holds the obstacle
  shapes and the kill-area rectangles. `Classify` is the reference
  classification: a kill area makes a position dead; otherwise a rectangle
  or mask obstacle makes it blocked; otherwise it is free. Pixel masks are
  abstracted as a `Mask` predicate on the player's offset from the mask's
  top-left corner.
- `Physics`: the player's kinematic state as a value and every per-tick rule
  as a function of the previous state:
  - reset, jump (with coyote time) and dash (with cooldown and direction);
  - the horizontal response and gravity;
  - the slope probe, checked against a reference "first opening" definition;
  - the 16-sub-step resolver of `update_position` and one whole `tick`.

  The properties of the game's physics are proved here.
- `Actor`: the `Player` class. Its fields are updated in place exactly as in
  `player.py`, and every method is proved equal to the matching `Physics`
  function. Examples: `UpdatePosition` against `Resolve`, and `Tick` against
  `TickResult`.
- `Platforms`, `KillAreas`, `Portals`: the obstacle classes, including the
  platform that carries an overlapping player, and the `Obstacle` variant
  type that the game keeps in its obstacle list.
- `GameLoop`: the `Game` class, covering `handle_mouse_down`,
  `handle_key_down`, `control_screen_scroll`, `loop_editor`,
  `loop_platformer` and the event part of `loop`. The contract of
  `LoopPlatformer` states the frame order:
  - every obstacle moves by its drift exactly once;
  - the player is then ticked against the obstacles at their new positions;
  - the screen then scrolls after the player's new position.

  The game never ticks its kill areas; the model keeps that.

## Model

| member | source | states |
|---|---|---|
| Geometry.Rect.Translate | platforms.py:22-24 | moving a rect keeps its size and shifts its corner by exactly the offset |
| Geometry.OverlapsTranslated | platforms.py:22-24 | screen rectangles collide exactly when the level rectangles do (a common offset changes nothing) |
| Geometry.Ceil | platforms.py:37-38 | `math.ceil(v)` is the least integer not below v |
| Geometry.Trunc | game.py:108-109 | `int()` of a float truncates toward zero, for both signs |
| Collision.Classify | player.py:108-132 | the reference `valid_position`: dead when a kill rect overlaps, else blocked when an obstacle's shape does, else free; a level without kill areas never kills and one without obstacles never blocks (the loops of `Player.ValidPosition` are proved to compute it) |
| Collision.KillBeatsObstacles | player.py:111-112 | a position overlapping a kill area is "dead" whatever obstacles exist |
| Physics.Spawned | player.py:32-45 | reset goes to the given coordinates or (100, 100), at rest, dash timer 0 (so dashing and no dash ready) and floor timer 10 (no jump) |
| Physics.CanJump | player.py:56-58 | `can_jump`: the floor was touched less than coyote time (0.1 s) ago; used by `JumpBody` and set by a landing in `YPhase` |
| Physics.Dashing | player.py:60-62 | `dashing`: the last dash began less than 0.08 s ago; it freezes the horizontal response (`AccelerateX`) and is ended by a wall in `XPhase` |
| Physics.JumpBody | player.py:83-88 | a jump happens iff the player can jump (floor touched within coyote time) or it is forced; it sets the upward speed and pushes the floor timer past coyote time, changing nothing else; otherwise nothing changes |
| Physics.JumpOnce | player.py:83-88 | a second unforced jump straight after a jump does nothing |
| Physics.DashDirection | player.py:93-103 | the dash direction is -1 for left only, +1 for right only, otherwise the sign of the velocity; it is 0 exactly when neither or both keys are held and the velocity is 0 |
| Physics.DashBody | player.py:90-106 | during the cooldown or with no direction a dash does nothing; otherwise it sets the speed to ±2400 in that direction, restarts the dash timer (so the player is dashing) and changes nothing else |
| Physics.DashTwiceIsNoop | player.py:91-93 | a dash straight after a dash does nothing (the cooldown restarted) |
| Physics.AccelerateX | player.py:179-208 | while dashing the speed is untouched; otherwise it ends within ±480; with no or both keys the speed decays by 1500·dt toward 0 without changing sign, then is capped at 480 (also for a speed left over from a dash); a held key accelerates by 1500·dt, or 3000·dt while reversing, never slows the player in its own direction, and saturates at exactly ±480 when the step would pass it; a speed beyond -480 while reversing right is raised by 3000·dt and clamped to -480 (and the mirror) |
| Physics.Fall | player.py:214 | gravity adds 1800·dt to the vertical speed, capped at the terminal fall speed 900 |
| Physics.Prepare | player.py:179-217 | before the resolver the position is unchanged, the horizontal speed is `AccelerateX` of the keys (decided by whether a dash was running), both timers advance by dt; the jump fires exactly when it is held and the advanced floor timer is within coyote time, setting the upward speed and adding coyote time to the floor timer; otherwise the vertical speed is `Fall` of the old one |
| Physics.RubbedSlower | player.py:153 | slope friction `x_vel *= i/100 + 0.9` never increases the speed, for every offset 0..9 |
| Physics.FirstOpeningIsFirst | player.py:149-157 | the reference offset is the first one in 0..9 at which the lifted player is not blocked; every earlier offset is blocked |
| Physics.ProbeSettled | player.py:152 | once a slope was taken, the remaining offsets change nothing |
| Physics.ProbeMatchesFirstOpening | player.py:149-157 | the slope loop (`ProbeFrom`, offset by offset through `ProbeStep`) lifts the player by the first opening offset with that offset's friction when climbing is allowed (vertical speed at most 1, or rightward speed at least terminal) and an offset opens; otherwise y and the speed are restored exactly |
| Physics.ProbeOutcome | player.py:149-162 | a slope taken is climbable, only raises the player, does not speed it up and leaves it not blocked; no slope leaves y and the speed unchanged |
| Physics.XPhase | player.py:142-162 | an X sub-step moves x by one sub-step of the velocity; on a free position it keeps moving, on a kill area it dies; on a blocked one it never dies, and keeps moving exactly when climbing is allowed and some offset opens, lifted by the first opening (`FirstOpening`) with that offset's friction; otherwise it is back at its x and y with no horizontal speed and its dash ended; vertical speed and floor timer are always kept |
| Physics.YPhase | player.py:164-174 | a Y sub-step moves y by one sub-step of the velocity; on a free position it keeps moving, on a kill area it dies, on a blocked one it steps back and stops: the vertical speed becomes 0 and a fall marks the floor touched (so a jump is possible); x, horizontal speed and dash timer are always kept |
| Physics.Resolve | player.py:134-174 | `update_position` over 16 sub-steps: it reports death only with the player inside a kill area (its partners are the lemmas below and `Player.UpdatePosition`) |
| Physics.ResolveNeverEntersSolid | player.py:134-174 | from a start outside every obstacle, the resolver never ends inside one, and it reports death only inside a kill area |
| Physics.ResolveXLocked | player.py:142-162 | once X has stopped, x, horizontal speed and dash timer never change again in that tick |
| Physics.ResolveYLocked | player.py:164-174 | once Y has stopped, vertical speed and floor timer never change again and y can only rise |
| Physics.ResolveNeverAccelerates | player.py:134-174 | the resolver never increases the horizontal speed, and keeps or zeroes the vertical speed |
| Physics.NoKillsNoDeath | player.py:145-147 | in a level without kill areas the resolver never reports death, whatever the obstacles |
| Physics.ResolveFreeFlight | player.py:141-165 | with nothing to collide with, n sub-steps move the player by n sub-steps of its velocity on both axes and change nothing else |
| Physics.SubStepsAddUp | player.py:138-144 | the 16 sub-steps of a velocity add up to velocity × dt |
| Physics.FreeFlightResolve | player.py:134-174 | in an empty level `update_position` moves the player by exactly velocity × dt on both axes and never reports death |
| Physics.TickResult | player.py:176-221 | a tick dies exactly when `update_position` (`Resolve`) reports death from the prepared state, and then leaves the player in the reset state; a survived tick ends in the resolver's state, so the resolver lemmas carry over to the whole tick |
| Physics.TickWithoutKillsSurvives | player.py:219-221 | in a level without kill areas a tick is always survived: the result is the resolver's, and `reset` never runs |
| Physics.FreeFallTick | player.py:176-221 | in an empty level a tick moves the prepared player (speeds after keys, gravity and jump) by velocity × dt and keeps it alive |
| Physics.KillAreaRespawns | player.py:111-112 | a player inside a kill area, with no horizontal speed and no single direction held, dies on the next tick and reappears at (100, 100) at rest |
| Physics.TickNeverEntersSolid | player.py:176-221 | from a start outside every obstacle, a tick the player survives ends outside every obstacle (a player a platform pushed into an obstacle is not covered) |
| Actor.Player.constructor | player.py:9-30 | a new player is in the reset state with no key held |
| Actor.Player.Reset | player.py:32-45 | the new state is `Spawned(coords)` and every key flag is cleared |
| Actor.Player.Rect | player.py:47-50 | the collision rect is the 40×40 rect at the player's position |
| Actor.Player.ScreenRect | player.py:64-66 | the screen rect is the collision rect shifted by minus the screen corner |
| Actor.Player.Jump | player.py:83-88 | updates only the vertical speed and floor timer, to `JumpBody` |
| Actor.Player.Dash | player.py:90-106 | updates only the horizontal speed and dash timer, to `DashBody` |
| Actor.Player.ValidPosition | player.py:108-132 | the loops over kill areas, rectangle obstacles and mask obstacles return exactly `Classify` of the player's rect |
| Actor.Player.TryOffset | player.py:150-157 | one offset of the slope loop, updating y and `x_vel` in place, equals `ProbeStep` |
| Actor.Player.ClimbSlope | player.py:149-157 | the in-place slope loop ends where `ProbeFrom` says |
| Actor.Player.MoveX | player.py:142-162 | the in-place X sub-step equals `XPhase` |
| Actor.Player.MoveY | player.py:164-174 | the in-place Y sub-step equals `YPhase` |
| Actor.Player.UpdatePosition | player.py:134-174 | the 16 in-place sub-steps end in the state, and with the death flag, that `Resolve` gives |
| Actor.Player.Steer | player.py:179-208 | the in-place horizontal response equals `AccelerateX` |
| Actor.Player.Accelerate | player.py:179-217 | the in-place steps before the resolver equal `Prepare` |
| Actor.Player.Tick | player.py:176-221 | the new state is `TickResult`; on death every key flag is cleared, otherwise the flags are kept |
| Platforms.Platform.constructor | platforms.py:8-15 | position, size and the moving flag are those given |
| Platforms.Platform.Rect | platforms.py:17-20 | the collision rect is at (x, y) with the platform's size |
| Platforms.Platform.ScreenRect | platforms.py:22-24 | the screen rect is the collision rect shifted by minus the screen corner |
| Platforms.Platform.Tick | platforms.py:29-38 | the platform moves by its velocity iff it is moving; a player overlapping its new rect is pushed by the velocity rounded up, and any other player is untouched |
| Platforms.DefaultCarry | platforms.py:13-14 | with the default velocity (1.5, 0) the push is 2 pixels right and 0 down |
| Platforms.Circle.constructor | platforms.py:42-49 | centre, radius, mask and moving flag are those given |
| Platforms.Circle.XTl | platforms.py:54-56 | the mask's left edge is one radius left of the centre |
| Platforms.Circle.YTl | platforms.py:58-60 | the mask's top edge is one radius above the centre |
| Platforms.Circle.Tick | platforms.py:67-70 | the circle moves by its velocity iff it is moving; the player is not carried |
| Platforms.ImageStage.constructor | platforms.py:79-86 | the stage sits at the given corner, (0, 0) by default, with its mask's corner there |
| Platforms.ImageStage.Tick | platforms.py:93-94 | a tick changes neither the stage nor the player |
| Platforms.Obstacle.Solid | player.py:115-130 | the collision shape is a rectangle exactly for obstacles with `has_rect` (platforms); the others are tested by mask |
| Platforms.Obstacle.Tick | platforms.py:29-94 | the obstacle moves by its drift; only a platform may move the player, by 2 pixels right |
| Platforms.Solids | player.py:115-120 | the collision shapes follow the obstacle list one for one |
| KillAreas.KillArea.constructor | kill_area.py:7-13 | position, size and moving flag are those given |
| KillAreas.KillArea.Rect | kill_area.py:15-18 | the rect is at (x, y) with the area's size |
| KillAreas.KillArea.ScreenRect | kill_area.py:20-22 | the screen rect is the rect shifted by minus the screen corner |
| KillAreas.KillArea.Tick | kill_area.py:27-30 | the area moves by (1.5, 0) iff it is moving, and otherwise stays put |
| KillAreas.KillRects | player.py:111 | the kill rectangles follow the kill-area list one for one |
| Portals.NewPortal | portal.py:7-12 | a portal is vertical iff it is no wider than it is tall; both ends get the given corners and the same size |
| Portals.Portal.Rect1 | portal.py:14-17 | the first end is at its own corner with the portal's size |
| Portals.Portal.Rect2 | portal.py:19-22 | the second end has the same size as the first |
| Portals.Portal.ScreenRect1 | portal.py:24-26 | the first end's screen rect is its rect shifted by minus the screen corner |
| Portals.Portal.ScreenRect2 | portal.py:28-30 | the second end's screen rect is its rect shifted by minus the screen corner |
| Portals.Portal.Tick | portal.py:36-37 | a tick leaves the player untouched |
| GameLoop.NextMode | game.py:137-139 | the `m` key maps platformer to editor and editor to platformer, and always yields a mode in {0, 1} |
| GameLoop.ToggleTwice | game.py:137-139 | toggling twice restores the mode |
| GameLoop.Normalise | game.py:118-123 | the placed platform has non-negative width and height and has both clicks as opposite corners |
| GameLoop.NormaliseSymmetric | game.py:118-123 | the order of the two clicks does not matter |
| GameLoop.ScrollAxis | game.py:60-79 | the screen moves back exactly when the player is before the first third, and on exactly when it is not but its far edge is past the second third; the gap or overshoot then shrinks to nine tenths; otherwise the screen stays |
| GameLoop.MiddleThirdIsStill | game.py:60-79 | a player within the middle third does not scroll the screen |
| GameLoop.Pan | game.py:172-185 | each held direction pans by 5, or 25 with left shift; opposite directions cancel |
| GameLoop.SceneOf | player.py:108-132 | the collision scene lists every obstacle's shape and every kill area's rect, in order |
| GameLoop.Game.constructor | game.py:12-40 | a fresh reset player, one image stage per level image at (0, 0), no kill areas, screen at the origin, platformer mode, no pending click |
| GameLoop.Game.HandleMouseDown | game.py:106-125 | outside edit mode nothing changes; a first click records its level coordinates; a second appends one fresh fixed platform spanning both clicks and clears the pending click |
| GameLoop.Game.HandleKeyDown | game.py:127-141 | `m` toggles the mode and drops the pending click, and other keys leave both alone; jump keys jump, `f` dashes, `r` resets; other keys leave the player alone; no key but `r` changes the held-key flags |
| GameLoop.Game.ControlScreenScroll | game.py:60-79 | each screen coordinate becomes `ScrollAxis` of the player's new position |
| GameLoop.Game.LoopEditor | game.py:170-185 | each screen coordinate moves by `Pan` of the held keys |
| GameLoop.Game.TickObstacles | game.py:160-162 | every obstacle moves by its drift once, in list order; the player is only carried right, 2 pixels per carrying platform |
| GameLoop.Game.TickPlayer | game.py:164-165 | the player's new state is `TickResult` against the scene of the current obstacles, which it leaves unchanged |
| GameLoop.Game.UpdateWorld | game.py:154-165 | held keys recorded, every obstacle moved once, then the player ticked against the moved obstacles |
| GameLoop.Game.LoopPlatformer | game.py:153-168 | obstacles tick before the player, the player ticks against their new positions, and the screen then scrolls after the player |
| GameLoop.Game.HandleEvents | game.py:192-201 | a quit among the events stops the game, otherwise the running flag is kept; existing obstacles are kept and any new ones are fresh |
| GameLoop.Game.Frame | game.py:187-206 | a quit stops the game; the mode stays 0 or 1 and obstacles stay distinct |

## Left out

- Drawing is not modelled: every `draw` method, `Game.draw`, the display, the caption and the frame-rate text.
- The clock is replaced by the frame time `dt`, passed as a parameter.
- The pygame event queue and keyboard state are replaced by `Event` and `Keys` values. `handle_mouse_down` reads the mouse position with `pygame.mouse.get_pos()` when it handles the event; the model uses the position carried by the `MouseDown` event instead.
- `Game.run` (repeat `loop` until quit, then `pygame.quit`) is not modelled; `Frame` models one pass of `loop`.
- Level loading (`load_level_from_images`: directory walk and image files) is not modelled. The constructor takes the level images' masks instead.
- Pixel masks are abstract. Building them (`pygame.mask.from_surface`, the drawn circle, the player's full mask) and `mask.overlap` are foreign pygame calls. They are modelled as a `Mask` predicate on the player's offset from the mask's top-left corner.
- pygame `Rect` stores integers, but the model keeps rectangle coordinates as exact reals. The float-to-integer conversion inside `Rect` is not modelled, and neither is IEEE floating-point rounding.
- consts.py is not part of this model. `WIDTH` and `HEIGHT` are constructor parameters of `Game`, and `FPS` only feeds the clock.
- Coordinate recording is not modelled: `recording`, `recorded_coords`, and the F1/F2 keys that toggle and print it.
- The help text printed on `h` and the coordinates printed on a right click are not modelled.
- game.py:132 calls `jump(wall_jump=True)`, but `jump` (player.py:83) has no such parameter, so Python would raise a `TypeError` there. The jump keys are modelled as `jump()`.
- Player.tick takes the obstacles and kill areas as a `Scene` value built from the objects, not as the object lists. The player's tick never changes the obstacles, so nothing is lost.
- Platforms.Obstacle.Tick: states only that the player is moved 0 or 2 pixels right. `Platforms.Platform.Tick` states exactly when the push happens.
- GameLoop.Game.HandleEvents: does not state what key and mouse events do to the mode, the pending click or the player, nor that they are handled in order; the loop body passes each event to `HandleKeyDown` or `HandleMouseDown`, whose contracts state each event's effect.
- Physics.TickNeverEntersSolid: covers only a player that starts outside every obstacle. A platform can push the player into another obstacle before the player's tick, and the model does not prove that the tick keeps the player out of every obstacle it did not start in.
- GameLoop.Game.TickObstacles: states how many platforms carried the player, not which ones.
- GameLoop.Game.Frame: states only the quit behaviour and the invariant. The dispatch to `LoopPlatformer` or `LoopEditor` is in its body; their own contracts state what each does.
