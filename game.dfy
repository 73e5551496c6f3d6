/**
  The game loop of game.py: the obstacle list, the camera position, the
  platformer/editor mode and the editor's pending click. Events and held keys
  arrive as values (the pygame event queue and keyboard are not modelled); the
  frame time `dt` is a parameter in place of the clock.
*/
module GameLoop {
  import opened Wrappers
  import opened Geometry
  import opened Collision
  import Physics
  import opened Actor
  import opened Platforms
  import opened KillAreas

  /** The keys `loop_platformer` and `loop_editor` poll each frame. */
  datatype Keys = Keys(
    right: bool, left: bool, up: bool, down: bool,
    d: bool, a: bool, w: bool, s: bool,
    space: bool, leftShift: bool)

  /** The keys `handle_key_down` distinguishes. */
  datatype Key = KeyH | KeySpace | KeyUp | KeyW | KeyF | KeyR | KeyM | KeyF1 | KeyF2 | OtherKey

  /** The events `loop` dispatches on. */
  datatype Event = Quit | KeyDown(key: Key) | MouseDown(button: int, pos: (int, int))

  const Platformer: int := 0
  const Editor: int := 1

  /** `(mode + 1) % 2`: the mode the `m` key switches to. */
  function NextMode(mode: int): (r: int)
    ensures 0 <= r < 2
    ensures mode == Platformer ==> r == Editor
    ensures mode == Editor ==> r == Platformer
  {
    (mode + 1) % 2
  }

  /** Pressing `m` twice returns to the mode one started in. */
  lemma ToggleTwice(mode: int)
    requires mode == Platformer || mode == Editor
    ensures NextMode(NextMode(mode)) == mode
  {
  }

  function MinInt(a: int, b: int): int { if a <= b then a else b }
  function MaxInt(a: int, b: int): int { if a >= b then a else b }

  /**
    The platform two editor clicks describe: the top-left corner is the
    smaller coordinate on each axis and the size the distance between the
    clicks, so both clicks are corners of it whichever came first.
  */
  function Normalise(first: (int, int), second: (int, int)): (r: (int, int, int, int))
    ensures r.2 >= 0 && r.3 >= 0
    ensures r.0 <= first.0 && r.0 <= second.0 && r.1 <= first.1 && r.1 <= second.1
    ensures (r.0 == first.0 && r.0 + r.2 == second.0) || (r.0 == second.0 && r.0 + r.2 == first.0)
    ensures (r.1 == first.1 && r.1 + r.3 == second.1) || (r.1 == second.1 && r.1 + r.3 == first.1)
  {
    var minX, minY := MinInt(first.0, second.0), MinInt(first.1, second.1);
    var maxX, maxY := MaxInt(first.0, second.0), MaxInt(first.1, second.1);
    (minX, minY, maxX - minX, maxY - minY)
  }

  /** The order of the two clicks does not matter. */
  lemma NormaliseSymmetric(first: (int, int), second: (int, int))
    ensures Normalise(first, second) == Normalise(second, first)
  {
  }

  /**
    One axis of `control_screen_scroll`: the screen edge `screen` of a view
    `extent` long follows an object at `pos` of length `size`. The object
    before the first third pulls the screen back by a tenth of the gap; its far
    edge past the second third pushes it on by a tenth of the overshoot.
  */
  function ScrollAxis(screen: real, pos: real, size: real, extent: real): (r: real)
    // the screen moves back exactly when the object is before the first third
    ensures r < screen <==> pos < extent / 3.0 + screen
    // and on exactly when it is not, but sticks out past the second third
    ensures r > screen <==> !(pos < extent / 3.0 + screen) && pos + size > 2.0 * extent / 3.0 + screen
    // a gap before the first third shrinks to nine tenths
    ensures pos < extent / 3.0 + screen ==>
      r + extent / 3.0 - pos == 9.0 / 10.0 * (screen + extent / 3.0 - pos)
    // an overshoot past the second third shrinks to nine tenths
    ensures r > screen ==>
      pos + size - (r + 2.0 * extent / 3.0) == 9.0 / 10.0 * (pos + size - (screen + 2.0 * extent / 3.0))
  {
    var lowerThird := extent / 3.0 + screen;
    var upperThird := 2.0 * extent / 3.0 + screen;
    if pos < lowerThird then
      screen - (lowerThird - pos) / 10.0
    else if pos + size > upperThird then
      screen + (pos + size - upperThird) / 10.0
    else
      screen
  }

  /** An object within the middle third leaves the screen where it is. */
  lemma MiddleThirdIsStill(screen: real, pos: real, size: real, extent: real)
    requires extent / 3.0 + screen <= pos && pos + size <= 2.0 * extent / 3.0 + screen
    ensures ScrollAxis(screen, pos, size, extent) == screen
  {
  }

  /**
    Net editor scroll on one axis per frame: 5 pixels for each held direction,
    25 with left shift; opposite directions cancel.
  */
  function Pan(forward: bool, backward: bool, fast: bool): (r: real)
    ensures forward == backward ==> r == 0.0
    ensures forward && !backward ==> r == (if fast then 25.0 else 5.0)
    ensures !forward && backward ==> r == -(if fast then 25.0 else 5.0)
  {
    var multiply := if fast then 5.0 else 1.0;
    (if forward then 5.0 * multiply else 0.0) - (if backward then 5.0 * multiply else 0.0)
  }

  /** Moves a position by a per-tick drift. */
  function Shifted(p: (real, real), d: (real, real)): (real, real)
  {
    (p.0 + d.0, p.1 + d.1)
  }

  /** No object appears twice in an obstacle list. */
  predicate Distinct(obstacles: seq<Obstacle>)
  {
    forall i, j :: 0 <= i < j < |obstacles| ==> obstacles[i].Ref() != obstacles[j].Ref()
  }

  /** The collision world `valid_position` sees: the obstacles' shapes and the kill areas' rectangles. */
  function SceneOf(obstacles: seq<Obstacle>, kills: seq<KillArea>): (s: Scene)
    reads Footprint(obstacles), AreaFootprint(kills)
    ensures |s.solids| == |obstacles| && |s.kills| == |kills|
    ensures forall i :: 0 <= i < |obstacles| ==> s.solids[i] == obstacles[i].Solid()
    ensures forall i :: 0 <= i < |kills| ==> s.kills[i] == kills[i].Rect()
  {
    Scene(Solids(obstacles), KillRects(kills))
  }

  class Game {
    /** WIDTH and HEIGHT of the window (consts.py is not part of this model). */
    const screenWidth: real
    const screenHeight: real
    const player: Player
    var platforms: seq<Obstacle>
    var killAreas: seq<KillArea>
    var running: bool
    /** `screen_coords`: the top-left corner of the screen in level coordinates. */
    var screenX: real
    var screenY: real
    var mode: int
    /** The first corner of a platform being placed in edit mode, in level coordinates. */
    var lastMouseClick: Option<(int, int)>

    ghost predicate Valid()
      reads this
    {
      (mode == Platformer || mode == Editor) && Distinct(platforms) &&
      this !in Footprint(platforms) && player !in Footprint(platforms) &&
      this !in AreaFootprint(killAreas) && player !in AreaFootprint(killAreas)
    }

    /**
      `__init__`: a fresh player and one image stage per level image (given
      here as their masks), no kill areas, the screen at the origin, platformer
      mode and no pending click.
    */
    constructor (screenWidth: real, screenHeight: real, levelImages: seq<Mask>)
      ensures Valid() && fresh(player)
      ensures forall i :: 0 <= i < |platforms| ==> fresh(platforms[i].Ref())
      ensures player.State() == Physics.Spawned(None) && player.NoInput()
      ensures |platforms| == |levelImages|
      ensures forall i :: 0 <= i < |platforms| ==>
        platforms[i].OfImage? && platforms[i].image.mask == levelImages[i] &&
        platforms[i].Position() == (0.0, 0.0)
      ensures killAreas == [] && !running
      ensures screenX == 0.0 && screenY == 0.0 && mode == Platformer && lastMouseClick == None
    {
      this.screenWidth, this.screenHeight := screenWidth, screenHeight;
      var stages: seq<Obstacle> := [];
      var i := 0;
      while i < |levelImages|
        invariant 0 <= i <= |levelImages| && |stages| == i
        invariant Distinct(stages)
        invariant forall j :: 0 <= j < i ==>
          stages[j].OfImage? && fresh(stages[j].image) && stages[j].image.mask == levelImages[j] &&
          stages[j].image.x == 0.0 && stages[j].image.y == 0.0
      {
        var stage := new ImageStage(levelImages[i]);
        assert forall j :: 0 <= j < |stages| ==> stages[j].Ref() != stage;
        stages := stages + [OfImage(stage)];
        i := i + 1;
      }
      player := new Player();
      platforms := stages;
      killAreas := [];
      running := false;
      screenX, screenY := 0.0, 0.0;
      mode := Platformer;
      lastMouseClick := None;
    }

    /**
      `handle_mouse_down`: in edit mode the first click records its level
      coordinates and the second appends a fixed platform spanning both clicks
      and clears the pending click. Outside edit mode nothing changes.
    */
    method HandleMouseDown(mouse: (int, int))
      requires Valid()
      modifies this`platforms, this`lastMouseClick
      ensures Valid()
      ensures var click := (mouse.0 + Trunc(screenX), mouse.1 + Trunc(screenY));
        if mode != Editor then
          platforms == old(platforms) && lastMouseClick == old(lastMouseClick)
        else if old(lastMouseClick).None? then
          platforms == old(platforms) && lastMouseClick == Some(click)
        else
          lastMouseClick == None && |platforms| == |old(platforms)| + 1 &&
          platforms[..|old(platforms)|] == old(platforms) &&
          var added := platforms[|old(platforms)|];
          var box := Normalise(old(lastMouseClick).value, click);
          added.OfPlatform? && fresh(added.platform) && !added.platform.moving &&
          added.platform.Rect() == Geometry.Rect(box.0 as real, box.1 as real, box.2 as real, box.3 as real)
    {
      var mouseX := mouse.0 + Trunc(screenX);
      var mouseY := mouse.1 + Trunc(screenY);
      if mode == Editor {
        if lastMouseClick.None? {
          lastMouseClick := Some((mouseX, mouseY));
        } else {
          var box := Normalise(lastMouseClick.value, (mouseX, mouseY));
          var platform := new Platform((box.0 as real, box.1 as real), (box.2 as real, box.3 as real), false);
          platforms := platforms + [OfPlatform(platform)];
          lastMouseClick := None;
        }
      }
    }

    /**
      `handle_key_down`: a jump key jumps, `f` dashes, `r` resets the player,
      `m` switches mode and drops a pending click; every other key leaves the
      modelled state alone.
    */
    method HandleKeyDown(key: Key)
      requires Valid()
      modifies this`mode, this`lastMouseClick, player
      ensures Valid()
      ensures key == KeyM ==> mode == NextMode(old(mode)) && lastMouseClick == None
      ensures key != KeyM ==> mode == old(mode) && lastMouseClick == old(lastMouseClick)
      ensures key in {KeySpace, KeyUp, KeyW} ==>
        player.State() == Physics.JumpBody(old(player.State()), false)
      ensures key == KeyF ==>
        player.State() == Physics.DashBody(old(player.State()), old(player.left), old(player.right))
      ensures key == KeyR ==> player.State() == Physics.Spawned(None) && player.NoInput()
      ensures key !in {KeySpace, KeyUp, KeyW, KeyF, KeyR} ==> unchanged(player)
      ensures key != KeyR ==>
        player.right == old(player.right) && player.left == old(player.left) && player.up == old(player.up) &&
        player.down == old(player.down) && player.jumping == old(player.jumping)
    {
      match key
      case KeySpace | KeyUp | KeyW => player.Jump(false);
      case KeyF => player.Dash();
      case KeyR => player.Reset(None);
      case KeyM =>
        mode := NextMode(mode);
        lastMouseClick := None;
      case _ =>
    }

    /** `control_screen_scroll`: each screen coordinate follows the player by `ScrollAxis`. */
    method ControlScreenScroll()
      modifies this`screenX, this`screenY
      ensures screenX == ScrollAxis(old(screenX), player.x, Physics.Width, screenWidth)
      ensures screenY == ScrollAxis(old(screenY), player.y, Physics.Height, screenHeight)
    {
      var lowerThird := screenWidth / 3.0 + screenX;
      var upperThird := 2.0 * screenWidth / 3.0 + screenX;
      if player.x < lowerThird {
        var difference := lowerThird - player.x;
        screenX := screenX - difference / 10.0;
      } else if player.x + Physics.Width > upperThird {
        var difference := player.x + Physics.Width - upperThird;
        screenX := screenX + difference / 10.0;
      }

      lowerThird := screenHeight / 3.0 + screenY;
      upperThird := 2.0 * screenHeight / 3.0 + screenY;
      if player.y < lowerThird {
        var difference := lowerThird - player.y;
        screenY := screenY - difference / 10.0;
      } else if player.y + Physics.Height > upperThird {
        var difference := player.y + Physics.Height - upperThird;
        screenY := screenY + difference / 10.0;
      }
    }

    /** `loop_editor`: the held arrows or WASD pan the screen, five times as fast with left shift. */
    method LoopEditor(keys: Keys)
      modifies this`screenX, this`screenY
      ensures screenX == old(screenX) + Pan(keys.right || keys.d, keys.left || keys.a, keys.leftShift)
      ensures screenY == old(screenY) + Pan(keys.s || keys.down, keys.w || keys.up, keys.leftShift)
    {
      var multiply := if keys.leftShift then 5.0 else 1.0;
      if keys.right || keys.d {
        screenX := screenX + 5.0 * multiply;
      }
      if keys.left || keys.a {
        screenX := screenX - 5.0 * multiply;
      }
      if keys.w || keys.up {
        screenY := screenY - 5.0 * multiply;
      }
      if keys.s || keys.down {
        screenY := screenY + 5.0 * multiply;
      }
    }

    /**
      The obstacle part of `loop_platformer`: every obstacle ticks once, in
      list order. The player is only ever carried to the right, 2 pixels by
      each of `pushes` platforms.
    */
    method TickObstacles() returns (ghost pushes: nat)
      requires Valid()
      modifies player`x, player`y, Footprint(platforms)
      ensures forall i :: 0 <= i < |platforms| ==>
        platforms[i].Position() == Shifted(old(platforms[i].Position()), platforms[i].Drift())
      ensures pushes <= |platforms|
      ensures player.x == old(player.x) + 2.0 * pushes as real && player.y == old(player.y)
      ensures player.State() == old(player.State()).(x := old(player.x) + 2.0 * pushes as real)
    {
      pushes := 0;
      var i := 0;
      while i < |platforms|
        invariant 0 <= i <= |platforms| && pushes <= i
        invariant forall j :: 0 <= j < i ==>
          platforms[j].Position() == Shifted(old(platforms[j].Position()), platforms[j].Drift())
        invariant forall j :: i <= j < |platforms| ==> platforms[j].Position() == old(platforms[j].Position())
        invariant player.x == old(player.x) + 2.0 * pushes as real && player.y == old(player.y)
      {
        var before := player.x;
        platforms[i].Tick(player);
        if player.x != before {
          pushes := pushes + 1;
        }
        i := i + 1;
      }
    }

    /**
      The player part of `loop_platformer`: the player ticks against the
      obstacles and kill areas as they are now, which it does not change.
    */
    method TickPlayer(dt: real) returns (scene: Scene)
      requires player !in Footprint(platforms) && player !in AreaFootprint(killAreas)
      modifies player
      ensures scene == old(SceneOf(platforms, killAreas))
      ensures forall i :: 0 <= i < |platforms| ==> platforms[i].Position() == old(platforms[i].Position())
      ensures forall i :: 0 <= i < |platforms| ==> scene.solids[i] == platforms[i].Solid()
      ensures forall i :: 0 <= i < |killAreas| ==> scene.kills[i] == killAreas[i].Rect()
      ensures var o := Physics.TickResult(old(player.State()), old(player.left), old(player.right),
                                          old(player.jumping), scene, dt);
        player.State() == o.body &&
        (o.dead ==> player.NoInput()) &&
        (!o.dead ==> player.right == old(player.right) && player.left == old(player.left) &&
                     player.jumping == old(player.jumping))
    {
      scene := SceneOf(platforms, killAreas);
      player.Tick(scene, dt);
    }

    /**
      The first three steps of `loop_platformer`: record the held keys, tick
      every obstacle once (a platform may carry the player 2 pixels to the
      right), then tick the player against the obstacles where they now are.
      `carried` is the player's state between the obstacles' ticks and its
      own, `pushes` the number of platforms that carried it and `scene` what
      the player's tick saw.
    */
    method UpdateWorld(keys: Keys, dt: real) returns (ghost carried: Physics.Body, ghost pushes: nat, scene: Scene)
      requires Valid()
      modifies player, Footprint(platforms)
      ensures forall i :: 0 <= i < |platforms| ==>
        platforms[i].Position() == Shifted(old(platforms[i].Position()), platforms[i].Drift())
      ensures |scene.solids| == |platforms| && |scene.kills| == |killAreas|
      ensures forall i :: 0 <= i < |platforms| ==> scene.solids[i] == platforms[i].Solid()
      ensures forall i :: 0 <= i < |killAreas| ==> scene.kills[i] == killAreas[i].Rect()
      ensures pushes <= |platforms|
      ensures carried == old(player.State()).(x := old(player.x) + 2.0 * pushes as real)
      ensures var o := Physics.TickResult(carried, keys.left || keys.a, keys.right || keys.d,
                                          keys.space || keys.w || keys.up, scene, dt);
        player.State() == o.body &&
        (!o.dead ==> player.right == (keys.right || keys.d) && player.left == (keys.left || keys.a) &&
                     player.jumping == (keys.space || keys.w || keys.up))
    {
      player.right, player.left, player.jumping :=
        keys.right || keys.d, keys.left || keys.a, keys.space || keys.w || keys.up;
      assert player.State() == old(player.State());

      pushes := TickObstacles();
      carried := player.State();

      scene := TickPlayer(dt);
    }

    /**
      `loop_platformer`: the obstacles tick, then the player against the
      obstacles' new positions (`UpdateWorld`), then the screen scrolls after
      the player's new position.
    */
    method LoopPlatformer(keys: Keys, dt: real) returns (ghost carried: Physics.Body, ghost pushes: nat, scene: Scene)
      requires Valid()
      modifies this`screenX, this`screenY, player, Footprint(platforms)
      ensures Valid()
      ensures forall i :: 0 <= i < |platforms| ==>
        platforms[i].Position() == Shifted(old(platforms[i].Position()), platforms[i].Drift())
      ensures |scene.solids| == |platforms| && |scene.kills| == |killAreas|
      ensures forall i :: 0 <= i < |platforms| ==> scene.solids[i] == platforms[i].Solid()
      ensures forall i :: 0 <= i < |killAreas| ==> scene.kills[i] == killAreas[i].Rect()
      ensures pushes <= |platforms|
      ensures carried == old(player.State()).(x := old(player.x) + 2.0 * pushes as real)
      ensures var o := Physics.TickResult(carried, keys.left || keys.a, keys.right || keys.d,
                                          keys.space || keys.w || keys.up, scene, dt);
        player.State() == o.body &&
        (!o.dead ==> player.right == (keys.right || keys.d) && player.left == (keys.left || keys.a) &&
                     player.jumping == (keys.space || keys.w || keys.up))
      ensures screenX == ScrollAxis(old(screenX), player.x, Physics.Width, screenWidth)
      ensures screenY == ScrollAxis(old(screenY), player.y, Physics.Height, screenHeight)
    {
      carried, pushes, scene := UpdateWorld(keys, dt);
      ControlScreenScroll();
    }

    /**
      The event part of `loop`: handle the events in order until a quit,
      which stops the game and ends the frame. Obstacles are only ever
      appended, never changed.
    */
    method HandleEvents(events: seq<Event>) returns (quit: bool)
      requires Valid()
      modifies this`platforms, this`lastMouseClick, this`mode, this`running, player
      ensures Valid()
      ensures quit <==> Quit in events
      ensures quit ==> !running
      ensures !quit ==> running == old(running)
      ensures |old(platforms)| <= |platforms| && platforms[..|old(platforms)|] == old(platforms)
      ensures forall j :: |old(platforms)| <= j < |platforms| ==> fresh(platforms[j].Ref())
    {
      var i := 0;
      while i < |events|
        invariant 0 <= i <= |events| && Valid()
        invariant Quit !in events[..i] && running == old(running)
        invariant |old(platforms)| <= |platforms| && platforms[..|old(platforms)|] == old(platforms)
        invariant forall j :: |old(platforms)| <= j < |platforms| ==> fresh(platforms[j].Ref())
      {
        var event := events[i];
        if event.Quit? {
          running := false;
          return true;
        } else if event.KeyDown? {
          HandleKeyDown(event.key);
        } else {
          HandleMouseDown(event.pos);
        }
        assert events[..i + 1] == events[..i] + [event];
        i := i + 1;
      }
      assert events[..i] == events;
      return false;
    }

    /**
      `loop`: handle the frame's events; unless one of them was a quit, run
      the platformer or the editor according to the mode.
    */
    method Frame(events: seq<Event>, keys: Keys, dt: real)
      requires Valid()
      modifies this, player, Footprint(platforms)
      ensures Valid()
      ensures Quit in events ==> !running
      ensures Quit !in events ==> running == old(running)
    {
      var quit := HandleEvents(events);
      if quit {
        return;
      }
      if mode == Platformer {
        ghost var carried, pushes, scene := LoopPlatformer(keys, dt);
      } else if mode == Editor {
        LoopEditor(keys);
      }
    }
  }
}
