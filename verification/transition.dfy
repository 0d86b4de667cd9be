/**
 * The screen-wipe of src/lib/engine/Transition.ts: a band of dither pattern, two tiles wide,
 * scrolls across the viewport with black on one side of it. The band is ready once both tile
 * sprites have loaded; a transition is configured with a direction, started, advanced once
 * per frame and drawn, and it calls its completion callback when the band has crossed.
 */
module Transitions {
  import opened Wrappers
  import opened Sprites
  import opened Canvas
  import opened Cameras

  /** Where the wipe goes: the two `...Right` directions and `fromLeft`, `intoLeft`. */
  datatype Dir = IntoLeft | FromLeft | IntoRight | FromRight

  /** The band moves towards larger x: intoRight and fromLeft. */
  predicate MovesRight(d: Dir) { d == IntoRight || d == FromLeft }

  /** The black area lies left of the band (intoRight, fromRight) rather than right of it. */
  predicate BlackOnLeft(d: Dir) { d == IntoRight || d == FromRight }

  /** The tile order the pattern is built with: heavy first for intoRight and fromRight. */
  function OrderFor(dir: Option<Dir>): TileOrder {
    if dir == Some(IntoRight) || dir == Some(FromRight) then HeavyThenLight else LightThenHeavy
  }

  /**
   * The completion callback. The model does not run callbacks: it records each invocation
   * in the transition's `completions` log, and a callback is named by an identifier.
   */
  datatype Callback = NoOp | Handler(id: nat)

  const DefaultSpeed := 10
  const HeavyTile := "dither_heavy.png"
  const LightTile := "dither_light.png"

  /** Every field of a transition that its operations update. */
  datatype TState = TState(
    dir: Option<Dir>,
    scrollSpeed: int,
    scrollX: int,
    onComplete: Callback,
    paused: bool,
    completed: bool,
    pattern: Option<TileOrder>,   // the cached pattern; only its tile order is modelled
    combinedWidth: int,
    loadedCount: int,
    completions: seq<Callback>)   // the callbacks invoked so far, oldest first

  /** A freshly constructed transition. */
  function Initial(): TState {
    TState(None, DefaultSpeed, 0, NoOp, true, false, None, 0, 0, [])
  }

  /** clear(): paused, not completed, unconfigured, at 0, with a no-op callback. */
  function Cleared(s: TState): (r: TState)
    ensures r.paused && !r.completed && r.dir.None? && r.scrollX == 0 && r.onComplete == NoOp
    ensures r.scrollSpeed == s.scrollSpeed && r.pattern == s.pattern
    ensures r.combinedWidth == s.combinedWidth && r.loadedCount == s.loadedCount
    ensures r.completions == s.completions
  {
    s.(paused := true, completed := false, dir := None, scrollX := 0, onComplete := NoOp)
  }

  /**
   * checkAllSpritesLoaded(), with the natural widths of the heavy and light tiles: once the
   * count is 2 it records the band width, places the band where the direction starts it and
   * builds the pattern if there is none yet; otherwise nothing changes.
   */
  function Checked(s: TState, heavyWidth: int, lightWidth: int, cam: Camera): (r: TState)
    reads cam
    ensures s.loadedCount != 2 ==> r == s
    ensures s.loadedCount == 2 ==>
      && r.combinedWidth == heavyWidth + lightWidth
      && (s.dir.Some? && MovesRight(s.dir.value) ==> r.scrollX == -cam.Scale(heavyWidth + lightWidth))
      && (s.dir.Some? && !MovesRight(s.dir.value) ==> r.scrollX == cam.Scale(cam.viewportWidth))
      && (s.dir.None? ==> r.scrollX == s.scrollX)
      && r.pattern == (if s.pattern.None? then Some(OrderFor(s.dir)) else s.pattern)
      && r == s.(combinedWidth := r.combinedWidth, scrollX := r.scrollX, pattern := r.pattern)
  {
    if s.loadedCount != 2 then s
    else
      var w := heavyWidth + lightWidth;
      var x := match s.dir
        case Some(IntoRight) => -cam.Scale(w)
        case Some(FromLeft) => -cam.Scale(w)
        case Some(IntoLeft) => cam.Scale(cam.viewportWidth)
        case Some(FromRight) => cam.Scale(cam.viewportWidth)
        case None => s.scrollX;
      var p := if s.pattern.None? then Some(OrderFor(s.dir)) else s.pattern;
      s.(combinedWidth := w, scrollX := x, pattern := p)
  }

  /** One tile sprite has loaded: count it, then check. */
  function SpriteArrived(s: TState, heavyWidth: int, lightWidth: int, cam: Camera): TState
    reads cam
  {
    Checked(s.(loadedCount := s.loadedCount + 1), heavyWidth, lightWidth, cam)
  }

  /** configure(dir, onComplete, scrollSpeed): clear, store the arguments, check again. */
  function Configured(s: TState, dir: Dir, onComplete: Callback, speed: int,
                      heavyWidth: int, lightWidth: int, cam: Camera): TState
    reads cam
  {
    Checked(Cleared(s).(dir := Some(dir), onComplete := onComplete, scrollSpeed := speed),
            heavyWidth, lightWidth, cam)
  }

  /** begin(): an unconfigured transition is an error; otherwise it only unpauses. */
  function Begun(s: TState): (r: Outcome<string>)
    ensures r.Fail? <==> s.dir.None?
  {
    if s.dir.None? then Fail("The transition hasn't been configured.") else Pass
  }

  function AfterBegin(s: TState): TState {
    if s.dir.None? then s else s.(paused := false)
  }

  /** update() runs only while started, not completed, with a pattern and a direction. */
  predicate Running(s: TState) {
    !s.paused && !s.completed && s.pattern.Some? && s.dir.Some?
  }

  /**
   * update(): move the band by the scaled speed; call the callback when it has crossed
   * (completed for a rightward band, paused for a leftward one); then make an even position
   * odd, one pixel further in the direction of travel.
   */
  function Updated(s: TState, cam: Camera): TState
    reads cam
  {
    if s.paused || s.completed || s.pattern.None? then s
    else match s.dir
      case None => s
      case Some(d) =>
        var step := cam.Scale(s.scrollSpeed);
        if MovesRight(d) then
          var x := s.scrollX + step;
          var s1 := if x >= cam.viewportWidth
            then s.(completions := s.completions + [s.onComplete], completed := true)
            else s;
          s1.(scrollX := if x % 2 == 0 then x + 1 else x)
        else
          var x := s.scrollX - step;
          var s1 := if x + s.combinedWidth <= 0
            then s.(completions := s.completions + [s.onComplete], paused := true)
            else s;
          s1.(scrollX := if x % 2 == 0 then x - 1 else x)
  }

  /** n frames of update(). */
  function Ticks(s: TState, cam: Camera, n: nat): TState
    reads cam
    decreases n
  {
    if n == 0 then s else Ticks(Updated(s, cam), cam, n - 1)
  }

  /**
   * draw(): nothing while paused or without a pattern; otherwise black on one side of the band
   * (none without a direction), then the pattern over the band, anchored at the band's left edge.
   */
  function DrawCommands(s: TState, cam: Camera): seq<Cmd>
    reads cam
  {
    if s.paused || s.pattern.None? then []
    else
      var vh := cam.viewportHeight;
      var black := match s.dir
        case Some(IntoRight) => [FillRect(0, 0, s.scrollX, vh)]
        case Some(FromRight) => [FillRect(0, 0, s.scrollX, vh)]
        case Some(IntoLeft) => [FillRect(s.scrollX + s.combinedWidth, 0, cam.viewportWidth - (s.scrollX + s.combinedWidth), vh)]
        case Some(FromLeft) => [FillRect(s.scrollX + s.combinedWidth, 0, cam.viewportWidth - (s.scrollX + s.combinedWidth), vh)]
        case None => [];
      [SetFill(Solid("black"))] + black
        + [SetFill(Dither(s.pattern.value, s.scrollX)), FillRect(s.scrollX, 0, s.combinedWidth, vh)]
  }

  // ---- Properties of the state machine ----

  /** An update changes nothing unless the transition is running, and then leaves an odd position. */
  lemma UpdateParity(s: TState, cam: Camera)
    ensures !Running(s) ==> Updated(s, cam) == s
    ensures Running(s) ==> Updated(s, cam).scrollX % 2 == 1
  {
  }

  /**
   * An update calls the callback at most once, exactly when the band has crossed: past the
   * viewport's right edge going right, wholly left of 0 going left. Only the position, the
   * flags and the log change, and the callback is the configured one.
   */
  lemma UpdateCompletion(s: TState, cam: Camera)
    requires Running(s)
    ensures var r := Updated(s, cam);
      var step := cam.Scale(s.scrollSpeed);
      && (MovesRight(s.dir.value) ==>
            && (r.completions != s.completions <==> s.scrollX + step >= cam.viewportWidth)
            && (r.completed <==> s.scrollX + step >= cam.viewportWidth) && !r.paused)
      && (!MovesRight(s.dir.value) ==>
            && (r.completions != s.completions <==> s.scrollX - step + s.combinedWidth <= 0)
            && (r.paused <==> s.scrollX - step + s.combinedWidth <= 0) && !r.completed)
      && (r.completions == s.completions || r.completions == s.completions + [s.onComplete])
      && r == s.(scrollX := r.scrollX, completed := r.completed, paused := r.paused,
                 completions := r.completions)
  {
  }

  /** Once an update has called the callback, further updates change nothing. */
  lemma FiredThenInert(s: TState, cam: Camera)
    requires Updated(s, cam).completions != s.completions
    ensures !Running(Updated(s, cam))
    ensures Updated(Updated(s, cam), cam) == Updated(s, cam)
  {
  }

  lemma {:induction false} TicksSplit(s: TState, cam: Camera, a: nat, b: nat)
    ensures Ticks(s, cam, a + b) == Ticks(Ticks(s, cam, a), cam, b)
    decreases a
  {
    if a > 0 {
      TicksSplit(Updated(s, cam), cam, a - 1, b);
    }
  }

  /** A transition that is not running stays as it is however many frames pass. */
  lemma {:induction false} IdleTicks(s: TState, cam: Camera, n: nat)
    requires !Running(s)
    ensures Ticks(s, cam, n) == s
  {
    if n > 0 {
      UpdateParity(s, cam);
      IdleTicks(s, cam, n - 1);
    }
  }

  /** However many frames pass, the callback is called at most once. */
  lemma {:induction false} CallbackAtMostOnce(s: TState, cam: Camera, n: nat)
    ensures var r := Ticks(s, cam, n);
      r.completions == s.completions || r.completions == s.completions + [s.onComplete]
    decreases n
  {
    if n > 0 {
      var s1 := Updated(s, cam);
      if !Running(s) {
        IdleTicks(s, cam, n);
      } else {
        UpdateCompletion(s, cam);
        if s1.completions != s.completions {
          FiredThenInert(s, cam);
          IdleTicks(s1, cam, n - 1);
        } else {
          CallbackAtMostOnce(s1, cam, n - 1);
        }
      }
    }
  }

  /** A cleared transition neither moves nor draws. */
  lemma ClearedIsInert(s: TState, cam: Camera)
    ensures Updated(Cleared(s), cam) == Cleared(s)
    ensures DrawCommands(Cleared(s), cam) == []
  {
  }

  /** Begin succeeds exactly on a configured transition, and then only unpauses it. */
  lemma ConfigureThenBegin(s: TState, dir: Dir, cb: Callback, speed: int, hw: int, lw: int, cam: Camera)
    ensures var c := Configured(s, dir, cb, speed, hw, lw, cam);
      && Begun(c) == Pass
      && AfterBegin(c) == c.(paused := false)
      && c.dir == Some(dir) && c.onComplete == cb && c.scrollSpeed == speed && !c.completed
  {
  }

  /** The pattern, once built, is never rebuilt or dropped by any operation. */
  lemma PatternStable(s: TState, dir: Dir, cb: Callback, speed: int, hw: int, lw: int, cam: Camera)
    requires s.pattern.Some?
    ensures Cleared(s).pattern == s.pattern
    ensures Checked(s, hw, lw, cam).pattern == s.pattern
    ensures SpriteArrived(s, hw, lw, cam).pattern == s.pattern
    ensures Configured(s, dir, cb, speed, hw, lw, cam).pattern == s.pattern
    ensures AfterBegin(s).pattern == s.pattern
    ensures Updated(s, cam).pattern == s.pattern
  {
  }

  /**
   * The count of arrivals is the number of tiles that have loaded, and the pattern exists only
   * if both have: the rendezvous is on the two tiles, not on two notifications.
   */
  predicate TilesAccounted(s: TState, heavyLoaded: bool, lightLoaded: bool) {
    && s.loadedCount == (if heavyLoaded then 1 else 0) + (if lightLoaded then 1 else 0)
    && (s.pattern.Some? ==> heavyLoaded && lightLoaded)
  }

  /**
   * Every operation keeps the account; the arrival of a tile not loaded before keeps it with
   * that tile now loaded, and once both are there the pattern exists.
   */
  lemma TilesAccountedKept(s: TState, heavyLoaded: bool, lightLoaded: bool,
                           dir: Dir, cb: Callback, speed: int, hw: int, lw: int, cam: Camera)
    requires TilesAccounted(s, heavyLoaded, lightLoaded)
    ensures TilesAccounted(Cleared(s), heavyLoaded, lightLoaded)
    ensures TilesAccounted(Checked(s, hw, lw, cam), heavyLoaded, lightLoaded)
    ensures TilesAccounted(Configured(s, dir, cb, speed, hw, lw, cam), heavyLoaded, lightLoaded)
    ensures TilesAccounted(AfterBegin(s), heavyLoaded, lightLoaded)
    ensures TilesAccounted(Updated(s, cam), heavyLoaded, lightLoaded)
    ensures !heavyLoaded ==> TilesAccounted(SpriteArrived(s, hw, lw, cam), true, lightLoaded)
    ensures !lightLoaded ==> TilesAccounted(SpriteArrived(s, hw, lw, cam), heavyLoaded, true)
    ensures (!heavyLoaded && lightLoaded) || (heavyLoaded && !lightLoaded) ==>
      SpriteArrived(s, hw, lw, cam).pattern.Some?
  {
  }

  /**
   * An update of a running transition moves the band by the scaled speed in its direction,
   * then nudges an even position one pixel further that way.
   */
  lemma UpdatePosition(s: TState, cam: Camera)
    requires Running(s)
    ensures var step := cam.Scale(s.scrollSpeed);
      var dx := if MovesRight(s.dir.value) then 1 else -1;
      var x := s.scrollX + dx * step;
      Updated(s, cam).scrollX == (if x % 2 == 0 then x + dx else x)
  {
  }

  /**
   * Without arrival notifications (in the source the load callbacks passed at construction
   * are dropped, since the sprite constructor takes no callback), the count stays 0, no pattern
   * is ever built, and every operation leaves a transition that never moves or draws.
   */
  predicate NoTilesArrived(s: TState) {
    s.loadedCount == 0 && s.pattern.None?
  }

  lemma WithoutArrivalsNothingRuns(s: TState, dir: Dir, cb: Callback, speed: int, hw: int, lw: int, cam: Camera)
    requires NoTilesArrived(s)
    ensures NoTilesArrived(Initial())
    ensures NoTilesArrived(Cleared(s)) && NoTilesArrived(AfterBegin(s))
    ensures NoTilesArrived(Configured(s, dir, cb, speed, hw, lw, cam))
    ensures Configured(s, dir, cb, speed, hw, lw, cam).scrollX == 0
    ensures Updated(s, cam) == s && DrawCommands(s, cam) == []
  {
  }

  /**
   * The two tiles may load in either order: the first arrival only counts (whatever the
   * widths then are), the second one sets up the band.
   */
  lemma ArrivalOrder(s: TState, hw1: int, lw1: int, hw2: int, lw2: int, hw: int, lw: int, cam: Camera)
    requires s.loadedCount == 0
    ensures SpriteArrived(SpriteArrived(s, hw1, lw1, cam), hw, lw, cam)
         == SpriteArrived(SpriteArrived(s, hw2, lw2, cam), hw, lw, cam)
    ensures SpriteArrived(s, hw1, lw1, cam) == s.(loadedCount := 1)
    ensures SpriteArrived(SpriteArrived(s, hw1, lw1, cam), hw, lw, cam).pattern.Some?
  {
  }

  /** The tile order is the one of the direction in force when both tiles were first there. */
  lemma PatternOrder(s: TState, dir: Dir, cb: Callback, speed: int, hw: int, lw: int, cam: Camera)
    requires s.loadedCount == 2 && s.pattern.None?
    ensures Configured(s, dir, cb, speed, hw, lw, cam).pattern == Some(OrderFor(Some(dir)))
    ensures Checked(s, hw, lw, cam).pattern == Some(OrderFor(s.dir))
  {
  }

  /**
   * While it has not crossed, a running rightward band moves by exactly the step each frame,
   * provided the position is odd and the step even (so no nudge happens).
   */
  lemma {:induction false} RightCruise(s: TState, cam: Camera, n: nat)
    requires Running(s) && MovesRight(s.dir.value) && s.scrollSpeed >= 0
    requires s.scrollX % 2 == 1 && cam.Scale(s.scrollSpeed) % 2 == 0
    requires s.scrollX + n * cam.Scale(s.scrollSpeed) < cam.viewportWidth
    ensures Ticks(s, cam, n) == s.(scrollX := s.scrollX + n * cam.Scale(s.scrollSpeed))
    decreases n
  {
    if n > 0 {
      var step := cam.Scale(s.scrollSpeed);
      assert step >= 0 by { ProductMonotone(0, s.scrollSpeed, cam.globalScale); }
      assert n * step == step + (n - 1) * step;
      assert (n - 1) * step >= 0 by { ProductMonotone(0, n - 1, step); }
      var s1 := Updated(s, cam);
      assert s1 == s.(scrollX := s.scrollX + step);
      RightCruise(s1, cam, n - 1);
    }
  }

  /**
   * The default fromLeft wipe with a 64-pixel band over a 320-pixel viewport at scale 1:
   * it starts at -64, first stops at -53, and calls its callback on frame 39, not before.
   */
  lemma FromLeftExample(cam: Camera, cb: Callback)
    requires cam.globalScale == 1 && cam.viewportWidth == 320
    ensures var s0 := Configured(Initial().(loadedCount := 2), FromLeft, cb, DefaultSpeed, 32, 32, cam);
      var s := AfterBegin(s0);
      && s0.scrollX == -64
      && Updated(s, cam).scrollX == -53
      && Ticks(s, cam, 38).completions == []
      && Ticks(s, cam, 39).completions == [cb]
  {
    var s0 := Configured(Initial().(loadedCount := 2), FromLeft, cb, DefaultSpeed, 32, 32, cam);
    var s := AfterBegin(s0);
    var s1 := Updated(s, cam);
    assert s1 == s.(scrollX := -53);
    RightCruise(s1, cam, 37);
    TicksSplit(s, cam, 1, 37);
    TicksSplit(s, cam, 38, 1);
    assert Ticks(s, cam, 38) == s.(scrollX := 317);
  }

  /** The black area and the band abut, and together they reach the viewport edge. */
  lemma DrawAbuts(s: TState, cam: Camera)
    requires !s.paused && s.pattern.Some? && s.dir.Some?
    ensures var cmds := DrawCommands(s, cam);
      && |cmds| == 4
      && cmds[0] == SetFill(Solid("black"))
      && cmds[2] == SetFill(Dither(s.pattern.value, s.scrollX))
      && cmds[3] == FillRect(s.scrollX, 0, s.combinedWidth, cam.viewportHeight)
      && cmds[1].FillRect? && cmds[1].y == 0 && cmds[1].h == cam.viewportHeight
      && (BlackOnLeft(s.dir.value) ==> cmds[1].x == 0 && cmds[1].x + cmds[1].w == s.scrollX)
      && (!BlackOnLeft(s.dir.value) ==>
            cmds[1].x == s.scrollX + s.combinedWidth && cmds[1].x + cmds[1].w == cam.viewportWidth)
  {
  }

  /** A paused transition, or one without a pattern, draws nothing. */
  lemma DrawNothingWhenIdle(s: TState, cam: Camera)
    ensures DrawCommands(s, cam) == [] <==> s.paused || s.pattern.None?
  {
  }

  // ---- The object ----

  class Transition {
    const camera: Camera
    const heavy: Sprite
    const light: Sprite
    var dir: Option<Dir>
    var scrollSpeed: int
    var scrollX: int
    var onComplete: Callback
    var paused: bool
    var completed: bool
    var pattern: Option<TileOrder>
    var combinedWidth: int
    var loadedCount: int
    /** The callbacks invoked so far, oldest first. */
    var completions: seq<Callback>

    /**
     * The two tiles are distinct, the count is the number of them that have loaded, and the
     * pattern exists only once both have.
     */
    predicate Valid()
      reads this, heavy, light
    {
      heavy != light && TilesAccounted(State(), heavy.isLoaded, light.isLoaded)
    }

    function State(): TState
      reads this
    {
      TState(dir, scrollSpeed, scrollX, onComplete, paused, completed, pattern, combinedWidth,
             loadedCount, completions)
    }

    /** Two distinct tile sprites, at the camera's scale, not yet loaded. */
    constructor (camera: Camera)
      ensures this.camera == camera && State() == Initial()
      ensures fresh(heavy) && fresh(light) && heavy != light
      ensures heavy.url == HeavyTile && light.url == LightTile
      ensures heavy.scale == camera.globalScale && light.scale == camera.globalScale
      ensures !heavy.isLoaded && !light.isLoaded
      ensures Valid()
    {
      this.camera := camera;
      scrollSpeed := DefaultSpeed;
      onComplete := NoOp;
      heavy := new Sprite(HeavyTile, camera.globalScale);
      light := new Sprite(LightTile, camera.globalScale);
      dir, scrollX, paused, completed := None, 0, true, false;
      pattern, combinedWidth, loadedCount, completions := None, 0, 0, [];
    }

    method Clear()
      requires Valid()
      modifies this
      ensures Valid()
      ensures State() == Cleared(old(State()))
    {
      paused := true;
      completed := false;
      dir := None;
      scrollX := 0;
      onComplete := NoOp;
    }

    method Configure(dir: Dir, onComplete: Callback := NoOp, scrollSpeed: int := DefaultSpeed)
      requires Valid()
      modifies this
      ensures Valid()
      ensures State() == Configured(old(State()), dir, onComplete, scrollSpeed,
                                    heavy.width, light.width, camera)
    {
      Clear();
      this.dir := Some(dir);
      this.onComplete := onComplete;
      this.scrollSpeed := scrollSpeed;
      CheckAllSpritesLoaded();
    }

    method Begin() returns (r: Outcome<string>)
      requires Valid()
      modifies this
      ensures Valid()
      ensures r == Begun(old(State())) && State() == AfterBegin(old(State()))
    {
      if dir.None? {
        return Fail("The transition hasn't been configured.");
      }
      paused := false;
      r := Pass;
    }

    method CheckAllSpritesLoaded()
      requires Valid()
      modifies this
      ensures Valid()
      ensures State() == Checked(old(State()), heavy.width, light.width, camera)
    {
      if loadedCount == 2 {
        combinedWidth := heavy.width + light.width;
        match dir {
          case Some(IntoRight) => scrollX := -camera.Scale(combinedWidth);
          case Some(FromLeft) => scrollX := -camera.Scale(combinedWidth);
          case Some(IntoLeft) => scrollX := camera.Scale(camera.viewportWidth);
          case Some(FromRight) => scrollX := camera.Scale(camera.viewportWidth);
          case None =>
        }
        if pattern.None? {
          pattern := Some(OrderFor(dir));
        }
      }
    }

    /** The load notification of one tile sprite, with its natural size. */
    method SpriteLoaded(tile: Sprite, naturalWidth: nat, naturalHeight: nat)
      requires Valid() && (tile == heavy || tile == light) && !tile.isLoaded
      modifies this, tile
      ensures Valid()
      ensures tile.width == naturalWidth && tile.height == naturalHeight && tile.isLoaded
      ensures tile.scale == old(tile.scale)
      ensures tile == heavy ==> unchanged(light)
      ensures tile == light ==> unchanged(heavy)
      ensures State() == SpriteArrived(old(State()), heavy.width, light.width, camera)
    {
      tile.OnLoad(naturalWidth, naturalHeight);
      loadedCount := loadedCount + 1;
      CheckAllSpritesLoaded();
    }

    method Update()
      requires Valid()
      modifies this
      ensures Valid()
      ensures State() == Updated(old(State()), camera)
    {
      if paused || completed || pattern.None? {
        return;
      }
      var adjustedScrollSpeed := camera.Scale(scrollSpeed);
      match dir {
        case Some(d) =>
          if MovesRight(d) {
            scrollX := scrollX + adjustedScrollSpeed;
            if scrollX >= camera.viewportWidth {
              completions := completions + [onComplete];
              completed := true;
            }
            if scrollX % 2 == 0 {
              scrollX := scrollX + 1;
            }
          } else {
            scrollX := scrollX - adjustedScrollSpeed;
            if scrollX + combinedWidth <= 0 {
              completions := completions + [onComplete];
              paused := true;
            }
            if scrollX % 2 == 0 {
              scrollX := scrollX - 1;
            }
          }
        case None =>
      }
    }

    method Draw() returns (cmds: seq<Cmd>)
      ensures cmds == DrawCommands(State(), camera)
    {
      if paused || pattern.None? {
        return [];
      }
      cmds := [SetFill(Solid("black"))];
      match dir {
        case Some(IntoRight) => cmds := cmds + [FillRect(0, 0, scrollX, camera.viewportHeight)];
        case Some(FromRight) => cmds := cmds + [FillRect(0, 0, scrollX, camera.viewportHeight)];
        case Some(IntoLeft) =>
          cmds := cmds + [FillRect(scrollX + combinedWidth, 0, camera.viewportWidth - (scrollX + combinedWidth), camera.viewportHeight)];
        case Some(FromLeft) =>
          cmds := cmds + [FillRect(scrollX + combinedWidth, 0, camera.viewportWidth - (scrollX + combinedWidth), camera.viewportHeight)];
        case None =>
      }
      cmds := cmds + [SetFill(Dither(pattern.value, scrollX)), FillRect(scrollX, 0, combinedWidth, camera.viewportHeight)];
    }
  }
}
