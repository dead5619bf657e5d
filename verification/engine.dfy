/**
 * The game engine: the status machine, the level loader and the per-tick simulation,
 * as one object whose fields change in place, owning its sprites and its sensor
 * accumulator. Rendering is not part of this model.
 *
 * The engine measures distances with `sqrt` and directions with `atan2`/`cos`/`sin`.
 * Those are the parameters `norm` (the length of a difference vector) and `heading`
 * (the cosine and sine of its angle); every test and formula around them follows the
 * source, and `Physics.DistanceTestsAgree` says what the tests mean for the true length.
 */
module Engine {
  import opened Wrappers
  import opened Geometry
  import Orientation
  import opened Sprites
  import opened Sensors
  import opened Physics

  /** `sqrt(pow(dx, 2) + pow(dy, 2))` for the difference vector `(dx, dy)`. */
  type Norm = Vec -> real

  /** `(cos(atan2(dy, dx)), sin(atan2(dy, dx)))` for the difference vector `(dx, dy)`. */
  type Heading = Vec -> Vec

  /** The length `norm` gives the difference vector `(dx, dy)`. */
  function Length(norm: Norm, dx: real, dy: real): real {
    norm(Vec(dx, dy))
  }

  /** The direction `heading` gives the difference vector `(dx, dy)`. */
  function Direction(heading: Heading, dx: real, dy: real): Vec {
    heading(Vec(dx, dy))
  }

  /** A square root is never negative. */
  ghost predicate NormNonNegative(norm: Norm) {
    forall dx, dy :: Length(norm, dx, dy) >= 0.0
  }

  /** The `random()` draws one level load consumes, in call order, each in [0, 1). */
  predicate SpawnDraws(draws: seq<real>) {
    |draws| == SPAWN_DRAWS && forall i :: 0 <= i < |draws| ==> 0.0 <= draws[i] < 1.0
  }

  predicate WellsWellFormed(wells: seq<Sprite>) {
    forall i :: 0 <= i < |wells| ==> wells[i].kind.GravityWell?
  }

  /** Enemies are distinct sprite objects of the enemy kind (each moves on its own). */
  predicate EnemiesWellFormed(es: seq<Sprite>) {
    (forall i :: 0 <= i < |es| ==> es[i].kind.Enemy?) && Distinct(es)
  }

  /** No object occurs twice in `es`. */
  predicate Distinct(es: seq<Sprite>) {
    es == [] || (es[0] !in es[1..] && Distinct(es[1..]))
  }

  /** Two different positions of a distinct sequence hold different objects. */
  lemma {:induction false} DistinctAt(es: seq<Sprite>, i: int, j: int)
    requires Distinct(es) && 0 <= i < |es| && 0 <= j < |es| && i != j
    ensures es[i] != es[j]
  {
    if i == 0 {
      assert es[j] == es[1..][j - 1];
    } else if j == 0 {
      assert es[i] == es[1..][i - 1];
    } else {
      DistinctAt(es[1..], i - 1, j - 1);
    }
  }

  /** Appending an object not yet present keeps a sequence distinct. */
  lemma {:induction false} DistinctSnoc(es: seq<Sprite>, e: Sprite)
    requires Distinct(es) && e !in es
    ensures Distinct(es + [e])
  {
    if es != [] {
      assert (es + [e])[1..] == es[1..] + [e];
      DistinctSnoc(es[1..], e);
    }
  }

  /**
   * The pull of the first `n` wells on a player at `(px, py)`: a well farther than 50
   * units adds nothing, a nearer one adds `1/(distance + 1) * power` along its heading.
   */
  ghost function GravityPull(px: real, py: real, wells: seq<Sprite>, norm: Norm, heading: Heading, n: nat): Vec
    requires n <= |wells| && WellsWellFormed(wells) && NormNonNegative(norm)
    reads wells
  {
    if n == 0 then Vec(0.0, 0.0)
    else
      var g := GravityPull(px, py, wells, norm, heading, n - 1);
      var well := wells[n - 1];
      var d := Length(norm, well.x - px, well.y - py);
      if !InWellRange(d) then g
      else
        var dir := Direction(heading, well.x - px, well.y - py);
        Vec(g.x + WellPull(d, well.Power(), dir.x), g.y + WellPull(d, well.Power(), dir.y))
  }

  /** Wells that are all out of range leave the player's acceleration to the tilt alone. */
  lemma {:induction false} FarWellsPullNothing(px: real, py: real, wells: seq<Sprite>, norm: Norm, heading: Heading, n: nat)
    requires n <= |wells| && WellsWellFormed(wells) && NormNonNegative(norm)
    requires forall i :: 0 <= i < n ==> !InWellRange(Length(norm, wells[i].x - px, wells[i].y - py))
    ensures GravityPull(px, py, wells, norm, heading, n) == Vec(0.0, 0.0)
  {
    if n > 0 {
      FarWellsPullNothing(px, py, wells, norm, heading, n - 1);
    }
  }

  /** One enemy's step in `moveEnemies`: `25 * seconds` units along the heading toward the player at `(px, py)`. */
  function Chase(p: Vec, px: real, py: real, seconds: real, heading: Heading): Vec {
    var dir := Direction(heading, px - p.x, py - p.y);
    Vec(p.x + ENEMY_SPEED * seconds * dir.x, p.y + ENEMY_SPEED * seconds * dir.y)
  }

  /** The enemies' positions, in order. */
  ghost function Positions(es: seq<Sprite>): (r: seq<Vec>)
    reads es
    ensures |r| == |es| && forall i :: 0 <= i < |es| ==> r[i] == Vec(es[i].x, es[i].y)
  {
    if es == [] then [] else Positions(es[..|es| - 1]) + [Vec(es[|es| - 1].x, es[|es| - 1].y)]
  }

  /** How many of the first `n` enemies the player at `(px, py)` touches. */
  function CollidingCount(px: real, py: real, es: seq<Sprite>, norm: Norm, n: nat): (c: nat)
    requires n <= |es|
    reads es
    ensures c <= n
  {
    if n == 0 then 0
    else
      var e := es[n - 1];
      CollidingCount(px, py, es, norm, n - 1)
        + (if Collides(Length(norm, px - e.x, py - e.y), e.w, e.h) then 1 else 0)
  }

  /** No enemy hit is counted exactly when no enemy is within its hit distance. */
  lemma {:induction false} NoHitIffNoneCollide(px: real, py: real, es: seq<Sprite>, norm: Norm, n: nat)
    requires n <= |es|
    ensures CollidingCount(px, py, es, norm, n) == 0
            <==> forall i :: 0 <= i < n ==> !Collides(Length(norm, px - es[i].x, py - es[i].y), es[i].w, es[i].h)
  {
    if n > 0 {
      NoHitIffNoneCollide(px, py, es, norm, n - 1);
    }
  }

  /** `n` vibrations of the same length. */
  function Repeat(ms: int, n: nat): (r: seq<int>)
    ensures |r| == n && forall i :: 0 <= i < n ==> r[i] == ms
  {
    if n == 0 then [] else Repeat(ms, n - 1) + [ms]
  }

  /**
   * Every value field of the engine, for stating what a method leaves as it was. The
   * sprite fields are references and are stated separately.
   */
  datatype EngineState = EngineState(
    gameBounds: Rect, unitPixels: int, status: Option<Status>, countdown: int,
    playerX: real, playerY: real, playerVX: real, playerVY: real,
    gateProximityTime: real, currentLevel: int,
    endingAnimation: bool, endingAnimationTick: int,
    deathAnimation: bool, deathAnimationTick: int,
    timeFactor: real,
    touchedBorderHorizontal: bool, touchedBorderVertical: bool, vibrations: seq<int>)

  /** The per-level reset of `loadLevel`: a fresh countdown, the dot at rest in the centre, no animation or contact pending. */
  function Reloaded(s: EngineState): EngineState {
    EngineState(s.gameBounds, s.unitPixels, Some(Countdown), COUNTDOWN_MS,
                0.0, 0.0, 0.0, 0.0,
                0.0, s.currentLevel,
                false, 0,
                s.deathAnimation, s.deathAnimationTick,
                s.timeFactor,
                false, false, s.vibrations)
  }

  /** The Euler step of a physics tick: the force `(fx, fy)` accelerates the dot, which then moves with its new velocity. */
  function Integrated(s: EngineState, fx: real, fy: real, seconds: real): EngineState {
    var vx := Accelerated(s.playerVX, fx, seconds);
    var vy := Accelerated(s.playerVY, fy, seconds);
    s.(playerVX := vx, playerVY := vy, playerX := Displaced(s.playerX, vx, seconds), playerY := Displaced(s.playerY, vy, seconds))
  }

  /** The enemy spawned as the `k`-th of a level: its kind, size and position from draws `4 + 2k` and `5 + 2k`. */
  ghost predicate EnemySpawned(e: Sprite, draws: seq<real>, k: int, bounds: Rect, u: real)
    requires |draws| == SPAWN_DRAWS && 0 <= k < ENEMY_COUNT
    reads e
  {
    e.kind == Kind.Enemy && e.unitPixels == u && e.w == 3.0 && e.h == 3.0
    && e.x == SpawnCoord(draws[4 + 2 * k], bounds.left, bounds.Width())
    && e.y == SpawnCoord(draws[5 + 2 * k], bounds.top, bounds.Height())
  }

  /**
   * The sprites one `loadLevel` spawns in `bounds`: the gate, one well of power 15 and
   * five enemies, each coordinate `r * (extent - 24) + min + 12`.
   */
  ghost predicate SpawnedFrom(draws: seq<real>, bounds: Rect, u: real, g: Sprite?, wells: seq<Sprite>, es: seq<Sprite>)
    requires |draws| == SPAWN_DRAWS
    reads g, wells, es
  {
    g != null && g.kind == Kind.Gate && g.unitPixels == u && g.w == 6.0 && g.h == 6.0
    && g.x == SpawnCoord(draws[0], bounds.left, bounds.Width())
    && g.y == SpawnCoord(draws[1], bounds.top, bounds.Height())
    && |wells| == 1
    && wells[0].kind == Kind.GravityWell(GRAVITY_WELL_MAX) && wells[0].unitPixels == u
    && wells[0].w == 4.0 && wells[0].h == 4.0
    && wells[0].x == SpawnCoord(draws[2], bounds.left, bounds.Width())
    && wells[0].y == SpawnCoord(draws[3], bounds.top, bounds.Height())
    && |es| == ENEMY_COUNT && EnemiesWellFormed(es)
    && forall k :: 0 <= k < ENEMY_COUNT ==> EnemySpawned(es[k], draws, k, bounds, u)
  }

  class GameEngine {
    const defaultOrientation: int
    const sensors: SensorAccumulator
    var gameBounds: Rect
    /** A float in the source that only ever holds an integer quotient. */
    var unitPixels: int
    /** None before `init` (the source's null). */
    var status: Option<Status>
    var countdown: int
    var playerX: real
    var playerY: real
    var playerVX: real
    var playerVY: real
    var gateProximityTime: real
    var currentLevel: int
    var endingAnimation: bool
    var endingAnimationTick: int
    var deathAnimation: bool
    var deathAnimationTick: int
    var timeFactor: real
    var gravityWells: seq<Sprite>
    var enemies: seq<Sprite>
    var gate: Sprite?
    var touchedBorderHorizontal: bool
    var touchedBorderVertical: bool
    /** The vibrator calls made so far, as their lengths in milliseconds. */
    var vibrations: seq<int>

    /** The engine's invariant: a sound sensor accumulator, status, arena and sprites. */
    ghost predicate Valid()
      reads this`status, this`countdown, this`gameBounds, this`gate, this`gravityWells, this`enemies, sensors
    {
      sensors.Valid() && StatusValid() && ArenaValid() && SpritesValid()
    }

    /** A COUNTDOWN status has time left, a PLAY status none. */
    ghost predicate StatusValid()
      reads this`status, this`countdown
    {
      status.Some? ==> Consistent(status.value, countdown)
    }

    /** The arena is centred on the origin. */
    ghost predicate ArenaValid()
      reads this`gameBounds
    {
      gameBounds.left == -gameBounds.right && gameBounds.top == -gameBounds.bottom
      && gameBounds.right >= 0 && gameBounds.bottom >= 0
    }

    /** Every sprite list holds sprites of its own kind; the enemies are distinct objects. */
    ghost predicate SpritesValid()
      reads this`gate, this`gravityWells, this`enemies
    {
      (gate != null ==> gate.kind.Gate?) && WellsWellFormed(gravityWells) && EnemiesWellFormed(enemies)
    }

    ghost function State(): EngineState
      reads this
    {
      EngineState(gameBounds, unitPixels, status, countdown,
                  playerX, playerY, playerVX, playerVY,
                  gateProximityTime, currentLevel,
                  endingAnimation, endingAnimationTick,
                  deathAnimation, deathAnimationTick,
                  timeFactor,
                  touchedBorderHorizontal, touchedBorderVertical, vibrations)
    }

    /** The engine's value fields are those of `s`: `State() == s`, field by field. */
    ghost predicate InState(s: EngineState)
      reads this
    {
      gameBounds == s.gameBounds && unitPixels == s.unitPixels && status == s.status && countdown == s.countdown
      && playerX == s.playerX && playerY == s.playerY && playerVX == s.playerVX && playerVY == s.playerVY
      && gateProximityTime == s.gateProximityTime && currentLevel == s.currentLevel
      && endingAnimation == s.endingAnimation && endingAnimationTick == s.endingAnimationTick
      && deathAnimation == s.deathAnimation && deathAnimationTick == s.deathAnimationTick
      && timeFactor == s.timeFactor
      && touchedBorderHorizontal == s.touchedBorderHorizontal && touchedBorderVertical == s.touchedBorderVertical
      && vibrations == s.vibrations
    }

    /** The engine still holds the same sprite objects (which may themselves have moved). */
    twostate predicate SameSprites()
      reads this
    {
      gate == old(gate) && gravityWells == old(gravityWells) && enemies == old(enemies)
    }

    /** The sprites of the current level are those `loadLevel` spawns from the draws. */
    ghost predicate Spawned(draws: seq<real>)
      requires |draws| == SPAWN_DRAWS
      reads this, gate, gravityWells, enemies
    {
      SpawnedFrom(draws, gameBounds, unitPixels as real, gate, gravityWells, enemies)
    }

    /** The engine before `init`: no status, no sprites, an unscaled clock, an empty sensor state. */
    constructor (rotation: int, configOrientation: int)
      ensures Valid() && fresh(sensors) && fresh(sensors.Repr) && sensors.State() == Initial()
      ensures defaultOrientation == Orientation.DefaultOrientation(rotation, configOrientation)
      ensures status == None && gate == null && gravityWells == [] && enemies == []
      ensures timeFactor == 1.0 && vibrations == []
    {
      defaultOrientation := Orientation.DefaultOrientation(rotation, configOrientation);
      sensors := new SensorAccumulator();
      gameBounds := Rect(0, 0, 0, 0);
      unitPixels := 0;
      status := None;
      countdown := 0;
      playerX, playerY, playerVX, playerVY := 0.0, 0.0, 0.0, 0.0;
      gateProximityTime := 0.0;
      currentLevel := 0;
      endingAnimation, endingAnimationTick := false, 0;
      deathAnimation, deathAnimationTick := false, 0;
      timeFactor := 1.0;
      gravityWells, enemies, gate := [], [], null;
      touchedBorderHorizontal, touchedBorderVertical := false, false;
      vibrations := [];
    }

    /**
     * `togglePause`: switching on a status that is still null (before `init`) throws;
     * otherwise the status toggles and stays consistent with the countdown.
     */
    method TogglePause() returns (outcome: Outcome)
      requires StatusValid()
      modifies this`status
      ensures StatusValid()
      ensures old(status).None? ==> outcome == Thrown(NullPointerException) && status == None
      ensures old(status).Some? ==> outcome == Completed && status == Some(Toggled(old(status).value, countdown))
    {
      if status.None? {
        outcome := Thrown(NullPointerException);
        return;
      }
      ToggleTwice(status.value, countdown);
      status := Some(Toggled(status.value, countdown));
      outcome := Completed;
    }

    /**
     * `init` on a surface of `w` by `h` pixels: the unit, the centred bounds in units,
     * then `updateInit`.
     */
    method Init(w: nat, h: nat, draws: seq<real>)
      requires Valid() && SpawnDraws(draws)
      modifies this
      ensures Valid() && Spawned(draws)
      ensures unitPixels == UnitPixels(w, h) && gameBounds == ArenaBounds(w, h, unitPixels)
      ensures InState(Reloaded(old(State()).(gameBounds := gameBounds, unitPixels := unitPixels, currentLevel := 1))
                      .(status := Some(Pause)))
      ensures fresh(gate)
    {
      SetArena(w, h);
      UpdateInit(draws);
    }

    /** The first half of `init`: the unit is the shorter side over 100, the bounds centred and in units. */
    method SetArena(w: nat, h: nat)
      modifies this`unitPixels, this`gameBounds
      ensures ArenaValid()
      ensures unitPixels == UnitPixels(w, h) && gameBounds == ArenaBounds(w, h, unitPixels)
    {
      unitPixels := UnitPixels(w, h);
      gameBounds := ArenaBounds(w, h, unitPixels);
    }

    /** `updateInit`: level 1, loaded, then paused. */
    method UpdateInit(draws: seq<real>)
      requires Valid() && SpawnDraws(draws)
      modifies this
      ensures Valid() && Spawned(draws)
      ensures InState(Reloaded(old(State()).(currentLevel := 1)).(status := Some(Pause)))
      ensures fresh(gate)
    {
      StartOver();
      LoadLevel(currentLevel, draws);
      status := Some(Pause);
    }

    /** The part of `updateInit` before `loadLevel`: new, empty sprite lists and level 1. */
    method StartOver()
      requires SpritesValid()
      modifies this`gravityWells, this`enemies, this`currentLevel
      ensures SpritesValid()
      ensures gravityWells == [] && enemies == [] && currentLevel == 1
    {
      gravityWells, enemies := [], [];
      currentLevel := 1;
    }

    /**
     * `loadLevel`: reset the per-level state and spawn new sprites. The level number
     * does not influence the layout.
     */
    method LoadLevel(num: int, draws: seq<real>)
      requires Valid() && SpawnDraws(draws)
      modifies this
      ensures Valid() && Spawned(draws)
      ensures InState(Reloaded(old(State())))
      ensures fresh(gate) && fresh(gravityWells[0])
      ensures forall i :: 0 <= i < |enemies| ==> fresh(enemies[i])
    {
      ghost var reloaded := Reloaded(State());
      ResetLevel();
      assert InState(reloaded);
      SpawnSprites(draws);
    }

    /** The first half of `loadLevel`: the per-level fields back to their start values. */
    method ResetLevel()
      modifies this`status, this`countdown, this`endingAnimation, this`gateProximityTime, this`endingAnimationTick
      modifies this`touchedBorderHorizontal, this`touchedBorderVertical
      modifies this`playerX, this`playerY, this`playerVX, this`playerVY
      ensures StatusValid()
      ensures status == Some(Countdown) && countdown == COUNTDOWN_MS
      ensures !endingAnimation && !touchedBorderHorizontal && !touchedBorderVertical
      ensures gateProximityTime == 0.0 && endingAnimationTick == 0
      ensures playerX == 0.0 && playerY == 0.0 && playerVX == 0.0 && playerVY == 0.0
    {
      ResetTimers();
      ResetPlayer();
    }

    /** The status, timers and flags `loadLevel` resets: a fresh 3-second countdown, no ending, no contact. */
    method ResetTimers()
      modifies this`status, this`countdown, this`endingAnimation, this`gateProximityTime, this`endingAnimationTick
      modifies this`touchedBorderHorizontal, this`touchedBorderVertical
      ensures StatusValid()
      ensures status == Some(Countdown) && countdown == COUNTDOWN_MS
      ensures !endingAnimation && !touchedBorderHorizontal && !touchedBorderVertical
      ensures gateProximityTime == 0.0 && endingAnimationTick == 0
    {
      status, countdown := Some(Countdown), COUNTDOWN_MS;
      endingAnimation, touchedBorderHorizontal, touchedBorderVertical := false, false, false;
      gateProximityTime, endingAnimationTick := 0.0, 0;
    }

    /** The dot as `loadLevel` leaves it: at rest in the centre. */
    method ResetPlayer()
      modifies this`playerX, this`playerY, this`playerVX, this`playerVY
      ensures playerX == 0.0 && playerY == 0.0 && playerVX == 0.0 && playerVY == 0.0
    {
      playerX, playerY, playerVX, playerVY := 0.0, 0.0, 0.0, 0.0;
    }

    /**
     * The second half of `loadLevel`, its `new` calls in source order: the gate from draws 0 and 1, the
     * well from draws 2 and 3, then the five enemies from draws 4 to 13.
     */
    method SpawnSprites(draws: seq<real>)
      requires |draws| == SPAWN_DRAWS
      modifies this`gate, this`gravityWells, this`enemies
      ensures Spawned(draws) && SpritesValid()
      ensures fresh(gate) && fresh(gravityWells[0]) && forall i :: 0 <= i < |enemies| ==> fresh(enemies[i])
    {
      var left, top, width, height := gameBounds.left, gameBounds.top, gameBounds.Width(), gameBounds.Height();
      var u := unitPixels as real;
      var g := new Sprite.Gate(SpawnCoord(draws[0], left, width), SpawnCoord(draws[1], top, height), u);
      var well := new Sprite.GravityWell(GRAVITY_WELL_MAX, SpawnCoord(draws[2], left, width),
                                          SpawnCoord(draws[3], top, height), u);
      var wells := [well];
      var es := [];
      for i := 0 to ENEMY_COUNT
        invariant |es| == i && EnemiesWellFormed(es)
        invariant forall k :: 0 <= k < i ==> fresh(es[k]) && EnemySpawned(es[k], draws, k, gameBounds, u)
        invariant g.kind == Kind.Gate && g.unitPixels == u && g.w == 6.0 && g.h == 6.0
        invariant g.x == SpawnCoord(draws[0], left, width) && g.y == SpawnCoord(draws[1], top, height)
        invariant well.kind == Kind.GravityWell(GRAVITY_WELL_MAX) && well.unitPixels == u && well.w == 4.0 && well.h == 4.0
        invariant well.x == SpawnCoord(draws[2], left, width) && well.y == SpawnCoord(draws[3], top, height)
      {
        var e := new Sprite.Enemy(SpawnCoord(draws[4 + 2 * i], left, width),
                                  SpawnCoord(draws[5 + 2 * i], top, height), u);
        DistinctSnoc(es, e);
        es := es + [e];
      }
      gate, gravityWells, enemies := g, wells, es;
    }

    /**
     * `update`: nothing before `init` or while paused; in COUNTDOWN the timer runs down
     * and PLAY starts once it is at most 0; in PLAY one game tick.
     */
    method Update(deltaT: int, draws: seq<real>, norm: Norm, heading: Heading)
      requires Valid() && SpawnDraws(draws) && NormNonNegative(norm)
      modifies this, sensors.Repr, enemies`x, enemies`y
      ensures Valid()
      ensures old(status).None? || old(status) == Some(Pause) ==>
                unchanged(this) && unchanged(sensors.Repr) && unchanged(enemies)
      ensures old(status) == Some(Countdown) ==>
                var next := CountdownStep(old(countdown), deltaT);
                InState(old(State()).(countdown := next.0, status := Some(next.1)))
                && SameSprites() && unchanged(sensors.Repr) && unchanged(enemies)
      ensures old(status) == Some(Play) ==> Played(deltaT, draws, norm, heading)
    {
      if status.None? {
        return;
      }
      match status.value
      case Play =>
        UpdateGame(deltaT, draws, norm, heading);
      case Countdown =>
        CountDown(deltaT);
      case Pause =>
    }

    /** The COUNTDOWN case of `update`: deltaT off the timer, and PLAY once it is at most 0. */
    method CountDown(deltaT: int)
      requires status == Some(Countdown)
      modifies this`countdown, this`status
      ensures StatusValid()
      ensures var next := CountdownStep(old(countdown), deltaT);
              countdown == next.0 && status == Some(next.1)
    {
      countdown := countdown - deltaT;
      if countdown <= 0 {
        status := Some(Play);
      }
    }

    /**
     * What one PLAY tick does (`updateGame`): nothing without a gate; otherwise the
     * sensors are pulled and reset, then a death tick, an ending tick or a physics tick.
     * The death and ending ticks keep the sprites unless they reload the level.
     */
    twostate predicate Played(deltaT: int, draws: seq<real>, norm: Norm, heading: Heading)
      requires old(Valid()) && |draws| == SPAWN_DRAWS && NormNonNegative(norm)
      reads this, sensors, sensors.Repr, gate, gravityWells, enemies
    {
      var dt := ScaledDelta(deltaT, old(timeFactor));
      if old(gate) == null then
        unchanged(this) && unchanged(sensors.Repr) && unchanged(enemies)
      else
        var tilt := MapAxes(defaultOrientation, old(sensors.State()).avg);
        sensors.Valid() && sensors.State() == Initial()
        && Ticked(old(State()), old(Moved(dt, tilt, norm, heading)), old(Positions(enemies)),
                  old((gate, gravityWells, enemies)), dt, draws, norm, heading)
    }

    /**
     * The step a PLAY tick takes from `before`, with the sprites `sprites` at `positions`
     * and `moved` the Euler step of the physics branch: a death tick, an ending tick or
     * a physics tick. The death and ending ticks keep the sprites where they were unless
     * they reload the level.
     */
    ghost predicate Ticked(before: EngineState, moved: EngineState, positions: seq<Vec>,
                           sprites: (Sprite?, seq<Sprite>, seq<Sprite>), dt: int, draws: seq<real>, norm: Norm, heading: Heading)
      requires |draws| == SPAWN_DRAWS
      reads this, gate, gravityWells, enemies
    {
      var kept := (gate, gravityWells, enemies) == sprites && |enemies| == |positions|
                  && forall i :: 0 <= i < |enemies| ==> Vec(enemies[i].x, enemies[i].y) == positions[i];
      if before.deathAnimation then
        DeathTicked(before, Seconds(dt), draws)
        && (before.deathAnimationTick < DEATH_ANIMATION_TICKS ==> kept)
      else if before.endingAnimation then
        gate != null && EndingTicked(before, draws)
        && (before.endingAnimationTick < ENDING_ANIMATION_TICKS ==> kept)
      else
        (gate, gravityWells, enemies) == sprites && gate != null && Unjudged(before)
        && PhysicsTicked(moved, positions, dt, norm, heading)
    }

    /** The fields a physics tick leaves alone: the arena, the status and timers, the level, the clock scale. */
    ghost predicate Unjudged(s: EngineState)
      reads this`gameBounds, this`unitPixels, this`status, this`countdown, this`currentLevel
      reads this`endingAnimationTick, this`timeFactor
    {
      gameBounds == s.gameBounds && unitPixels == s.unitPixels && status == s.status && countdown == s.countdown
      && currentLevel == s.currentLevel && endingAnimationTick == s.endingAnimationTick && timeFactor == s.timeFactor
    }

    /**
     * A death tick from `before`: the player drifts with its velocity; the 11th tick
     * vibrates for a second, clears the death animation, advances the level and reloads it.
     */
    ghost predicate DeathTicked(before: EngineState, seconds: real, draws: seq<real>)
      requires |draws| == SPAWN_DRAWS
      reads this, gate, gravityWells, enemies
    {
      var tick := before.deathAnimationTick + 1;
      if tick > DEATH_ANIMATION_TICKS then
        Spawned(draws)
        && InState(Reloaded(before).(
             deathAnimation := false, deathAnimationTick := tick, currentLevel := before.currentLevel + 1,
             vibrations := before.vibrations + [DEATH_VIBRATION_MS]))
      else
        InState(before.(deathAnimationTick := tick,
                       playerX := Displaced(before.playerX, before.playerVX, seconds),
                       playerY := Displaced(before.playerY, before.playerVY, seconds)))
    }

    /**
     * An ending tick from `before`: the player moves halfway to the gate; the 11th tick
     * advances the level and reloads it.
     */
    ghost predicate EndingTicked(before: EngineState, draws: seq<real>)
      requires |draws| == SPAWN_DRAWS && gate != null
      reads this, gate, gravityWells, enemies
    {
      var tick := before.endingAnimationTick + 1;
      if tick > ENDING_ANIMATION_TICKS then
        Spawned(draws)
        && InState(Reloaded(before).(currentLevel := before.currentLevel + 1))
      else
        InState(before.(endingAnimationTick := tick,
                       playerX := EaseToward(before.playerX, gate.x),
                       playerY := EaseToward(before.playerY, gate.y)))
    }

    /** The dot after the Euler step of a physics tick: the tilt plus the wells' pull accelerate it, then it moves. */
    ghost function Moved(dt: int, tilt: Vec, norm: Norm, heading: Heading): EngineState
      requires WellsWellFormed(gravityWells) && NormNonNegative(norm)
      reads this, gravityWells
    {
      var g := GravityPull(playerX, playerY, gravityWells, norm, heading, |gravityWells|);
      Integrated(State(), tilt.x + g.x, tilt.y + g.y, Seconds(dt))
    }

    /**
     * The three checks that close a physics tick, at the dot position of `s` against
     * the enemies and the gate where they now are: hits, then gate dwell, then the bounce.
     */
    ghost predicate JudgedFrom(s: EngineState, dt: int, norm: Norm)
      requires gate != null
      reads this`gate, this`enemies, gate, enemies
      reads this`vibrations, this`deathAnimation, this`deathAnimationTick, this`gateProximityTime, this`endingAnimation
      reads this`playerX, this`playerY, this`playerVX, this`playerVY, this`touchedBorderHorizontal, this`touchedBorderVertical
    {
      var hits := CollidingCount(s.playerX, s.playerY, enemies, norm, |enemies|);
      var near := NearGate(Length(norm, s.playerX - gate.x, s.playerY - gate.y));
      var hb := BounceAxis(s.playerX, s.playerVX, s.gameBounds.left, s.gameBounds.right, s.touchedBorderHorizontal);
      var vb := BounceAxis(s.playerY, s.playerVY, s.gameBounds.top, s.gameBounds.bottom, s.touchedBorderVertical);
      vibrations == s.vibrations + Repeat(HIT_VIBRATION_MS, hits) + BounceVibrations(hb) + BounceVibrations(vb)
      && deathAnimation == (s.deathAnimation || hits > 0)
      && deathAnimationTick == (if hits > 0 then 0 else s.deathAnimationTick)
      && gateProximityTime == GateDwell(s.gateProximityTime, near, dt)
      && endingAnimation == (s.endingAnimation || GateOpens(s.gateProximityTime, near, dt))
      && playerX == hb.pos && playerVX == hb.vel && touchedBorderHorizontal == hb.touching
      && playerY == vb.pos && playerVY == vb.vel && touchedBorderVertical == vb.touching
    }

    /**
     * After the checks the dot lies inside the arena, whatever the Euler step did, and the
     * checks only append to the vibration log: one entry per hit and at most one per axis.
     */
    lemma JudgedInsideArena(s: EngineState, dt: int, norm: Norm)
      requires gate != null && JudgedFrom(s, dt, norm)
      requires s.gameBounds.left <= s.gameBounds.right && s.gameBounds.top <= s.gameBounds.bottom
      ensures s.gameBounds.left as real <= playerX <= s.gameBounds.right as real
      ensures s.gameBounds.top as real <= playerY <= s.gameBounds.bottom as real
      ensures var hits := CollidingCount(s.playerX, s.playerY, enemies, norm, |enemies|);
              vibrations[..|s.vibrations| + hits] == s.vibrations + Repeat(HIT_VIBRATION_MS, hits)
              && |vibrations| <= |s.vibrations| + hits + 2
    {
      BounceAxisClamps(s.playerX, s.playerVX, s.gameBounds.left, s.gameBounds.right, s.touchedBorderHorizontal);
      BounceAxisClamps(s.playerY, s.playerVY, s.gameBounds.top, s.gameBounds.bottom, s.touchedBorderVertical);
    }

    /**
     * A physics tick whose Euler step gave `moved`: the enemies closed in from `positions`
     * on the moved dot, and hits, gate dwell and the bounce were judged there, each hit
     * or hard new bounce vibrating.
     */
    ghost predicate PhysicsTicked(moved: EngineState, positions: seq<Vec>, dt: int, norm: Norm, heading: Heading)
      requires gate != null
      reads this, gate, enemies
    {
      |enemies| == |positions|
      && (forall i :: 0 <= i < |enemies| ==>
            Vec(enemies[i].x, enemies[i].y) == Chase(positions[i], moved.playerX, moved.playerY, Seconds(dt), heading))
      && JudgedFrom(moved, dt, norm)
    }

    /**
     * `updateGame`: without a gate nothing happens; otherwise deltaT is scaled by the
     * time factor, the sensors are pulled (and so reset) and their sample mapped onto
     * the arena's axes, then exactly one of the death, ending and physics steps runs.
     */
    method UpdateGame(deltaT: int, draws: seq<real>, norm: Norm, heading: Heading)
      requires Valid() && SpawnDraws(draws) && NormNonNegative(norm)
      modifies this, sensors.Repr, enemies`x, enemies`y
      ensures Valid()
      ensures Played(deltaT, draws, norm, heading)
    {
      if gate == null {
        return;
      }
      var dt := ScaledDelta(deltaT, timeFactor);
      ghost var before, positions, sprites := State(), Positions(enemies), (gate, gravityWells, enemies);
      var tilt := PullTilt(dt, norm, heading);
      Tick(dt, tilt, draws, norm, heading, before, Moved(dt, tilt, norm, heading), positions, sprites);
    }

    /**
     * `sensors.pull()` mapped onto the arena's axes: the accumulator is reset and
     * nothing the tick depends on changes.
     */
    method PullTilt(dt: int, norm: Norm, heading: Heading) returns (tilt: Vec)
      requires sensors.Valid() && WellsWellFormed(gravityWells) && NormNonNegative(norm)
      modifies sensors.Repr
      ensures sensors.Valid() && sensors.State() == Initial()
      ensures tilt == MapAxes(defaultOrientation, old(sensors.State()).avg)
      ensures unchanged(this) && Positions(enemies) == old(Positions(enemies))
      ensures Moved(dt, tilt, norm, heading) == old(Moved(dt, tilt, norm, heading))
    {
      var sample := sensors.Pull();
      tilt := MapAxes(defaultOrientation, sample);
    }

    /** The dispatch of `updateGame` after the sensors are pulled: death, ending or physics. */
    method Tick(dt: int, tilt: Vec, draws: seq<real>, norm: Norm, heading: Heading,
                  ghost before: EngineState, ghost moved: EngineState, ghost positions: seq<Vec>,
                  ghost sprites: (Sprite?, seq<Sprite>, seq<Sprite>))
      requires Valid() && SpawnDraws(draws) && NormNonNegative(norm) && gate != null
      requires InState(before) && moved == Moved(dt, tilt, norm, heading) && positions == Positions(enemies)
      requires sprites == (gate, gravityWells, enemies)
      modifies this, enemies`x, enemies`y
      ensures Valid()
      ensures Ticked(before, moved, positions, sprites, dt, draws, norm, heading)
    {
      if deathAnimation {
        DeathBranch(dt, tilt, draws, norm, heading);
      } else if endingAnimation {
        EndingBranch(dt, tilt, draws, norm, heading);
      } else {
        PhysicsBranch(dt, tilt, draws, norm, heading);
      }
    }

    /** The physics branch of the dispatch. */
    method PhysicsBranch(dt: int, tilt: Vec, draws: seq<real>, norm: Norm, heading: Heading)
      requires Valid() && SpawnDraws(draws) && NormNonNegative(norm) && gate != null && !deathAnimation && !endingAnimation
      modifies this, enemies`x, enemies`y
      ensures Valid()
      ensures Ticked(old(State()), old(Moved(dt, tilt, norm, heading)), old(Positions(enemies)),
                     old((gate, gravityWells, enemies)), dt, draws, norm, heading)
    {
      ghost var before := State();
      assert Unjudged(before);
      PhysicsTick(dt, tilt, norm, heading);
    }

    /** The death branch of the dispatch. */
    method DeathBranch(dt: int, tilt: Vec, draws: seq<real>, norm: Norm, heading: Heading)
      requires Valid() && SpawnDraws(draws) && NormNonNegative(norm) && gate != null && deathAnimation
      modifies this, enemies`x, enemies`y
      ensures Valid()
      ensures Ticked(old(State()), old(Moved(dt, tilt, norm, heading)), old(Positions(enemies)),
                     old((gate, gravityWells, enemies)), dt, draws, norm, heading)
    {
      DeathTick(Seconds(dt), draws);
    }

    /** The ending branch of the dispatch. */
    method EndingBranch(dt: int, tilt: Vec, draws: seq<real>, norm: Norm, heading: Heading)
      requires Valid() && SpawnDraws(draws) && NormNonNegative(norm) && gate != null && !deathAnimation && endingAnimation
      modifies this, enemies`x, enemies`y
      ensures Valid()
      ensures Ticked(old(State()), old(Moved(dt, tilt, norm, heading)), old(Positions(enemies)),
                     old((gate, gravityWells, enemies)), dt, draws, norm, heading)
    {
      EndingTick(draws);
    }

    /** The death branch of `updateGame`: the drift, and on the 11th tick `onDeath`. */
    method DeathTick(seconds: real, draws: seq<real>)
      requires Valid() && SpawnDraws(draws)
      modifies this
      ensures Valid() && DeathTicked(old(State()), seconds, draws)
      ensures old(deathAnimationTick) < DEATH_ANIMATION_TICKS ==> SameSprites()
    {
      Drift(seconds);
      if deathAnimationTick > DEATH_ANIMATION_TICKS {
        OnDeath(draws);
      }
    }

    /** One frame of the death animation: the tick counts up and the dot drifts with its velocity. */
    method Drift(seconds: real)
      modifies this`deathAnimationTick, this`playerX, this`playerY
      ensures deathAnimationTick == old(deathAnimationTick) + 1
      ensures playerX == Displaced(old(playerX), playerVX, seconds) && playerY == Displaced(old(playerY), playerVY, seconds)
    {
      deathAnimationTick := deathAnimationTick + 1;
      playerX := playerX + playerVX * seconds;
      playerY := playerY + playerVY * seconds;
    }

    /** The ending branch of `updateGame`: the approach, and on the 11th tick `onExitLevel`. */
    method EndingTick(draws: seq<real>)
      requires Valid() && SpawnDraws(draws) && gate != null
      modifies this
      ensures Valid() && gate != null && EndingTicked(old(State()), draws)
      ensures old(endingAnimationTick) < ENDING_ANIMATION_TICKS ==> SameSprites()
    {
      Approach();
      if endingAnimationTick > ENDING_ANIMATION_TICKS {
        OnExitLevel(draws);
      }
    }

    /** One frame of the ending animation: the tick counts up and the dot moves halfway to the gate. */
    method Approach()
      requires gate != null
      modifies this`endingAnimationTick, this`playerX, this`playerY
      ensures endingAnimationTick == old(endingAnimationTick) + 1
      ensures playerX == EaseToward(old(playerX), gate.x) && playerY == EaseToward(old(playerY), gate.y)
    {
      endingAnimationTick := endingAnimationTick + 1;
      playerX := playerX + (gate.x - playerX) / 2.0;
      playerY := playerY + (gate.y - playerY) / 2.0;
    }

    /** The physics part of `updateGame`, from the gravity loop to the border check. */
    method PhysicsTick(dt: int, tilt: Vec, norm: Norm, heading: Heading)
      requires WellsWellFormed(gravityWells) && EnemiesWellFormed(enemies) && gate != null && NormNonNegative(norm)
      modifies this`playerX, this`playerY, this`playerVX, this`playerVY
      modifies this`vibrations, this`deathAnimation, this`deathAnimationTick
      modifies this`gateProximityTime, this`endingAnimation
      modifies this`touchedBorderHorizontal, this`touchedBorderVertical, enemies`x, enemies`y
      ensures PhysicsTicked(old(Moved(dt, tilt, norm, heading)), old(Positions(enemies)), dt, norm, heading)
    {
      ghost var moved := Moved(dt, tilt, norm, heading);
      ghost var positions := Positions(enemies);
      var x, y := ApplyGravity(tilt, norm, heading);
      assert moved == Integrated(State(), x, y, Seconds(dt)) && positions == Positions(enemies);
      AdvanceAndJudge(x, y, dt, norm, heading);
    }

    /** The physics tick after the gravity loop: the Euler step under `(x, y)`, the enemies' chase, then the checks. */
    method AdvanceAndJudge(x: real, y: real, dt: int, norm: Norm, heading: Heading)
      requires EnemiesWellFormed(enemies) && gate != null
      modifies this`playerX, this`playerY, this`playerVX, this`playerVY
      modifies this`vibrations, this`deathAnimation, this`deathAnimationTick
      modifies this`gateProximityTime, this`endingAnimation
      modifies this`touchedBorderHorizontal, this`touchedBorderVertical, enemies`x, enemies`y
      ensures PhysicsTicked(old(Integrated(State(), x, y, Seconds(dt))), old(Positions(enemies)), dt, norm, heading)
    {
      ghost var moved := Integrated(State(), x, y, Seconds(dt));
      ghost var positions := Positions(enemies);
      Advance(x, y, Seconds(dt), heading);
      assert playerX == moved.playerX && playerY == moved.playerY && playerVX == moved.playerVX && playerVY == moved.playerVY;
      assert InState(moved);
      assert |enemies| == |positions| && forall i :: 0 <= i < |enemies| ==>
        Vec(enemies[i].x, enemies[i].y) == Chase(positions[i], moved.playerX, moved.playerY, Seconds(dt), heading);
      Judge(dt, norm, moved);
    }

    /** The Euler step under the force `(x, y)`, then `moveEnemies` toward the moved dot. */
    method Advance(x: real, y: real, seconds: real, heading: Heading)
      requires EnemiesWellFormed(enemies)
      modifies this`playerX, this`playerY, this`playerVX, this`playerVY, enemies`x, enemies`y
      ensures playerVX == Accelerated(old(playerVX), x, seconds) && playerX == Displaced(old(playerX), playerVX, seconds)
      ensures playerVY == Accelerated(old(playerVY), y, seconds) && playerY == Displaced(old(playerY), playerVY, seconds)
      ensures forall i :: 0 <= i < |enemies| ==>
                Vec(enemies[i].x, enemies[i].y) == Chase(old(Vec(enemies[i].x, enemies[i].y)), playerX, playerY, seconds, heading)
    {
      Integrate(x, y, seconds);
      MoveEnemies(seconds, heading);
    }

    /** `updateGame`'s explicit Euler step: the force accelerates the dot, then the new velocity moves it. */
    method Integrate(x: real, y: real, seconds: real)
      modifies this`playerX, this`playerY, this`playerVX, this`playerVY
      ensures playerVX == Accelerated(old(playerVX), x, seconds) && playerX == Displaced(old(playerX), playerVX, seconds)
      ensures playerVY == Accelerated(old(playerVY), y, seconds) && playerY == Displaced(old(playerY), playerVY, seconds)
    {
      playerVX := playerVX + x / DOT_MASS * seconds;
      playerVY := playerVY + y / DOT_MASS * seconds;
      playerX := playerX + playerVX * seconds;
      playerY := playerY + playerVY * seconds;
    }

    /** The three checks that close `updateGame`, all at the dot's moved position. */
    method Judge(dt: int, norm: Norm, ghost s: EngineState)
      requires gate != null && InState(s)
      modifies this`vibrations, this`deathAnimation, this`deathAnimationTick
      modifies this`gateProximityTime, this`endingAnimation
      modifies this`playerX, this`playerY, this`playerVX, this`playerVY
      modifies this`touchedBorderHorizontal, this`touchedBorderVertical
      ensures JudgedFrom(s, dt, norm)
    {
      HitAndDwell(dt, norm);
      HandleBorderCollision();
    }

    /** `handleEnemyCollision` then `handleGateProximity`, both at the dot's current position. */
    method HitAndDwell(dt: int, norm: Norm)
      requires gate != null
      modifies this`vibrations, this`deathAnimation, this`deathAnimationTick
      modifies this`gateProximityTime, this`endingAnimation
      ensures var hits := CollidingCount(playerX, playerY, enemies, norm, |enemies|);
              vibrations == old(vibrations) + Repeat(HIT_VIBRATION_MS, hits)
              && deathAnimation == (old(deathAnimation) || hits > 0)
              && deathAnimationTick == if hits > 0 then 0 else old(deathAnimationTick)
      ensures var near := NearGate(Length(norm, playerX - gate.x, playerY - gate.y));
              gateProximityTime == GateDwell(old(gateProximityTime), near, dt)
              && (endingAnimation <==> old(endingAnimation) || GateOpens(old(gateProximityTime), near, dt))
    {
      HandleEnemyCollision(norm);
      HandleGateProximity(dt, norm);
    }

    /**
     * The gravity loop of `updateGame`: starting from the tilt, each well within range
     * adds its pull. It reads the player's position before this tick's move.
     */
    method ApplyGravity(tilt: Vec, norm: Norm, heading: Heading) returns (x: real, y: real)
      requires WellsWellFormed(gravityWells) && NormNonNegative(norm)
      ensures x == tilt.x + GravityPull(playerX, playerY, gravityWells, norm, heading, |gravityWells|).x
      ensures y == tilt.y + GravityPull(playerX, playerY, gravityWells, norm, heading, |gravityWells|).y
    {
      x, y := tilt.x, tilt.y;
      for i := 0 to |gravityWells|
        invariant x == tilt.x + GravityPull(playerX, playerY, gravityWells, norm, heading, i).x
        invariant y == tilt.y + GravityPull(playerX, playerY, gravityWells, norm, heading, i).y
      {
        var well := gravityWells[i];
        var deltaX, deltaY := well.x - playerX, well.y - playerY;
        var distance := Length(norm, deltaX, deltaY);
        if distance > GRAVITY_WELL_MAXDISTANCE {
          continue;
        }
        var dir := Direction(heading, deltaX, deltaY);
        // WellPull divides by `distance + 1`, the source's `distance++`.
        x := x + WellPull(distance, well.Power(), dir.x);
        y := y + WellPull(distance, well.Power(), dir.y);
      }
    }

    /** `moveEnemies`: every enemy steps toward the player's current position; nothing but enemy positions changes. */
    method MoveEnemies(seconds: real, heading: Heading)
      requires EnemiesWellFormed(enemies)
      modifies enemies`x, enemies`y
      ensures unchanged(this)
      ensures forall i :: 0 <= i < |enemies| ==>
                Vec(enemies[i].x, enemies[i].y) == Chase(old(Vec(enemies[i].x, enemies[i].y)), playerX, playerY, seconds, heading)
    {
      for i := 0 to |enemies|
        invariant unchanged(this)
        invariant forall j :: 0 <= j < i ==>
                    Vec(enemies[j].x, enemies[j].y) == Chase(old(Vec(enemies[j].x, enemies[j].y)), playerX, playerY, seconds, heading)
        invariant forall j :: i <= j < |enemies| ==> enemies[j].x == old(enemies[j].x) && enemies[j].y == old(enemies[j].y)
      {
        var enemy := enemies[i];
        forall j | 0 <= j < |enemies| && j != i
          ensures enemies[j] != enemy
        {
          DistinctAt(enemies, j, i);
        }
        var next := Chase(Vec(enemy.x, enemy.y), playerX, playerY, seconds, heading);
        enemy.SetX(next.x);
        enemy.SetY(next.y);
      }
    }

    /**
     * `handleEnemyCollision`: each enemy within its hit distance vibrates once and
     * (re)starts the death animation.
     */
    method HandleEnemyCollision(norm: Norm)
      modifies this`vibrations, this`deathAnimation, this`deathAnimationTick
      ensures var hits := CollidingCount(playerX, playerY, enemies, norm, |enemies|);
              vibrations == old(vibrations) + Repeat(HIT_VIBRATION_MS, hits)
              && deathAnimation == (old(deathAnimation) || hits > 0)
              && deathAnimationTick == if hits > 0 then 0 else old(deathAnimationTick)
    {
      for i := 0 to |enemies|
        invariant var hits := CollidingCount(playerX, playerY, enemies, norm, i);
                  vibrations == old(vibrations) + Repeat(HIT_VIBRATION_MS, hits)
                  && deathAnimation == (old(deathAnimation) || hits > 0)
                  && deathAnimationTick == if hits > 0 then 0 else old(deathAnimationTick)
      {
        var enemy := enemies[i];
        var dist := Length(norm, playerX - enemy.x, playerY - enemy.y);
        if dist < HitDistance(enemy.w, enemy.h) {
          OnEnemyCollision();
        }
      }
    }

    /** `onEnemyCollision`: a 40 ms vibration, and the death animation (re)starts. */
    method OnEnemyCollision()
      modifies this`vibrations, this`deathAnimation, this`deathAnimationTick
      ensures vibrations == old(vibrations) + [HIT_VIBRATION_MS]
      ensures deathAnimation && deathAnimationTick == 0
    {
      vibrations := vibrations + [HIT_VIBRATION_MS];
      deathAnimation := true;
      deathAnimationTick := 0;
    }

    /**
     * `handleGateProximity`: away from the gate the dwell timer drops to 0; near it
     * the timer grows by deltaT and the ending starts once it reaches 100 ms.
     */
    method HandleGateProximity(deltaT: int, norm: Norm)
      modifies this`gateProximityTime, this`endingAnimation
      ensures gate == null ==> gateProximityTime == old(gateProximityTime) && endingAnimation == old(endingAnimation)
      ensures gate != null ==>
                var near := NearGate(Length(norm, playerX - gate.x, playerY - gate.y));
                gateProximityTime == GateDwell(old(gateProximityTime), near, deltaT)
                && (endingAnimation <==> old(endingAnimation) || GateOpens(old(gateProximityTime), near, deltaT))
    {
      if gate == null {
        return;
      }
      var dist := Length(norm, playerX - gate.x, playerY - gate.y);
      if dist > GATE_PROXIMITY {
        gateProximityTime := 0.0;
        return;
      }
      gateProximityTime := gateProximityTime + deltaT as real;
      if gateProximityTime >= GATE_EXIT_TIME as real {
        endingAnimation := true;
      }
    }

    /**
     * `handleBorderCollision`: each axis is clamped and bounced independently, horizontal
     * first, as `Physics.BounceAxis` states.
     */
    method HandleBorderCollision()
      modifies this`playerX, this`playerY, this`playerVX, this`playerVY
      modifies this`touchedBorderHorizontal, this`touchedBorderVertical, this`vibrations
      ensures var hb := BounceAxis(old(playerX), old(playerVX), gameBounds.left, gameBounds.right, old(touchedBorderHorizontal));
              var vb := BounceAxis(old(playerY), old(playerVY), gameBounds.top, gameBounds.bottom, old(touchedBorderVertical));
              playerX == hb.pos && playerVX == hb.vel && touchedBorderHorizontal == hb.touching
              && playerY == vb.pos && playerVY == vb.vel && touchedBorderVertical == vb.touching
              && vibrations == old(vibrations) + BounceVibrations(hb) + BounceVibrations(vb)
    {
      BounceHorizontally();
      BounceVertically();
    }

    /** The horizontal half of `handleBorderCollision`. */
    method BounceHorizontally()
      modifies this`playerX, this`playerVX, this`touchedBorderHorizontal, this`vibrations
      ensures var b := BounceAxis(old(playerX), old(playerVX), gameBounds.left, gameBounds.right, old(touchedBorderHorizontal));
              playerX == b.pos && playerVX == b.vel && touchedBorderHorizontal == b.touching
              && vibrations == old(vibrations) + BounceVibrations(b)
    {
      if playerX < gameBounds.left as real {
        playerX := gameBounds.left as real;
        playerVX := -playerVX * DOT_BOUNCE;
        if !touchedBorderHorizontal {
          OnBorderCollision(playerVX);
          touchedBorderHorizontal := true;
        }
      } else if playerX > gameBounds.right as real {
        playerX := gameBounds.right as real;
        playerVX := -playerVX * DOT_BOUNCE;
        if !touchedBorderHorizontal {
          OnBorderCollision(playerVX);
          touchedBorderHorizontal := true;
        }
      } else {
        touchedBorderHorizontal := false;
      }
    }

    /** The vertical half of `handleBorderCollision`. */
    method BounceVertically()
      modifies this`playerY, this`playerVY, this`touchedBorderVertical, this`vibrations
      ensures var b := BounceAxis(old(playerY), old(playerVY), gameBounds.top, gameBounds.bottom, old(touchedBorderVertical));
              playerY == b.pos && playerVY == b.vel && touchedBorderVertical == b.touching
              && vibrations == old(vibrations) + BounceVibrations(b)
    {
      if playerY < gameBounds.top as real {
        playerY := gameBounds.top as real;
        playerVY := -playerVY * DOT_BOUNCE;
        if !touchedBorderVertical {
          OnBorderCollision(playerVY);
          touchedBorderVertical := true;
        }
      } else if playerY > gameBounds.bottom as real {
        playerY := gameBounds.bottom as real;
        playerVY := -playerVY * DOT_BOUNCE;
        if !touchedBorderVertical {
          OnBorderCollision(playerVY);
          touchedBorderVertical := true;
        }
      } else {
        touchedBorderVertical := false;
      }
    }

    /** `onBorderCollision`: a 40 ms vibration for a bounce faster than 3 units/s. */
    method OnBorderCollision(v: real)
      modifies this`vibrations
      ensures vibrations == old(vibrations) + (if BounceVibrates(v) then [BOUNCE_VIBRATION_MS] else [])
    {
      if (if v < 0.0 then -v else v) > TRIGGERING_VIBRATION_BOUNCE_SPEED {
        vibrations := vibrations + [BOUNCE_VIBRATION_MS];
      }
    }

    /**
     * `onDeath`: a one-second vibration, the death animation off, then the same next-level
     * step as `onExitLevel`.
     */
    method OnDeath(draws: seq<real>)
      requires Valid() && SpawnDraws(draws)
      modifies this
      ensures Valid() && Spawned(draws)
      ensures InState(Reloaded(old(State())).(
                deathAnimation := false, currentLevel := old(currentLevel) + 1,
                vibrations := old(vibrations) + [DEATH_VIBRATION_MS]))
      ensures fresh(gate)
    {
      vibrations, deathAnimation := vibrations + [DEATH_VIBRATION_MS], false;
      OnExitLevel(draws);
    }

    /** `onExitLevel`: the next level. */
    method OnExitLevel(draws: seq<real>)
      requires Valid() && SpawnDraws(draws)
      modifies this
      ensures Valid() && Spawned(draws)
      ensures InState(Reloaded(old(State())).(currentLevel := old(currentLevel) + 1))
      ensures fresh(gate)
    {
      currentLevel := currentLevel + 1;
      LoadLevel(currentLevel, draws);
    }
  }

  /**
   * In an arena wider and taller than four gate sizes, every sprite a level load spawns
   * keeps twice the gate size from each border.
   */
  lemma SpawnedInsideArena(e: GameEngine, draws: seq<real>)
    requires SpawnDraws(draws) && e.Spawned(draws)
    requires e.gameBounds.Width() > 4 * GATE_SIZE && e.gameBounds.Height() > 4 * GATE_SIZE
    ensures e.gate != null && InsideMargin(e.gate, e.gameBounds)
    ensures forall w :: w in e.gravityWells ==> InsideMargin(w, e.gameBounds)
    ensures forall en :: en in e.enemies ==> InsideMargin(en, e.gameBounds)
  {
    var b := e.gameBounds;
    SpawnKeepsMargin(draws[0], b.left, b.Width());
    SpawnKeepsMargin(draws[1], b.top, b.Height());
    SpawnKeepsMargin(draws[2], b.left, b.Width());
    SpawnKeepsMargin(draws[3], b.top, b.Height());
    forall i | 0 <= i < ENEMY_COUNT
      ensures InsideMargin(e.enemies[i], b)
    {
      SpawnKeepsMargin(draws[4 + 2 * i], b.left, b.Width());
      SpawnKeepsMargin(draws[5 + 2 * i], b.top, b.Height());
    }
  }

  /** A sprite centre at least twice the gate size inside every edge of the bounds. */
  ghost predicate InsideMargin(s: Sprite, b: Rect)
    reads s
  {
    (b.left + 2 * GATE_SIZE) as real <= s.x < (b.right - 2 * GATE_SIZE) as real
    && (b.top + 2 * GATE_SIZE) as real <= s.y < (b.bottom - 2 * GATE_SIZE) as real
  }
}
