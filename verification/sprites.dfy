/**
 * Animated sprites: the abstract base `AbstractAnimated` and its three variants
 * (enemy, exit gate, gravity well). The variants differ only in their constants and
 * in one drawing step, so they are one class with a `kind` tag. Each sprite has a
 * position and a size in game units and an animation phase (`frameIndex`) that a
 * wall-clock throttle advances and that wraps at the variant's frame count.
 */
module Sprites {
  import opened Geometry
  import opened JavaArith

  datatype Kind = Enemy | Gate | GravityWell(power: real)

  // Per-variant constants: FRAMES_COUNT is 60 * DURATION / 1000 in every variant.
  const ENEMY_DURATION: int := 500
  const ENEMY_FRAMES: int := 60 * ENEMY_DURATION / 1000
  const GATE_DURATION: int := 3000
  const GATE_FRAMES: int := 60 * GATE_DURATION / 1000
  const WELL_DURATION: int := 200
  const WELL_FRAMES: int := 60 * WELL_DURATION / 1000
  const GATE_STROKE_WIDTH: int := 2

  function FramesOf(k: Kind): int {
    match k
    case Enemy => ENEMY_FRAMES
    case Gate => GATE_FRAMES
    case GravityWell(_) => WELL_FRAMES
  }

  /** What one `drawTick` call puts on the canvas, reduced to the numbers it computes. */
  datatype Drawing =
    | Skipped                                             // zero-area destination
    | RotatedSprite(angle: real, dest: Rect)              // enemy
    | RotatedOval(angle: real, oval: RectF, dest: Rect)   // gate
    | Ring(strokeWidth: real, dest: Rect)                 // gravity well

  /** The throttle of `draw`: advance on the very first draw, later only when more than one frame time has passed. */
  predicate Advances(lastTick: int, now: int, frameTime: real) {
    lastTick == 0 || (now - lastTick) as real > frameTime
  }

  /** The frame index after one `draw`: at most one step forward, then wrapped to 0 at the frame count. */
  function NextFrame(frameIndex: int, total: int, advance: bool): (r: int)
    requires total >= 1 && 0 <= frameIndex < total
    ensures 0 <= r < total
    ensures r == (frameIndex + (if advance then 1 else 0)) % total
    ensures !advance ==> r == frameIndex
  {
    var next := if advance then frameIndex + 1 else frameIndex;
    if next >= total then 0 else next
  }

  /**
   * The pixel anchor of a sprite: the clip centre plus the truncated unit position
   * scaled by the unit size. The vertical centre is taken from the clip's LEFT edge,
   * as the source does.
   */
  function Anchor(clip: Rect, unitPixels: real, x: real, y: real): (int, int) {
    var centerX := clip.left + Div(clip.Width(), 2);
    var centerY := clip.left + Div(clip.Height(), 2);
    (Trunc(centerX as real + unitPixels * Trunc(x) as real),
     Trunc(centerY as real + unitPixels * Trunc(y) as real))
  }

  /** The destination rectangle handed to `drawTick`: centred on the anchor, half-extent `(int)(w*u)/2`. */
  function DestRect(clip: Rect, unitPixels: real, x: real, y: real, w: real, h: real): (r: Rect)
    ensures r.left + r.right == 2 * Anchor(clip, unitPixels, x, y).0
    ensures r.top + r.bottom == 2 * Anchor(clip, unitPixels, x, y).1
    ensures r.Width() == 2 * Div(Trunc(w * unitPixels), 2)
    ensures r.Height() == 2 * Div(Trunc(h * unitPixels), 2)
    ensures w >= 0.0 && unitPixels >= 0.0 ==> 0 <= r.Width() <= Trunc(w * unitPixels)
  {
    var (ax, ay) := Anchor(clip, unitPixels, x, y);
    var hw := Div(Trunc(w * unitPixels), 2);
    var hh := Div(Trunc(h * unitPixels), 2);
    Rect(ax - hw, ay - hh, ax + hw, ay + hh)
  }

  /** Rotation of a spinning sprite: `360 * frameIndex / frames` degrees. */
  function RotationAngle(frameIndex: int, frames: int): (angle: real)
    requires frames >= 1
    ensures 0 <= frameIndex < frames ==> 0.0 <= angle < 360.0
    ensures angle * frames as real == 360.0 * frameIndex as real
  {
    360.0 * frameIndex as real / frames as real
  }

  /**
   * The gate's oval, inside a sprite bitmap of `spriteW` by `spriteH` pixels: inset by the
   * stroke width on every side, then narrowed by a quarter of the inset width on each side.
   */
  function GateOval(spriteW: int, spriteH: int): (r: RectF)
    ensures r.Width() == (spriteW - 2 * GATE_STROKE_WIDTH) as real / 2.0
    ensures r.Height() == (spriteH - 2 * GATE_STROKE_WIDTH) as real
    ensures r.left + r.right == spriteW as real && r.top + r.bottom == spriteH as real
  {
    var inset := RectF(GATE_STROKE_WIDTH as real, GATE_STROKE_WIDTH as real,
                       (spriteW - GATE_STROKE_WIDTH) as real, (spriteH - GATE_STROKE_WIDTH) as real);
    var rw := inset.Width();
    RectF(inset.left + rw / 4.0, inset.top, inset.right - rw / 4.0, inset.bottom)
  }

  /** The gravity well's triangle-wave phase: rises with the frame index to half the frame count, then falls. */
  function WellPhase(frameIndex: int): (idx: int)
    ensures 0 <= frameIndex < WELL_FRAMES ==> 0 <= idx <= WELL_FRAMES / 2
    ensures frameIndex <= WELL_FRAMES / 2 ==> idx == frameIndex
  {
    if frameIndex > WELL_FRAMES / 2 then WELL_FRAMES - frameIndex else frameIndex
  }

  /** The phase is a symmetric triangle over one cycle: frames k and frames-k look alike. */
  lemma WellPhaseSymmetric(k: int)
    requires 0 < k < WELL_FRAMES
    ensures WellPhase(k) == WellPhase(WELL_FRAMES - k)
  {
  }

  /** The gravity well's stroke width: `u - 0.75 * u * idx / frames`, thinnest at mid-cycle. */
  function WellStroke(unitPixels: real, idx: int): (width: real)
    ensures 0 <= idx <= WELL_FRAMES / 2 && unitPixels >= 0.0 ==>
              0.625 * unitPixels <= width <= unitPixels
    ensures idx == 0 ==> width == unitPixels
  {
    var delta := idx as real / WELL_FRAMES as real;
    StrokeBounds(unitPixels, idx);
    unitPixels - unitPixels * 0.75 * delta
  }

  /** The stroke factor `0.75 * idx / frames` lies in [0, 0.375] over half a cycle. */
  lemma StrokeBounds(unitPixels: real, idx: int)
    ensures 0 <= idx <= WELL_FRAMES / 2 && unitPixels >= 0.0 ==>
              unitPixels * 0.0 <= unitPixels * (0.75 * (idx as real / WELL_FRAMES as real)) <= unitPixels * 0.375
  {
    if 0 <= idx <= WELL_FRAMES / 2 && unitPixels >= 0.0 {
      ScaleBetween(unitPixels, 0.75 * (idx as real / WELL_FRAMES as real), 0.0, 0.375);
    }
  }

  /** Scaling a non-negative `u` preserves the bounds of a factor. */
  lemma ScaleBetween(u: real, f: real, lo: real, hi: real)
    requires u >= 0.0 && lo <= f <= hi
    ensures u * lo <= u * f <= u * hi
  {
    assert u * (f - lo) >= 0.0;
    assert u * (hi - f) >= 0.0;
  }

  /**
   * The variant-specific `drawTick`. Enemy and gate return without drawing when the
   * destination has zero width or height; the gravity well has no such guard.
   */
  function DrawTick(kind: Kind, frameIndex: int, unitPixels: real, w: real, h: real, dest: Rect): (d: Drawing)
    // only the enemy and the gate skip, and exactly on a zero-area destination
    ensures d.Skipped? <==> !kind.GravityWell? && (dest.Width() == 0 || dest.Height() == 0)
    // anything drawn goes to the given destination, in the variant's own shape
    ensures !d.Skipped? ==> d.dest == dest
    ensures d.RotatedSprite? ==> kind.Enemy?
    ensures d.RotatedOval? ==> kind.Gate?
    ensures d.Ring? <==> kind.GravityWell?
    // a spinning sprite turns by 360 degrees over its frames, starting upright
    ensures d.RotatedSprite? ==> d.angle * ENEMY_FRAMES as real == 360.0 * frameIndex as real
    ensures d.RotatedOval? ==> d.angle * GATE_FRAMES as real == 360.0 * frameIndex as real
    ensures (d.RotatedSprite? || d.RotatedOval?) && 0 <= frameIndex < FramesOf(kind) ==> 0.0 <= d.angle < 360.0
    // the well's ring is between five eighths of a unit and one unit wide
    ensures d.Ring? && 0 <= frameIndex < WELL_FRAMES && unitPixels >= 0.0 ==>
              0.625 * unitPixels <= d.strokeWidth <= unitPixels
  {
    match kind
    case Enemy =>
      if dest.Width() == 0 || dest.Height() == 0 then Skipped
      else RotatedSprite(RotationAngle(frameIndex, ENEMY_FRAMES), dest)
    case Gate =>
      if dest.Width() == 0 || dest.Height() == 0 then Skipped
      else RotatedOval(RotationAngle(frameIndex, GATE_FRAMES),
                       GateOval(Trunc(w * unitPixels), Trunc(h * unitPixels)), dest)
    case GravityWell(_) =>
      Ring(WellStroke(unitPixels, WellPhase(frameIndex)), dest)
  }

  class Sprite {
    const kind: Kind
    const totalFramesCount: int
    const unitPixels: real
    var duration: int
    var lastTick: int
    var frameTime: real
    var frameIndex: int
    var x: real
    var y: real
    var w: real
    var h: real

    ghost predicate Valid()
      reads this
    {
      totalFramesCount == FramesOf(kind) && 0 <= frameIndex < totalFramesCount
    }

    /** `new AnimatedEnemy(x, y, unitPixels)`: 30 frames over 500 ms, size 3 by 3. */
    constructor Enemy(x0: real, y0: real, u: real)
      ensures Valid() && kind == Kind.Enemy && unitPixels == u
      ensures x == x0 && y == y0 && w == 3.0 && h == 3.0
      ensures duration == ENEMY_DURATION && frameTime == ENEMY_DURATION as real / ENEMY_FRAMES as real
      ensures frameIndex == 0 && lastTick == 0
    {
      kind, totalFramesCount, unitPixels := Kind.Enemy, ENEMY_FRAMES, u;
      duration, lastTick, frameTime, frameIndex := 0, 0, 0.0, 0;
      new;
      SetDuration(ENEMY_DURATION);
      SetPosition(x0, y0);
      SetSize(3.0, 3.0);
    }

    /** `new AnimatedGate(x, y, unitPixels)`: 180 frames over 3000 ms, size 6 by 6. */
    constructor Gate(x0: real, y0: real, u: real)
      ensures Valid() && kind == Kind.Gate && unitPixels == u
      ensures x == x0 && y == y0 && w == 6.0 && h == 6.0
      ensures duration == GATE_DURATION && frameTime == GATE_DURATION as real / GATE_FRAMES as real
      ensures frameIndex == 0 && lastTick == 0
    {
      kind, totalFramesCount, unitPixels := Kind.Gate, GATE_FRAMES, u;
      duration, lastTick, frameTime, frameIndex := 0, 0, 0.0, 0;
      new;
      SetDuration(GATE_DURATION);
      SetPosition(x0, y0);
      SetSize(6.0, 6.0);
    }

    /** `new AnimatedGravityWell(power, x, y, unitPixels)`: 12 frames over 200 ms, size 4 by 4. */
    constructor GravityWell(power: real, x0: real, y0: real, u: real)
      ensures Valid() && kind == Kind.GravityWell(power) && unitPixels == u
      ensures x == x0 && y == y0 && w == 4.0 && h == 4.0
      ensures duration == WELL_DURATION && frameTime == WELL_DURATION as real / WELL_FRAMES as real
      ensures frameIndex == 0 && lastTick == 0
    {
      kind, totalFramesCount, unitPixels := Kind.GravityWell(power), WELL_FRAMES, u;
      duration, lastTick, frameTime, frameIndex := 0, 0, 0.0, 0;
      new;
      SetDuration(WELL_DURATION);
      SetPosition(x0, y0);
      SetSize(4.0, 4.0);
    }

    /** The well's power, fixed at construction (there is no setter). */
    function Power(): (p: real)
      requires kind.GravityWell?
      ensures kind == Kind.GravityWell(p)
    {
      kind.power
    }

    /** Stores the duration; a non-zero duration also sets the per-frame time. */
    method SetDuration(d: int)
      requires Valid()
      modifies this`duration, this`frameTime
      ensures Valid() && duration == d
      ensures d != 0 ==> frameTime * totalFramesCount as real == d as real
      ensures d == 0 ==> frameTime == old(frameTime)
    {
      duration := d;
      if d != 0 {
        frameTime := d as real / totalFramesCount as real;
      }
    }

    method SetPosition(x0: real, y0: real)
      modifies this`x, this`y
      ensures x == x0 && y == y0
    {
      x, y := x0, y0;
    }

    /** Stores the size in game units (the bitmap allocation it also does is rendering). */
    method SetSize(w0: real, h0: real)
      modifies this`w, this`h
      ensures w == w0 && h == h0
    {
      w, h := w0, h0;
    }

    /** `AnimatedEnemy.setX`: the physics moves enemies one coordinate at a time. */
    method SetX(x0: real)
      requires kind.Enemy?
      modifies this`x
      ensures x == x0
    {
      x := x0;
    }

    method SetY(y0: real)
      requires kind.Enemy?
      modifies this`y
      ensures y == y0
    {
      y := y0;
    }

    /**
     * `draw`: advance the animation phase (at most one frame, throttled by the clock
     * reading `now`), wrap it, and compute what `drawTick` draws at the destination
     * rectangle derived from the canvas clip. Position and size are not touched.
     */
    method Draw(now: int, clip: Rect) returns (d: Drawing)
      requires Valid()
      modifies this`frameIndex, this`lastTick
      ensures Valid()
      ensures frameIndex == NextFrame(old(frameIndex), totalFramesCount, Advances(old(lastTick), now, frameTime))
      ensures lastTick == if Advances(old(lastTick), now, frameTime) then now else old(lastTick)
      ensures d == DrawTick(kind, frameIndex, unitPixels, w, h, DestRect(clip, unitPixels, x, y, w, h))
    {
      if lastTick == 0 || (now - lastTick) as real > frameTime {
        frameIndex := frameIndex + 1;
        lastTick := now;
      }
      if frameIndex >= totalFramesCount {
        frameIndex := 0;
      }
      var dest := DestRect(clip, unitPixels, x, y, w, h);
      d := DrawTick(kind, frameIndex, unitPixels, w, h, dest);
    }
  }
}
