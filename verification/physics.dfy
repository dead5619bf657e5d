/**
 * The value-level rules of the game engine: the status machine, the arena derived from
 * the surface size, the axis mapping of the tilt sensor, the distance tests, the gate
 * dwell timer, the border bounce with its latched contact flag, and the spawn formula.
 * The `GameEngine` class applies them to its fields; the lemmas here state what they
 * promise over one tick and over runs of ticks.
 */
module Physics {
  import opened JavaArith
  import opened Geometry
  import Orientation

  const COUNTDOWN_MS: int := 3000
  const DOT_MASS: real := 0.005
  const DOT_BOUNCE: real := 0.5
  const DOT_SIZE: real := 1.0
  const TRIGGERING_VIBRATION_BOUNCE_SPEED: real := 3.0
  const ENDING_ANIMATION_TICKS: int := 10
  const DEATH_ANIMATION_TICKS: int := 10
  const GRAVITY_WELL_MAX: real := 15.0
  const GRAVITY_WELL_MAXDISTANCE: real := 50.0
  const ENEMY_SPEED: real := 25.0
  const GATE_PROXIMITY: real := 3.5
  const GATE_EXIT_TIME: int := 100
  const UNIT_FRACTION: int := 100
  const GATE_SIZE: int := 6
  const ENEMY_COUNT: int := 5
  /** Vibration lengths in milliseconds: a hard bounce, an enemy hit, a death. */
  const BOUNCE_VIBRATION_MS: int := 40
  const HIT_VIBRATION_MS: int := 40
  const DEATH_VIBRATION_MS: int := 1000
  /** Number of `random()` draws one level load consumes: gate, one well, five enemies, two each. */
  const SPAWN_DRAWS: int := 2 * (1 + 1 + ENEMY_COUNT)

  // ---------------------------------------------------------------------------
  // Status machine

  datatype Status = Play | Pause | Countdown

  /** `togglePause`: PLAY and COUNTDOWN pause; PAUSE resumes to COUNTDOWN while time is left, else to PLAY. */
  function Toggled(s: Status, countdown: int): (r: Status)
    ensures s != Pause ==> r == Pause
    ensures s == Pause ==> r != Pause && (r == Countdown <==> countdown > 0)
  {
    match s
    case Pause => if countdown > 0 then Countdown else Play
    case Play => Pause
    case Countdown => Pause
  }

  /** The invariant the engine keeps: COUNTDOWN has time left, PLAY has none. */
  predicate Consistent(s: Status, countdown: int) {
    (s == Countdown ==> countdown > 0) && (s == Play ==> countdown <= 0)
  }

  /** Under the invariant, a second toggle undoes the first, and the invariant is kept. */
  lemma ToggleTwice(s: Status, countdown: int)
    requires Consistent(s, countdown)
    ensures Toggled(Toggled(s, countdown), countdown) == s
    ensures Consistent(Toggled(s, countdown), countdown)
  {
  }

  /** One COUNTDOWN update: the timer loses deltaT and PLAY starts once it is at most 0. */
  function CountdownStep(countdown: int, deltaT: int): (r: (int, Status))
    ensures r.0 == countdown - deltaT
    ensures r.1 == Play <==> r.0 <= 0
    ensures Consistent(r.1, r.0)
  {
    var c := countdown - deltaT;
    (c, if c <= 0 then Play else Countdown)
  }

  /** The status after `n` COUNTDOWN updates of `deltaT` each (PLAY updates leave the timer alone). */
  function CountdownAfter(countdown: int, deltaT: int, n: nat): (int, Status)
  {
    if n == 0 then (countdown, if countdown <= 0 then Play else Countdown)
    else
      var (c, s) := CountdownAfter(countdown, deltaT, n - 1);
      if s == Countdown then CountdownStep(c, deltaT) else (c, s)
  }

  /**
   * From a full countdown, with updates of a positive deltaT, PLAY starts after exactly
   * ceil(countdown / deltaT) updates: still COUNTDOWN one update earlier.
   */
  lemma {:induction false} CountdownLength(countdown: int, deltaT: int, n: nat)
    requires countdown > 0 && deltaT > 0
    ensures CountdownAfter(countdown, deltaT, n).1 == Play <==> n * deltaT >= countdown
    ensures CountdownAfter(countdown, deltaT, n).1 == Countdown <==> n * deltaT < countdown
    ensures CountdownAfter(countdown, deltaT, n).1 == Countdown ==> CountdownAfter(countdown, deltaT, n).0 == countdown - n * deltaT
  {
    if n > 0 {
      CountdownLength(countdown, deltaT, n - 1);
      var (c, s) := CountdownAfter(countdown, deltaT, n - 1);
      assert n * deltaT == (n - 1) * deltaT + deltaT;
      if s == Play {
        assert CountdownAfter(countdown, deltaT, n) == (c, s);
      } else {
        assert c == countdown - (n - 1) * deltaT;
        assert CountdownAfter(countdown, deltaT, n) == CountdownStep(c, deltaT);
      }
    }
  }

  // ---------------------------------------------------------------------------
  // Arena geometry

  /** `init`: the unit is the smaller surface side divided by 100, in integer arithmetic. */
  function UnitPixels(w: nat, h: nat): (u: nat)
    ensures u == (if w < h then w else h) / UNIT_FRACTION
    ensures u * UNIT_FRACTION <= w && u * UNIT_FRACTION <= h
  {
    if w > h then h / UNIT_FRACTION else w / UNIT_FRACTION
  }

  /**
   * `init`: the surface rectangle re-centred on the origin (each half-side by truncating
   * division), then, when the unit is non-zero, each edge divided by the unit and
   * truncated to an int.
   */
  function ArenaBounds(w: nat, h: nat, unit: nat): (r: Rect)
    ensures r.left == -r.right && r.top == -r.bottom
    ensures r.right >= 0 && r.bottom >= 0
    ensures unit == 0 ==> r.right == w / 2 && r.bottom == h / 2
    ensures unit > 0 ==> r.right == (w / 2) / unit && r.bottom == (h / 2) / unit
  {
    // Java's `gw / 2` and `-gw / 2` are the floor half and its negation (CentredHalf)
    var right: nat, bottom: nat := w / 2, h / 2;
    if unit != 0 then
      EdgesToUnits(right, bottom, unit)
    else
      Rect(-(right as int), -(bottom as int), right, bottom)
  }

  /** `-side / 2` and `side / 2` in Java: opposite, and the floor half of the side. */
  lemma CentredHalf(side: nat)
    ensures Div(side, 2) == side / 2 && Div(-(side as int), 2) == -(side / 2)
  {
    DivNeg(side, 2);
  }

  /** Each edge of the centred rectangle `(-right, -bottom, right, bottom)` divided by the unit. */
  function EdgesToUnits(right: nat, bottom: nat, unit: nat): (r: Rect)
    requires unit > 0
    ensures r.left == -r.right && r.top == -r.bottom
    ensures r.right == right / unit && r.bottom == bottom / unit
  {
    ToUnitsNeg(right, unit);
    ToUnitsNeg(bottom, unit);
    Rect(ToUnits(-(right as int), unit), ToUnits(-(bottom as int), unit), ToUnits(right, unit), ToUnits(bottom, unit))
  }

  /** `edge /= unitPixels` on an int edge: float division, then truncation toward zero. */
  function ToUnits(v: int, unit: int): (r: int)
    requires unit != 0
    ensures v >= 0 && unit > 0 ==> r == v / unit
    ensures v >= 0 && unit < 0 ==> r <= 0
  {
    QuotientFacts(v, unit);
    Trunc(v as real / unit as real)
  }

  /** The facts about `v / unit` in floats that `ToUnits` needs, by the signs of its operands. */
  lemma QuotientFacts(v: int, unit: int)
    requires unit != 0
    ensures v >= 0 && unit > 0 ==> Trunc(v as real / unit as real) == v / unit
    ensures v >= 0 && unit < 0 ==> v as real / unit as real <= 0.0
  {
    if v >= 0 && unit > 0 {
      TruncOfQuotient(v, unit);
    }
  }

  lemma ToUnitsNeg(v: int, unit: int)
    requires unit != 0
    ensures ToUnits(-v, unit) == -ToUnits(v, unit)
  {
    assert (-v) as real / unit as real == -(v as real / unit as real);
    TruncNeg(v as real / unit as real);
  }

  /** For a non-negative int over a positive unit, float division then truncation is integer division. */
  lemma TruncOfQuotient(a: int, unit: int)
    requires a >= 0 && unit > 0
    ensures Trunc(a as real / unit as real) == a / unit
  {
    var q, m := a / unit, a % unit;
    assert a == q * unit + m && 0 <= m < unit;
    assert a as real / unit as real == q as real + m as real / unit as real;
    assert 0.0 <= m as real / unit as real < 1.0;
  }

  // ---------------------------------------------------------------------------
  // Euler step

  /** The velocity after the force `f` has acted on the dot's mass for `seconds`. */
  function Accelerated(v: real, f: real, seconds: real): real {
    v + f / DOT_MASS * seconds
  }

  /** The position after moving at velocity `v` for `seconds`. */
  function Displaced(p: real, v: real, seconds: real): real {
    p + v * seconds
  }

  // ---------------------------------------------------------------------------
  // Tilt input

  /**
   * How the pulled sensor sample becomes the in-plane force: landscape-default devices
   * negate the first axis; portrait-default devices swap the two axes.
   */
  function MapAxes(defaultOrientation: int, s: seq<real>): (r: Vec)
    requires |s| >= 2
    ensures defaultOrientation == Orientation.ORIENTATION_PORTRAIT ==> r == Vec(s[1], s[0])
    ensures defaultOrientation != Orientation.ORIENTATION_PORTRAIT ==> r == Vec(-s[0], s[1])
    ensures r.x * r.x + r.y * r.y == s[0] * s[0] + s[1] * s[1]
  {
    var x, y := -s[0], s[1];
    if defaultOrientation == Orientation.ORIENTATION_PORTRAIT then Vec(s[1], s[0]) else Vec(x, y)
  }

  /**
   * Either mapping is a reflection of the plane: applied to its own output it gives the
   * sensor's first two axes back, so no tilt information is lost or mixed.
   */
  lemma MapAxesSelfInverse(defaultOrientation: int, s: seq<real>)
    requires |s| >= 2
    ensures var r := MapAxes(defaultOrientation, s);
            MapAxes(defaultOrientation, [r.x, r.y]) == Vec(s[0], s[1])
  {
  }

  /** Different samples tilt the dot differently: the mapping is injective on the first two axes. */
  lemma MapAxesInjective(defaultOrientation: int, s: seq<real>, t: seq<real>)
    requires |s| >= 2 && |t| >= 2
    ensures MapAxes(defaultOrientation, s) == MapAxes(defaultOrientation, t) <==> s[..2] == t[..2]
  {
    assert s[..2] == [s[0], s[1]] && t[..2] == [t[0], t[1]];
  }

  /** `deltaT *= timeFactor` on an int: the product truncated toward zero. */
  function ScaledDelta(deltaT: int, timeFactor: real): (r: int)
    ensures timeFactor == 1.0 ==> r == deltaT
    ensures deltaT >= 0 && timeFactor >= 0.0 ==> r >= 0
    ensures deltaT as real * timeFactor >= 0.0 ==> r as real <= deltaT as real * timeFactor < r as real + 1.0
  {
    NonNegativeProduct(deltaT as real, timeFactor);
    Trunc(deltaT as real * timeFactor)
  }

  lemma NonNegativeProduct(a: real, b: real)
    ensures a >= 0.0 && b >= 0.0 ==> a * b >= 0.0
  {
    if a >= 0.0 && b >= 0.0 {
      assert a * b >= 0.0 * b;
    }
  }

  function Seconds(deltaT: int): real {
    deltaT as real / 1000.0
  }

  // ---------------------------------------------------------------------------
  // Distance tests
  //
  // The engine measures every distance as `sqrt(pow(dx, 2) + pow(dy, 2))`; the tests below
  // take that distance `d` as it is computed, and `DistanceTestsAgree` shows what each
  // test means when `d` is the true Euclidean distance.

  function DistSq(x0: real, y0: real, x1: real, y1: real): (d: real)
    ensures d >= 0.0
  {
    (x0 - x1) * (x0 - x1) + (y0 - y1) * (y0 - y1)
  }

  /** A well is skipped when `distance > 50`. */
  predicate InWellRange(d: real) {
    !(d > GRAVITY_WELL_MAXDISTANCE)
  }

  /** One well's pull along one axis: `1/(distance + 1) * power * component`. */
  function WellPull(d: real, power: real, component: real): (f: real)
    requires d >= 0.0
    ensures power >= 0.0 && component >= 0.0 ==> 0.0 <= f <= power * component
    ensures power >= 0.0 && component <= 0.0 ==> power * component <= f <= 0.0
  {
    var k := 1.0 / (d + 1.0);
    assert 0.0 < k <= 1.0;
    var pc := power * component;
    ScaleInto(k, pc);
    k * pc
  }

  /** Scaling by a factor in (0, 1] keeps a value between 0 and itself. */
  lemma ScaleInto(k: real, v: real)
    requires 0.0 < k <= 1.0
    ensures v >= 0.0 ==> 0.0 <= k * v <= v
    ensures v <= 0.0 ==> v <= k * v <= 0.0
  {
    if v >= 0.0 {
      MulNonneg(k, v);
      MulNonneg(1.0 - k, v);
      assert v - k * v == (1.0 - k) * v;
    } else {
      MulNonneg(k, -v);
      MulNonneg(1.0 - k, -v);
      assert k * v - v == (1.0 - k) * (-v);
    }
  }

  /** A farther well pulls no harder: the factor `1/(distance + 1)` shrinks with distance. */
  lemma FartherPullsLess(d0: real, d1: real, power: real)
    requires 0.0 <= d0 <= d1 && power >= 0.0
    ensures WellPull(d1, power, 1.0) <= WellPull(d0, power, 1.0)
  {
    var k0, k1 := 1.0 / (d0 + 1.0), 1.0 / (d1 + 1.0);
    assert k1 <= k0 by {
      assert k0 - k1 == (d1 - d0) * k0 * k1;
      MulNonneg(d1 - d0, k0);
      MulNonneg((d1 - d0) * k0, k1);
    }
    MulNonneg(k0 - k1, power);
  }

  function MaxReal(a: real, b: real): real {
    if a > b then a else b
  }

  /** The collision distance with an enemy: the dot's radius plus half the enemy's larger side. */
  function HitDistance(ew: real, eh: real): real {
    DOT_SIZE / 2.0 + MaxReal(ew, eh) / 2.0
  }

  /** The enemy test `dist < DOT_SIZE/2 + max(w,h)/2`, strict. */
  predicate Collides(d: real, ew: real, eh: real) {
    d < HitDistance(ew, eh)
  }

  /** The gate test: near unless `dist > 3.5`. */
  predicate NearGate(d: real) {
    !(d > GATE_PROXIMITY)
  }

  /** For two non-negative reals, order of squares is order of the numbers. */
  lemma SquareMonotone(a: real, b: real)
    requires a >= 0.0 && b >= 0.0
    ensures a < b <==> a * a < b * b
  {
    if a < b {
      MulNonneg(a, b - a);
      MulPos(b, b - a);
      assert a * b - a * a == a * (b - a);
      assert b * b - a * b == b * (b - a);
    } else {
      MulNonneg(b, a - b);
      MulNonneg(a, a - b);
      assert a * b - b * b == b * (a - b);
      assert a * a - a * b == a * (a - b);
    }
  }

  lemma MulPos(x: real, y: real)
    requires x > 0.0 && y > 0.0
    ensures x * y > 0.0
  {
  }

  lemma MulNonneg(x: real, y: real)
    requires x >= 0.0 && y >= 0.0
    ensures x * y >= 0.0
  {
  }

  /**
   * When `d` is the Euclidean distance between two points, the three tests are the
   * circle tests on the squared distance: strictly inside the hit circle, within 3.5
   * of the gate, within 50 of a well.
   */
  lemma DistanceTestsAgree(d: real, px: real, py: real, ex: real, ey: real, ew: real, eh: real)
    requires d >= 0.0 && d * d == DistSq(px, py, ex, ey)
    ensures Collides(d, ew, eh) <==> HitDistance(ew, eh) > 0.0 && DistSq(px, py, ex, ey) < HitDistance(ew, eh) * HitDistance(ew, eh)
    ensures NearGate(d) <==> DistSq(px, py, ex, ey) <= GATE_PROXIMITY * GATE_PROXIMITY
    ensures InWellRange(d) <==> DistSq(px, py, ex, ey) <= GRAVITY_WELL_MAXDISTANCE * GRAVITY_WELL_MAXDISTANCE
  {
    var t := HitDistance(ew, eh);
    if t > 0.0 {
      SquareMonotone(d, t);
    }
    SquareMonotone(GATE_PROXIMITY, d);
    SquareMonotone(GRAVITY_WELL_MAXDISTANCE, d);
  }

  // ---------------------------------------------------------------------------
  // Gate dwell timer

  /** `handleGateProximity`: reset to exactly 0 when away, otherwise add deltaT. */
  function GateDwell(dwell: real, near: bool, deltaT: int): real {
    if !near then 0.0 else dwell + deltaT as real
  }

  /** The ending animation starts on a tick that is near the gate and reaches 100 ms of dwell. */
  predicate GateOpens(dwell: real, near: bool, deltaT: int) {
    near && GateDwell(dwell, near, deltaT) >= GATE_EXIT_TIME as real
  }

  /** The dwell timer after a series of ticks, each near the gate or not. */
  function DwellAfter(dwell: real, nears: seq<bool>, deltaT: int): real {
    if nears == [] then dwell
    else GateDwell(DwellAfter(dwell, nears[..|nears| - 1], deltaT), nears[|nears| - 1], deltaT)
  }

  /**
   * The dwell timer counts only the last unbroken run of ticks near the gate: after
   * a run of `k` near ticks that follows a tick away, it is exactly `k * deltaT`.
   */
  lemma {:induction false} DwellCountsLastRun(dwell: real, before: seq<bool>, k: nat, deltaT: int)
    requires before != [] && !before[|before| - 1]
    ensures DwellAfter(dwell, before + seq(k, _ => true), deltaT) == (k * deltaT) as real
  {
    var run := seq(k, _ => true);
    if k == 0 {
      assert before + run == before;
    } else {
      var shorter := seq(k - 1, _ => true);
      assert (before + run)[..|before + run| - 1] == before + shorter;
      DwellCountsLastRun(dwell, before, k - 1, deltaT);
      assert (k * deltaT) as real == ((k - 1) * deltaT) as real + deltaT as real;
    }
  }

  /**
   * With the fixed frame deltaT of 16 ms, the seventh consecutive tick near the gate is
   * the first whose dwell reaches the exit time (96 ms < 100 ms <= 112 ms).
   */
  lemma SeventhNearTickOpensGate(before: seq<bool>, k: nat)
    requires before != [] && !before[|before| - 1]
    ensures DwellAfter(0.0, before + seq(k, _ => true), 16) >= GATE_EXIT_TIME as real <==> k >= 7
  {
    DwellCountsLastRun(0.0, before, k, 16);
  }

  // ---------------------------------------------------------------------------
  // Border bounce with a latched contact flag, one axis at a time

  datatype AxisBounce = AxisBounce(pos: real, vel: real, touching: bool, fired: bool)

  /**
   * `handleBorderCollision` on one axis: outside the bounds the position is clamped to
   * the crossed edge and the velocity reversed and halved; the collision callback fires
   * only when the contact flag was clear, and the flag clears only inside the bounds.
   */
  function BounceAxis(pos: real, vel: real, lo: int, hi: int, touching: bool): AxisBounce {
    if pos < lo as real then AxisBounce(lo as real, -vel * DOT_BOUNCE, true, !touching)
    else if pos > hi as real then AxisBounce(hi as real, -vel * DOT_BOUNCE, true, !touching)
    else AxisBounce(pos, vel, false, false)
  }

  /**
   * After a bounce the dot is inside the bounds; the contact flag is set exactly when the
   * dot was outside, and the callback fires exactly on a new contact; a reversed velocity
   * keeps half its speed, and inside the bounds nothing changes.
   */
  lemma BounceAxisClamps(pos: real, vel: real, lo: int, hi: int, touching: bool)
    ensures var r := BounceAxis(pos, vel, lo, hi, touching);
            && (lo <= hi ==> lo as real <= r.pos <= hi as real)
            && (r.touching <==> Outside(pos, lo, hi))
            && (r.fired <==> r.touching && !touching)
            && (r.touching ==> r.vel == -vel * DOT_BOUNCE && (r.vel < 0.0 <==> vel > 0.0))
            && (!r.touching ==> r.pos == pos && r.vel == vel)
  {
  }

  /** `onBorderCollision`: only a bounce faster than 3 units/s vibrates. */
  predicate BounceVibrates(vel: real) {
    vel > TRIGGERING_VIBRATION_BOUNCE_SPEED || -vel > TRIGGERING_VIBRATION_BOUNCE_SPEED
  }

  /** The vibrations one axis's bounce adds to the log. */
  function BounceVibrations(b: AxisBounce): (r: seq<int>)
    ensures |r| <= 1 && (|r| == 1 <==> b.fired && BounceVibrates(b.vel))
  {
    if b.fired && BounceVibrates(b.vel) then [BOUNCE_VIBRATION_MS] else []
  }

  /** The callbacks fired over a series of ticks at the given pre-clamp positions. */
  function FiredCount(positions: seq<real>, lo: int, hi: int, touching: bool): nat {
    if positions == [] then 0
    else
      var b := BounceAxis(positions[0], 0.0, lo, hi, touching);
      (if b.fired then 1 else 0) + FiredCount(positions[1..], lo, hi, b.touching)
  }

  predicate Outside(pos: real, lo: int, hi: int) {
    pos < lo as real || pos > hi as real
  }

  /**
   * Edge-triggered, not level-triggered: resting against a wall for any number of ticks
   * fires the callback once if the contact was new and never if it was already latched.
   */
  lemma {:induction false} ContactFiresOnce(positions: seq<real>, lo: int, hi: int, touching: bool)
    requires positions != []
    requires forall k :: 0 <= k < |positions| ==> Outside(positions[k], lo, hi)
    ensures FiredCount(positions, lo, hi, touching) == if touching then 0 else 1
  {
    if |positions| > 1 {
      ContactFiresOnce(positions[1..], lo, hi, true);
    }
  }

  /** Leaving the wall re-arms the flag: one tick inside, then a tick outside fires again. */
  lemma ReenteringFiresAgain(inside: real, outside: real, lo: int, hi: int, touching: bool)
    requires !Outside(inside, lo, hi) && Outside(outside, lo, hi)
    ensures FiredCount([inside, outside], lo, hi, touching) == 1
  {
    var first := BounceAxis(inside, 0.0, lo, hi, touching);
    assert !first.touching && !first.fired;
    assert [inside, outside][1..] == [outside];
    assert [outside][1..] == [];
    assert FiredCount([outside], lo, hi, false) == 1;
  }

  // ---------------------------------------------------------------------------
  // Animations

  /** One ending-animation tick: halfway to the gate on each axis. */
  function EaseToward(p: real, g: real): (r: real)
    ensures g - r == (g - p) / 2.0
  {
    p + (g - p) / 2.0
  }

  function EaseTimes(p: real, g: real, n: nat): real {
    if n == 0 then p else EaseToward(EaseTimes(p, g, n - 1), g)
  }

  function HalfPow(n: nat): (r: real)
    ensures 0.0 < r <= 1.0
  {
    if n == 0 then 1.0 else HalfPow(n - 1) / 2.0
  }

  /** After `n` ending ticks the remaining distance to the gate is the initial one over 2^n. */
  lemma {:induction false} EaseShrinksGeometrically(p: real, g: real, n: nat)
    ensures g - EaseTimes(p, g, n) == (g - p) * HalfPow(n)
  {
    if n > 0 {
      EaseShrinksGeometrically(p, g, n - 1);
    }
  }

  // ---------------------------------------------------------------------------
  // Spawning

  /** `random() * (extent - 4*GATE_SIZE) + lo + 2*GATE_SIZE` for one coordinate. */
  function SpawnCoord(r: real, lo: int, extent: int): real {
    r * (extent - 4 * GATE_SIZE) as real + lo as real + (2 * GATE_SIZE) as real
  }

  /** With a draw in [0,1), a spawned coordinate keeps twice the gate size from both edges. */
  lemma SpawnKeepsMargin(r: real, lo: int, extent: int)
    requires 0.0 <= r < 1.0 && extent > 4 * GATE_SIZE
    ensures (lo + 2 * GATE_SIZE) as real <= SpawnCoord(r, lo, extent) < (lo + extent - 2 * GATE_SIZE) as real
  {
    var span := (extent - 4 * GATE_SIZE) as real;
    assert 0.0 <= r * span;
    assert r * span < span by {
      assert (1.0 - r) * span > 0.0;
    }
  }
}
