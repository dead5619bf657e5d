# The Dot — a verified model of the game core

"The Dot" is an Android tilt game. The player tilts the device to roll a dot across a
rectangular arena. The dot must reach an exit gate and stay near it for a moment. A
gravity well pulls the dot, enemies chase it, and the arena's walls bounce it back. An
enemy hit starts a death animation. A completed exit starts an ending animation. Either
animation ends by loading the next level.

This project models the core of the game in Dafny:

- **`GameEngine`** (`engine.dfy`, module `Engine`): the engine object with its fields,
  updated in place.
  - The PAUSE / COUNTDOWN / PLAY status machine.
  - `init`, `updateInit` and `loadLevel`, including the arena computed from the surface
    size and the spawning of sprites from `random()` draws.
  - The per-tick `update` / `updateGame`: time scaling, sensor pull and axis mapping,
    the death and ending animations, the gravity loop, the Euler step, the enemies'
    chase, the enemy hit test, the gate dwell timer and the wall bounce with its latched
    contact flags.
- **The value-level rules** the engine applies (`physics.dfy`, module `Physics`), with
  lemmas about single ticks and about runs of ticks.
- **The sensor accumulator** (`sensors.dfy`, module `Sensors`): per-axis average, count,
  maximum and minimum, kept in three-element arrays that are reset on every pull.
- **The animated sprites** (`sprites.dfy`, module `Sprites`): the `AbstractAnimated` base
  and its enemy, gate and gravity-well variants. They are one class with a kind tag. The
  model covers the frame throttle and wrap, the destination rectangle, and the numbers
  each `drawTick` computes.
- **The game loop thread** (`game_thread.dfy`, module `GameLoop`):
  - one iteration: lock, initialise once, update, render, unlock;
  - the 16 ms pacing, which sleeps off an early frame or catches up a late one with at
    most six extra updates;
  - the construction checks.
- **The default-orientation utility** (`orientation.dfy`, module `Orientation`).
- **Support modules:**
  - `JavaArith`: Java's truncating casts and division, and the `long` to `int` narrowing.
  - `Geometry`: Android's `Rect` / `RectF`.
  - `Wrappers`: `Option`, and the outcome of a call that may throw.

### Modelling choices

- **Floats become exact reals.** Integer truncations are kept where the code makes them:
  - `deltaT *= timeFactor`;
  - the integer unit size;
  - `edge /= unitPixels`;
  - the `(int)` casts in `draw`;
  - the narrowing of the frame's `long` sleep time to `int`.
- **Trigonometry becomes parameters.** `sqrt`, `atan2`, `cos` and `sin` are two
  parameters of the engine:
  - `norm` gives the length of a difference vector (assumed non-negative);
  - `heading` gives the unit direction of a difference vector.
  - `Physics.DistanceTestsAgree` shows what the three distance tests mean when `norm` is
    the true length.
- **The vibrator becomes a log.** It is the field `vibrations`, which records the length
  of each vibration.
- **Randomness is an input.** The fourteen `random()` draws of a level load are a
  parameter `draws`, in call order.
- **The loop's environment is per-iteration input.** Each iteration of the loop receives
  a `Frame` describing what the environment did:
  - whether a canvas was available;
  - how long the update and render took;
  - whether a sleep was interrupted.
  - The calls the loop makes are recorded as `Event`s.

### Where the code departs from its own comments and names

- **The sensor "average" is the last sample.** The listener's comment at
  `GameEngine.java:697` says it gathers the average of the sensors. In the code, the
  per-axis count is incremented only when it is already positive, so it stays 0. Every
  event therefore overwrites the average with its own value, and a pull returns the last
  accepted sample (`Sensors.AverageIsLastSample`).
- **The maximum is seeded with a positive number.** The same comment says the listener
  gathers the maximum, but the code seeds it with `Float.MIN_VALUE`, the smallest
  *positive* float. An axis that only sees negative samples therefore reports that
  positive seed as its maximum (`Sensors.NegativeSamplesKeepMaxSeed`).
- **A missing canvas does not skip the update.** The comment "Skip a frame if no canvas
  ready" at `GameThread.java:65` guards only a sleep. The code then still updates, and it
  calls the renderer with a null canvas; the engine's renderer returns immediately on
  null.
- **A late frame can crash the loop.** The fallback sleep for a missing canvas uses the
  previous frame's sleep time. After a frame longer than 112 ms, that sleep time is still
  negative once the six catch-up updates are spent. `Thread.sleep` then throws
  IllegalArgumentException and `run` ends (`GameLoop.NegativeSleepNeedsLongFrame`,
  `GameLoop.LateFrameThenNoCanvasThrows`).
- **The gravity well draws at zero size.** The enemy and gate variants return early on a
  zero-area destination, but the gravity-well variant has no such guard
  (`Sprites.DrawTick`).
- **The vertical draw centre uses the clip's left edge.** `draw` takes the vertical
  centre from the clip's left edge; `Sprites.Anchor` keeps that.

## Model

| member | source | states |
|---|---|---|
| JavaArith.Trunc | src/com/qopru/thedot/engine/objects/AbstractAnimated.java:112-113 | A float-to-int cast rounds toward zero: the result is within one of the value, on the side of zero. |
| JavaArith.TruncNeg | src/com/qopru/thedot/engine/GameEngine.java:102-105 | Truncation commutes with negation, so dividing symmetric edges by the unit keeps them symmetric. |
| JavaArith.Div | src/com/qopru/thedot/engine/GameEngine.java:95-98 | Java int division rounds toward zero: it is the floor quotient for a non-negative dividend, and the negated quotient of the magnitude for a negative one. |
| JavaArith.DivNeg | src/com/qopru/thedot/engine/GameEngine.java:95-98 | `-gw / 2 == -(gw / 2)` in Java, so the centred rectangle is symmetric. |
| JavaArith.LongToInt | src/com/qopru/thedot/GameThread.java:83 | The `(int)` cast of a long lies in the int range, agrees with the value modulo 2^32, and is the identity on values that fit. |
| Orientation.DefaultOrientation | src/com/qopru/thedot/U.java:23-38 | The result is landscape exactly when the device's natural orientation is landscape, and portrait otherwise (including undefined orientations and unknown rotations). |
| Orientation.DefaultOrientationCases | src/com/qopru/thedot/U.java:31-37 | Upright + landscape and sideways + portrait give landscape; an undefined orientation or unknown rotation gives portrait. |
| Physics.Toggled | src/com/qopru/thedot/engine/GameEngine.java:63-78 | PLAY and COUNTDOWN become PAUSE; PAUSE resumes to COUNTDOWN exactly when time is left, else to PLAY. |
| Physics.ToggleTwice | src/com/qopru/thedot/engine/GameEngine.java:63-78 | When the status is consistent with the countdown, toggling twice is the identity and toggling keeps the status consistent. |
| Physics.CountdownStep | src/com/qopru/thedot/engine/GameEngine.java:226-230 | The timer loses deltaT; PLAY starts exactly when it reaches 0 or less; the result is consistent. |
| Physics.CountdownLength | src/com/qopru/thedot/engine/GameEngine.java:217-232 | From a positive countdown with a positive deltaT, PLAY holds after n updates exactly when n·deltaT ≥ countdown; until then the timer is countdown − n·deltaT. |
| Physics.UnitPixels | src/com/qopru/thedot/engine/GameEngine.java:87-89 | The unit is the shorter side over 100 (integer division) and fits 100 times into both sides. |
| Physics.ArenaBounds | src/com/qopru/thedot/engine/GameEngine.java:92-106 | The arena is centred on the origin with non-negative half-extents: (w/2)/unit by (h/2)/unit, or w/2 by h/2 when the unit is 0. |
| Physics.CentredHalf | src/com/qopru/thedot/engine/GameEngine.java:95-98 | Java's `gw / 2` is the floor half of the side and `-gw / 2` is its negation, so the re-centred rectangle is symmetric. |
| Physics.EdgesToUnits | src/com/qopru/thedot/engine/GameEngine.java:101-106 | Dividing the four edges of a centred rectangle by a positive unit gives a centred rectangle whose half-extents are the floor quotients. |
| Physics.ToUnits | src/com/qopru/thedot/engine/GameEngine.java:102-105 | `edge /= unitPixels` on a non-negative edge and a positive unit is integer division. |
| Physics.ToUnitsNeg | src/com/qopru/thedot/engine/GameEngine.java:102-105 | Converting a negated edge gives the negated result. |
| Physics.TruncOfQuotient | src/com/qopru/thedot/engine/GameEngine.java:102-105 | Float division followed by truncation equals integer division for a non-negative edge and a positive unit. |
| Physics.MapAxes | src/com/qopru/thedot/engine/GameEngine.java:252-262 | The mapped tilt has the same squared length as the sensor's first two axes: portrait-default devices swap them, other devices negate the first. |
| Physics.MapAxesSelfInverse | src/com/qopru/thedot/engine/GameEngine.java:252-262 | Either mapping is a reflection: applying it to its own output gives back the first two sensor axes. |
| Physics.MapAxesInjective | src/com/qopru/thedot/engine/GameEngine.java:252-262 | Two samples give the same tilt exactly when their first two axes agree. |
| Physics.ScaledDelta | src/com/qopru/thedot/engine/GameEngine.java:249 | For a non-negative product, the scaled deltaT is the whole number of milliseconds in deltaT × timeFactor (within one below it); a factor of 1 leaves deltaT unchanged, and non-negative operands give a non-negative result. |
| Physics.DistSq | src/com/qopru/thedot/engine/GameEngine.java:297 | The squared distance is never negative. |
| Physics.WellPull | src/com/qopru/thedot/engine/GameEngine.java:300-303 | One well's pull along an axis lies between 0 and power × component, with the component's sign. |
| Physics.FartherPullsLess | src/com/qopru/thedot/engine/GameEngine.java:297-303 | A farther well pulls no harder. |
| Physics.DistanceTestsAgree | src/com/qopru/thedot/engine/GameEngine.java:297-361 | With the true Euclidean distance: the hit test means strictly inside the hit circle, the gate test within 3.5 units, the well test within 50 units, all on squared distances. |
| Physics.DwellCountsLastRun | src/com/qopru/thedot/engine/GameEngine.java:338-353 | The dwell timer counts only the last unbroken run of near ticks: after k near ticks following an away tick it is k·deltaT. |
| Physics.SeventhNearTickOpensGate | src/com/qopru/thedot/engine/GameEngine.java:350-352 | With 16 ms ticks, the dwell reaches the 100 ms exit time exactly from the seventh consecutive near tick on. |
| Physics.BounceAxisClamps | src/com/qopru/thedot/engine/GameEngine.java:366-417 | After a bounce the dot is inside the bounds. Contact is latched exactly when the dot was outside, and the callback fires exactly on a new contact. A bounced velocity is reversed and halved; inside the bounds nothing changes. |
| Physics.BounceVibrations | src/com/qopru/thedot/engine/GameEngine.java:419-424 | One axis adds at most one vibration, and one exactly when the callback fired with a speed above 3. |
| Physics.ContactFiresOnce | src/com/qopru/thedot/engine/GameEngine.java:372-416 | Resting against a wall for any number of ticks fires the callback once for a new contact and never for a latched one. |
| Physics.ReenteringFiresAgain | src/com/qopru/thedot/engine/GameEngine.java:392-393 | One tick inside re-arms the latch, so the next tick outside fires again. |
| Physics.EaseToward | src/com/qopru/thedot/engine/GameEngine.java:281-282 | An ending tick halves the remaining distance to the gate. |
| Physics.EaseShrinksGeometrically | src/com/qopru/thedot/engine/GameEngine.java:278-286 | After n ending ticks the remaining distance is the initial one over 2^n. |
| Physics.SpawnKeepsMargin | src/com/qopru/thedot/engine/GameEngine.java:199-214 | A spawn coordinate from a draw in [0,1) keeps 12 units (twice the gate size) from both edges. |
| Sensors.Initial | src/com/qopru/thedot/engine/GameEngine.java:710-716 | The reset state has one entry per axis in every array. |
| Sensors.NextMax | src/com/qopru/thedot/engine/GameEngine.java:737 | The new maximum bounds both the old maximum and the value, and is one of them. |
| Sensors.NextMin | src/com/qopru/thedot/engine/GameEngine.java:738 | The new minimum is bounded by both the old minimum and the value, and is one of them. |
| Sensors.Record | src/com/qopru/thedot/engine/GameEngine.java:726-739 | Per axis: a counting axis keeps average × count equal to the sum of its samples and counts one more; an uncounted axis reports the sample and stays uncounted; the maximum and minimum grow to cover the sample and are each the sample or the old extreme. |
| Sensors.OnEvent | src/com/qopru/thedot/engine/GameEngine.java:719-741 | A missing event, or one with fewer than three values, changes nothing; the result stays well-formed. |
| Sensors.AfterEvents | src/com/qopru/thedot/engine/GameEngine.java:704-741 | The accumulator after any series of events since a reset has three entries per array. |
| Sensors.LastAccepted | src/com/qopru/thedot/engine/GameEngine.java:721 | The last accepted event carries at least three values. |
| Sensors.AverageIsLastSample | src/com/qopru/thedot/engine/GameEngine.java:726-735 | The counts stay 0 through any series of events, so the reported average is the last accepted sample (0 when there was none). |
| Sensors.MaxIsRunningMaximum | src/com/qopru/thedot/engine/GameEngine.java:737 | The maximum bounds every accepted sample of the axis and is either one of them or the seed. |
| Sensors.MinIsRunningMinimum | src/com/qopru/thedot/engine/GameEngine.java:738 | The minimum is bounded by every accepted sample of the axis and is either one of them or the seed. |
| Sensors.NegativeSamplesKeepMaxSeed | src/com/qopru/thedot/engine/GameEngine.java:714 | When every sample of an axis is negative, its maximum is still the positive seed `Float.MIN_VALUE`. |
| Sensors.SensorAccumulator.State | src/com/qopru/thedot/engine/GameEngine.java:699-702 | The four arrays, read as values, have one entry per axis. |
| Sensors.SensorAccumulator.constructor | src/com/qopru/thedot/engine/GameEngine.java:704-707 | A new accumulator is valid and in the reset state. |
| Sensors.SensorAccumulator.Reset | src/com/qopru/thedot/engine/GameEngine.java:710-716 | The arrays hold the reset values. |
| Sensors.SensorAccumulator.OnSensorChanged | src/com/qopru/thedot/engine/GameEngine.java:719-741 | The new contents are `OnEvent` of the old contents and the event. |
| Sensors.SensorAccumulator.Pull | src/com/qopru/thedot/engine/GameEngine.java:748-757 | Returns the averages as they were, and leaves the accumulator reset. |
| Sprites.NextFrame | src/com/qopru/thedot/engine/objects/AbstractAnimated.java:96-103 | The frame index advances by at most one and wraps at the frame count, staying in range. |
| Sprites.DestRect | src/com/qopru/thedot/engine/objects/AbstractAnimated.java:106-118 | The destination is centred on the anchor, with width and height twice the truncated half-size, and non-negative. |
| Sprites.RotationAngle | src/com/qopru/thedot/engine/objects/AnimatedEnemy.java:61 | The angle is 360·frameIndex/frames degrees, in [0, 360) for an index in range. |
| Sprites.GateOval | src/com/qopru/thedot/engine/objects/AnimatedGate.java:56-66 | The oval is centred in the sprite: inset by the stroke width on each side and half as wide as the inset rectangle. |
| Sprites.WellPhase | src/com/qopru/thedot/engine/objects/AnimatedGravityWell.java:53 | The phase is in [0, frames/2]; it equals the index on the rising half. |
| Sprites.WellPhaseSymmetric | src/com/qopru/thedot/engine/objects/AnimatedGravityWell.java:53 | Frames k and frames−k have the same phase. |
| Sprites.WellStroke | src/com/qopru/thedot/engine/objects/AnimatedGravityWell.java:54-55 | The stroke width lies between 0.625 and 1 unit, and is the full unit at phase 0. |
| Sprites.DrawTick | src/com/qopru/thedot/engine/objects/AnimatedEnemy.java:51-74 | A drawing is skipped exactly when the variant is not the gravity well and the destination has zero width or height; anything drawn goes to the given destination in the variant's own shape; the enemy and gate turn by 360° over their frames (an angle in [0, 360) for a frame in range); the well's ring is between 0.625 and 1 unit wide. |
| Sprites.Sprite.Enemy | src/com/qopru/thedot/engine/objects/AnimatedEnemy.java:42-48 | An enemy has 30 frames over 500 ms, the given position, size 3 by 3, and frame 0. |
| Sprites.Sprite.Gate | src/com/qopru/thedot/engine/objects/AnimatedGate.java:35-41 | A gate has 180 frames over 3000 ms, the given position, size 6 by 6, and frame 0. |
| Sprites.Sprite.GravityWell | src/com/qopru/thedot/engine/objects/AnimatedGravityWell.java:34-42 | A well has its power, 12 frames over 200 ms, the given position, size 4 by 4, and frame 0. |
| Sprites.Sprite.Power | src/com/qopru/thedot/engine/objects/AnimatedGravityWell.java:44-47 | Returns the power the well was built with. |
| Sprites.Sprite.SetDuration | src/com/qopru/thedot/engine/objects/AbstractAnimated.java:39-44 | Stores the duration; a non-zero one makes frameTime × frames equal the duration, and zero leaves frameTime alone. |
| Sprites.Sprite.SetPosition | src/com/qopru/thedot/engine/objects/AbstractAnimated.java:51-55 | Stores the position. |
| Sprites.Sprite.SetSize | src/com/qopru/thedot/engine/objects/AbstractAnimated.java:62-68 | Stores the size in units. |
| Sprites.Sprite.SetX | src/com/qopru/thedot/engine/objects/AnimatedEnemy.java:32-35 | Stores the enemy's x only. |
| Sprites.Sprite.SetY | src/com/qopru/thedot/engine/objects/AnimatedEnemy.java:37-40 | Stores the enemy's y only. |
| Sprites.Sprite.Draw | src/com/qopru/thedot/engine/objects/AbstractAnimated.java:91-121 | The frame advances only on the first draw or after more than one frame time, then wraps. The result is the variant's drawing at the destination rectangle. |
| Engine.FarWellsPullNothing | src/com/qopru/thedot/engine/GameEngine.java:290-304 | Wells all farther than 50 units leave the acceleration to the tilt alone. |
| Engine.CollidingCount | src/com/qopru/thedot/engine/GameEngine.java:355-364 | At most one hit is counted per enemy. |
| Engine.NoHitIffNoneCollide | src/com/qopru/thedot/engine/GameEngine.java:355-364 | No hit is counted exactly when no enemy is within its hit distance. |
| Engine.SpawnedInsideArena | src/com/qopru/thedot/engine/GameEngine.java:199-214 | In an arena wider and taller than 24 units, every spawned gate, well and enemy keeps 12 units from each border. |
| Engine.GameEngine.constructor | src/com/qopru/thedot/engine/GameEngine.java:51-56 | The new engine has the device's default orientation, a reset accumulator, no status and no sprites. |
| Engine.GameEngine.TogglePause | src/com/qopru/thedot/engine/GameEngine.java:63-78 | Before `init` the null status throws NullPointerException and nothing changes; otherwise the status toggles and stays consistent. |
| Engine.GameEngine.Init | src/com/qopru/thedot/engine/GameEngine.java:82-110 | Sets the unit and the centred arena. Level 1 is loaded from the draws and the game is paused; everything else is as before. |
| Engine.GameEngine.SetArena | src/com/qopru/thedot/engine/GameEngine.java:87-106 | The unit and the bounds are `UnitPixels` and `ArenaBounds` of the surface, and the arena is centred. |
| Engine.GameEngine.UpdateInit | src/com/qopru/thedot/engine/GameEngine.java:175-183 | Level 1 is loaded with fresh sprites, then the status is PAUSE. |
| Engine.GameEngine.StartOver | src/com/qopru/thedot/engine/GameEngine.java:177-180 | Empty sprite lists and level 1. |
| Engine.GameEngine.LoadLevel | src/com/qopru/thedot/engine/GameEngine.java:185-215 | The per-level fields are reset (a 3 s countdown, the dot at rest in the centre, no ending, no contact). Fresh sprites are spawned from the draws; the level, arena, death state and vibrations are kept. |
| Engine.GameEngine.ResetLevel | src/com/qopru/thedot/engine/GameEngine.java:187-198 | COUNTDOWN with 3000 ms, no ending or contact, zero dwell and ending tick, the dot at rest at the origin. |
| Engine.GameEngine.ResetTimers | src/com/qopru/thedot/engine/GameEngine.java:187-194 | COUNTDOWN with 3000 ms, no ending or contact, zero dwell and ending tick. |
| Engine.GameEngine.ResetPlayer | src/com/qopru/thedot/engine/GameEngine.java:195-198 | The dot is at rest at the origin. |
| Engine.GameEngine.SpawnSprites | src/com/qopru/thedot/engine/GameEngine.java:199-214 | A fresh gate from draws 0–1, one well of power 15 from draws 2–3, and five distinct enemies from draws 4–13, each at `r·(extent−24)+min+12`. |
| Engine.GameEngine.Update | src/com/qopru/thedot/engine/GameEngine.java:217-232 | Before `init` or while paused nothing changes. COUNTDOWN only runs the timer down (PLAY at ≤ 0). PLAY makes one game tick. |
| Engine.GameEngine.CountDown | src/com/qopru/thedot/engine/GameEngine.java:226-230 | The timer and status become `CountdownStep` of the old timer. |
| Engine.GameEngine.UpdateGame | src/com/qopru/thedot/engine/GameEngine.java:241-323 | Without a gate nothing changes. Otherwise the accumulator is pulled and reset, and exactly one of the death, ending and physics ticks happens from the state before the pull. |
| Engine.GameEngine.PullTilt | src/com/qopru/thedot/engine/GameEngine.java:252-262 | The tilt is the pulled averages mapped onto the arena axes; the accumulator is reset and no engine field changes. |
| Engine.GameEngine.Tick | src/com/qopru/thedot/engine/GameEngine.java:264-322 | The tick is a death tick, an ending tick or a physics tick, chosen by the animation flags. |
| Engine.GameEngine.PhysicsBranch | src/com/qopru/thedot/engine/GameEngine.java:288-322 | With neither animation running, the tick is the physics tick. It keeps the sprite objects, arena, status, countdown, level, ending tick and time factor. |
| Engine.GameEngine.DeathBranch | src/com/qopru/thedot/engine/GameEngine.java:266-274 | The death tick, with the sprites kept unless the level reloads. |
| Engine.GameEngine.EndingBranch | src/com/qopru/thedot/engine/GameEngine.java:278-286 | The ending tick, with the sprites kept unless the level reloads. |
| Engine.GameEngine.DeathTick | src/com/qopru/thedot/engine/GameEngine.java:266-274 | The dot drifts with its velocity and the tick counts up. The 11th tick vibrates for 1000 ms, clears the animation and loads the next level. |
| Engine.GameEngine.Drift | src/com/qopru/thedot/engine/GameEngine.java:268-270 | The death tick counts up and the dot moves by velocity × seconds. |
| Engine.GameEngine.EndingTick | src/com/qopru/thedot/engine/GameEngine.java:278-286 | The dot moves halfway to the gate and the tick counts up; the 11th tick loads the next level. |
| Engine.GameEngine.Approach | src/com/qopru/thedot/engine/GameEngine.java:280-282 | The ending tick counts up and the dot moves halfway to the gate. |
| Engine.GameEngine.PhysicsTick | src/com/qopru/thedot/engine/GameEngine.java:288-322 | Tilt plus the wells' pull accelerate the dot, which moves. The enemies step toward the moved dot; hits, gate dwell and the bounce are judged there. |
| Engine.GameEngine.AdvanceAndJudge | src/com/qopru/thedot/engine/GameEngine.java:310-322 | The Euler step under the given force, the chase, then the checks at the moved position. |
| Engine.GameEngine.Advance | src/com/qopru/thedot/engine/GameEngine.java:310-316 | The velocity is accelerated and the dot moved by the new velocity; each enemy takes one chase step toward the moved dot. |
| Engine.GameEngine.Integrate | src/com/qopru/thedot/engine/GameEngine.java:310-314 | Explicit Euler: the velocity first, then the position with the new velocity. |
| Engine.GameEngine.Judge | src/com/qopru/thedot/engine/GameEngine.java:318-322 | Hits, gate dwell and the bounce judged from the given state. |
| Engine.GameEngine.JudgedInsideArena | src/com/qopru/thedot/engine/GameEngine.java:355-417 | After the checks the dot is inside the arena. The vibration log gains one entry per hit, then at most two more. |
| Engine.GameEngine.HitAndDwell | src/com/qopru/thedot/engine/GameEngine.java:318-320 | One vibration per hit, and the death animation (re)starts on any hit. The dwell timer resets or grows, and the ending starts when it reaches 100 ms. |
| Engine.GameEngine.ApplyGravity | src/com/qopru/thedot/engine/GameEngine.java:290-304 | The force is the tilt plus the pull of every well within range. |
| Engine.GameEngine.MoveEnemies | src/com/qopru/thedot/engine/GameEngine.java:325-336 | Every enemy takes one chase step toward the player; the engine's fields do not change. |
| Engine.GameEngine.HandleEnemyCollision | src/com/qopru/thedot/engine/GameEngine.java:355-364 | One 40 ms vibration per enemy within its hit distance; any hit (re)starts the death animation at tick 0. |
| Engine.GameEngine.OnEnemyCollision | src/com/qopru/thedot/engine/GameEngine.java:426-431 | A 40 ms vibration, and the death animation starts at tick 0. |
| Engine.GameEngine.HandleGateProximity | src/com/qopru/thedot/engine/GameEngine.java:338-353 | Without a gate nothing changes. Away from the gate the dwell is 0; near it, it grows by deltaT and the ending starts at 100 ms. |
| Engine.GameEngine.HandleBorderCollision | src/com/qopru/thedot/engine/GameEngine.java:366-417 | Each axis bounces independently, horizontal first, and the vibrations of both are appended. |
| Engine.GameEngine.BounceHorizontally | src/com/qopru/thedot/engine/GameEngine.java:372-393 | The horizontal axis follows `BounceAxis`. |
| Engine.GameEngine.BounceVertically | src/com/qopru/thedot/engine/GameEngine.java:395-416 | The vertical axis follows `BounceAxis`. |
| Engine.GameEngine.OnBorderCollision | src/com/qopru/thedot/engine/GameEngine.java:419-424 | A 40 ms vibration exactly when the speed exceeds 3. |
| Engine.GameEngine.OnDeath | src/com/qopru/thedot/engine/GameEngine.java:436-444 | A 1000 ms vibration, the death animation off, and the next level loaded. |
| Engine.GameEngine.OnExitLevel | src/com/qopru/thedot/engine/GameEngine.java:449-453 | The level number goes up by one and that level is loaded. |
| GameLoop.Updates | src/com/qopru/thedot/GameThread.java:91-96 | n catch-up updates, each of one 16 ms frame period. |
| GameLoop.SkipsCounts | src/com/qopru/thedot/GameThread.java:91-96 | The catch-up loop runs another round exactly while fewer than `Skips` rounds are done. |
| GameLoop.CatchUpLeavesSleep | src/com/qopru/thedot/GameThread.java:91-96 | Catch-up uses at most six updates and ends no longer behind unless all six were spent; it never overshoots by a whole period. |
| GameLoop.PacedCounts | src/com/qopru/thedot/GameThread.java:83-96 | The pacing step holds at most six updates, each of one frame period, and otherwise only sleeps. |
| GameLoop.OpeningCounts | src/com/qopru/thedot/GameThread.java:64-80 | One update and one render with the locked canvas (if any), and `Init` only on the first canvas. |
| GameLoop.StepPacing | src/com/qopru/thedot/GameThread.java:59-107 | An iteration renders once with the canvas it locked and updates 1 to 7 times, each by 16 ms. It unlocks exactly the canvas it locked and only appends to the log. |
| GameLoop.IterationCounts | src/com/qopru/thedot/GameThread.java:59-107 | The event counts of an iteration follow from those of its opening and its pacing. |
| GameLoop.StepInits | src/com/qopru/thedot/GameThread.java:69-73 | An iteration logs `Init` exactly when it sets the initialized flag. |
| GameLoop.UpdatesCount | src/com/qopru/thedot/GameThread.java:91-96 | The catch-up events are exactly n one-period updates. |
| GameLoop.RunUpdatesOneFrame | src/com/qopru/thedot/GameThread.java:59-107 | Over a whole run every update is by one frame period, and the log only grows. |
| GameLoop.InitAtMostOnce | src/com/qopru/thedot/GameThread.java:69-73 | In a run the initializer is called once when the flag goes from false to true, otherwise never; the flag never goes back. |
| GameLoop.InitBeforeRender | src/com/qopru/thedot/GameThread.java:69-80 | The first canvas initialises the game before that iteration's update and render. |
| GameLoop.InterruptEndsRun | src/com/qopru/thedot/GameThread.java:59-88 | An interrupted sleep (the fallback sleep without a canvas, or the pacing sleep whenever the narrowed sleep time is positive, including after a clock that stepped back) ends the run after that iteration, whatever frames remain. |
| GameLoop.NegativeSleepNeedsLongFrame | src/com/qopru/thedot/GameThread.java:83-96 | For any loop time whose sleep time fits an int (a clock that stepped back included), a frame leaves a negative sleep time exactly when it took longer than 112 ms. |
| GameLoop.LateFrameThenNoCanvasThrows | src/com/qopru/thedot/GameThread.java:64-96 | A 200 ms frame followed by an iteration with no canvas ends the run with IllegalArgumentException, with the sleep time at −88. |
| GameLoop.GameThread.constructor | src/com/qopru/thedot/GameThread.java:23-41 | A new thread is running, not initialised, with an empty log. |
| GameLoop.GameThread.Create | src/com/qopru/thedot/GameThread.java:30-39 | Construction succeeds exactly when all four collaborators are given; otherwise IllegalArgumentException and no thread. |
| GameLoop.GameThread.Run | src/com/qopru/thedot/GameThread.java:44-108 | The final fields and the outcome are those of `RunFrom` from sleep time 0. |
| GameLoop.GameThread.Iterate | src/com/qopru/thedot/GameThread.java:59-107 | One pass is `Step`: it fails, changing nothing, exactly when `Step` throws. |
| GameLoop.GameThread.Open | src/com/qopru/thedot/GameThread.java:61-80 | Succeeds unless there is no canvas and the sleep time is negative. It logs the opening, sets the flag on a canvas, and clears `running` on an interrupted fallback sleep. |
| GameLoop.GameThread.PaceFrame | src/com/qopru/thedot/GameThread.java:83-96 | The sleep time, log and running flag follow `Paced`. |
| GameLoop.GameThread.CatchUp | src/com/qopru/thedot/GameThread.java:91-96 | Exactly `Skips` updates are logged, and the sleep time grows by one period each. |

## Left out

- **Rendering** is not modelled: `render`, `renderInit`, `drawPauseScreen`, the `Paint`
  set-up, bitmap allocation in `setSize`, and the canvas calls of each `drawTick`. Only
  the numbers `draw` and `drawTick` compute are modelled.
- **Trivial members** are not modelled: `destroy`, `onAccuracyChanged` and
  `setAlpha`/`setColorFilter` are empty, and `getOpacity` and the getters of the
  listener objects only return constants or fields.
- **Float rounding, `sqrt` and trigonometry:** floats are exact reals, so float rounding
  is not modelled. `sqrt` and trigonometry are the parameters `norm` and `heading`, and
  `norm` is only assumed non-negative.
- **Clocks, sleeps, the canvas holder, the vibrator and `random()`** are inputs or logs.
  Android logging is left out.
- **Concurrency:**
  - The `synchronized` blocks and the concurrent sensor producer are left out; each
    event and each pull is one atomic step.
  - `running` is also written from outside the thread. Here that outside stop is the
    frame sequence running out.
  - The `volatile` time factor is an ordinary field.
- Sensors.SensorAccumulator.Reset: refills the three-element arrays in place, whereas
  the source allocates new ones. No other object shares the arrays, so the observable
  contents are the same.
- Engine.GameEngine.Init: takes the surface size as two naturals instead of the canvas
  clip rectangle. The clip's width and height are all `init` reads from it. A surface
  with a side under 100 pixels gives a unit of 0. The source then throws: each sprite
  constructor in `loadLevel` calls `setSize`, which asks `Bitmap.createBitmap` for a
  0 × 0 bitmap, and Android refuses that with IllegalArgumentException. The model does
  not allocate bitmaps, so it carries on: it loads level 1 and pauses.
- Sprites.Sprite.Draw: the source reads `System.currentTimeMillis()` twice, once for the
  throttle test and once for the new `lastTick`. The second reading can be later than the
  first. The model takes one clock reading `now` for both.
- Engine.CollidingCount: bounds the count only. Its meaning is
  `Engine.NoHitIffNoneCollide`.
- **`unitPixels`** is a float field in the source that only ever holds an integer
  quotient, so it is an `int` here.
- **The gravity pull** is stated on the engine's `Norm`/`Heading` parameters. How strong
  the pull is as a function of the real distance is covered only by `WellPull` and
  `FartherPullsLess`.
