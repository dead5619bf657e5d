/**
 * The game loop thread (`GameThread`): each iteration locks a canvas, initialises the
 * game once, updates and renders, then sleeps off the rest of the 16 ms frame or, when
 * the frame ran late, catches up with up to six extra updates. The clock, the canvas,
 * the sleeps and the three callbacks belong to the environment: what they do in one
 * iteration arrives as a `Frame`, and the calls the loop makes are logged as `Event`s.
 */
module GameLoop {
  import opened Wrappers
  import opened JavaArith

  const MAX_FPS: int := 60
  /** `MAX_FPS / 10`: at most six catch-up updates per frame. */
  const MAX_FRAME_SKIP: int := MAX_FPS / 10
  /** `1000 / MAX_FPS` in integer division: 16 ms, not 16.67. */
  const FRAME_PERIOD: int := 1000 / MAX_FPS

  /** What the environment does during one iteration of `run`. */
  datatype Frame = Frame(
    canvas: bool,               // `lockCanvas()` returned a canvas
    fallbackInterrupted: bool,  // the sleep taken for want of a canvas was interrupted
    loopTime: int,              // the milliseconds the update and the render took (a `long`)
    sleepInterrupted: bool)     // the sleep that fills an early frame was interrupted

  /** The calls the loop makes, in the order it makes them. */
  datatype Event = Init | Update(deltaT: int) | Render(withCanvas: bool) | Sleep(ms: int) | Unlock

  /** The loop's variables between two iterations: `sleepTime` is a local of `run`, the rest are fields. */
  datatype Loop = Loop(sleepTime: int, initialized: bool, running: bool, log: seq<Event>)

  /** How a run of the loop ends: with `running` false or out of frames, or by an exception. */
  datatype Ended = Ended(last: Loop, outcome: Outcome)

  /** `n` catch-up updates, each of one frame period. */
  function Updates(n: nat): (r: seq<Event>)
    ensures |r| == n && forall i :: 0 <= i < n ==> r[i] == Update(FRAME_PERIOD)
  {
    if n == 0 then [] else Updates(n - 1) + [Update(FRAME_PERIOD)]
  }

  /**
   * The catch-up count for a frame that left `sleepTime`: none unless it is negative,
   * then one update per frame period behind, rounded up, and never more than six.
   */
  function Skips(sleepTime: int): nat {
    if sleepTime >= 0 then 0
    else
      var behind := (-sleepTime + FRAME_PERIOD - 1) / FRAME_PERIOD;
      if behind < MAX_FRAME_SKIP then behind else MAX_FRAME_SKIP
  }

  /** While fewer than `Skips(sleepTime)` updates are done the frame is still behind, and conversely up to the cap. */
  lemma SkipsCounts(sleepTime: int, k: nat)
    requires k <= MAX_FRAME_SKIP
    ensures (sleepTime + k * FRAME_PERIOD < 0 && k < MAX_FRAME_SKIP) <==> k < Skips(sleepTime)
  {
    if sleepTime < 0 {
      var behind := (-sleepTime + FRAME_PERIOD - 1) / FRAME_PERIOD;
      assert FRAME_PERIOD * behind <= -sleepTime + FRAME_PERIOD - 1 < FRAME_PERIOD * behind + FRAME_PERIOD;
    }
  }

  /**
   * After the catch-up the frame is no longer behind unless all six extra updates were
   * spent, and it never overshoots by a whole frame period.
   */
  lemma CatchUpLeavesSleep(sleepTime: int)
    requires sleepTime <= 0
    ensures var k := Skips(sleepTime);
            k <= MAX_FRAME_SKIP
            && (sleepTime + k * FRAME_PERIOD >= 0 || k == MAX_FRAME_SKIP)
            && sleepTime + k * FRAME_PERIOD < FRAME_PERIOD
  {
    SkipsCounts(sleepTime, Skips(sleepTime));
    if sleepTime < 0 {
      var behind := (-sleepTime + FRAME_PERIOD - 1) / FRAME_PERIOD;
      assert FRAME_PERIOD * behind <= -sleepTime + FRAME_PERIOD - 1;
    }
  }

  /** The end of an iteration: the sleep that fills an early frame, or the catch-up updates of a late one. */
  datatype Pacing = Pacing(sleepTime: int, events: seq<Event>, interrupted: bool)

  /**
   * The pacing after a frame whose update and render took `loopTime`: the sleep time is
   * the rest of the frame period, narrowed to an `int`; a positive one is slept (and the
   * sleep may be interrupted), otherwise the catch-up adds one frame period per update.
   */
  function Paced(loopTime: int, interrupted: bool): Pacing {
    var sleepTime := LongToInt(FRAME_PERIOD - loopTime);
    if sleepTime > 0 then Pacing(sleepTime, [Sleep(sleepTime)], interrupted)
    else
      var k := Skips(sleepTime);
      Pacing(sleepTime + k * FRAME_PERIOD, Updates(k), false)
  }

  /** The start of an iteration: the sleep taken for want of a canvas, the one-time initialisation, one update and the render. */
  function Opening(l: Loop, f: Frame): seq<Event> {
    (if f.canvas then [] else [Sleep(l.sleepTime)])
    + (if !l.initialized && f.canvas then [Init] else [])
    + [Update(FRAME_PERIOD), Render(f.canvas)]
  }

  /**
   * One iteration of `run` from `l` under `f`, or `None` when the sleep taken for want
   * of a canvas is given a negative time: `Thread.sleep` then throws
   * IllegalArgumentException, which nothing in `run` catches.
   */
  function Step(l: Loop, f: Frame): Option<Loop> {
    if !f.canvas && l.sleepTime < 0 then None
    else
      var p := Paced(f.loopTime, f.sleepInterrupted);
      Some(Loop(p.sleepTime, l.initialized || f.canvas,
                l.running && (f.canvas || !f.fallbackInterrupted) && !p.interrupted,
                l.log + Opening(l, f) + p.events + (if f.canvas then [Unlock] else [])))
  }

  /** `run` from `l` over the iterations `frames`: it stops when `running` is false, when the frames run out, or on the exception. */
  function RunFrom(l: Loop, frames: seq<Frame>): Ended
    decreases |frames|
  {
    if !l.running || frames == [] then Ended(l, Completed)
    else
      match Step(l, frames[0])
      case None => Ended(l, Thrown(IllegalArgumentException))
      case Some(next) => RunFrom(next, frames[1..])
  }

  /** Every update the loop makes advances the game by exactly one frame period. */
  predicate OneFrameUpdates(log: seq<Event>) {
    forall i :: 0 <= i < |log| ==> log[i].Update? ==> log[i].deltaT == FRAME_PERIOD
  }

  /** A pacing holds up to six updates, each of one frame period, and otherwise only sleeps. */
  lemma PacedCounts(loopTime: int, interrupted: bool)
    ensures var p := Paced(loopTime, interrupted);
            OneFrameUpdates(p.events) && multiset(p.events)[Update(FRAME_PERIOD)] <= MAX_FRAME_SKIP
            && forall e :: e in p.events ==> e.Update? || e.Sleep?
  {
    var sleepTime := LongToInt(FRAME_PERIOD - loopTime);
    if sleepTime <= 0 {
      CatchUpLeavesSleep(sleepTime);
      UpdatesCount(Skips(sleepTime));
    }
  }

  /** The start of an iteration renders once with its canvas, updates once, and initialises only on the first canvas. */
  lemma OpeningCounts(l: Loop, f: Frame)
    ensures var o := multiset(Opening(l, f));
            o[Render(f.canvas)] == 1 && o[Render(!f.canvas)] == 0 && o[Update(FRAME_PERIOD)] == 1 && o[Unlock] == 0
            && o[Init] == (if !l.initialized && f.canvas then 1 else 0)
            && OneFrameUpdates(Opening(l, f))
  {
  }

  /** An iteration appends its opening, its pacing and, with a canvas, the unlock. */
  lemma StepLog(l: Loop, f: Frame)
    requires Step(l, f).Some?
    ensures var n := Step(l, f).value;
            var added := Opening(l, f) + Paced(f.loopTime, f.sleepInterrupted).events + (if f.canvas then [Unlock] else []);
            n.log == l.log + added && n.log[|l.log|..] == added
  {
  }

  /**
   * One iteration renders once, with the canvas it locked, and updates between one and
   * seven times, each by one frame period; it unlocks exactly the canvas it locked and
   * only ever appends to the log.
   */
  lemma StepPacing(l: Loop, f: Frame)
    requires Step(l, f).Some?
    ensures var n := Step(l, f).value;
            var added := n.log[|l.log|..];
            l.log <= n.log
            && multiset(added)[Render(f.canvas)] == 1 && multiset(added)[Render(!f.canvas)] == 0
            && 1 <= multiset(added)[Update(FRAME_PERIOD)] <= 1 + MAX_FRAME_SKIP
            && OneFrameUpdates(added)
            && multiset(added)[Unlock] == (if f.canvas then 1 else 0)
  {
    StepLog(l, f);
    OpeningCounts(l, f);
    PacedCounts(f.loopTime, f.sleepInterrupted);
    IterationCounts(Opening(l, f), Paced(f.loopTime, f.sleepInterrupted).events, f.canvas);
  }

  /** The counts of an iteration's events from those of its opening and of its pacing. */
  lemma IterationCounts(opening: seq<Event>, pacing: seq<Event>, canvas: bool)
    requires var o := multiset(opening);
             o[Render(canvas)] == 1 && o[Render(!canvas)] == 0 && o[Update(FRAME_PERIOD)] == 1 && o[Unlock] == 0
             && OneFrameUpdates(opening)
    requires OneFrameUpdates(pacing) && multiset(pacing)[Update(FRAME_PERIOD)] <= MAX_FRAME_SKIP
    requires forall e :: e in pacing ==> e.Update? || e.Sleep?
    ensures var added := opening + pacing + (if canvas then [Unlock] else []);
            multiset(added)[Render(canvas)] == 1 && multiset(added)[Render(!canvas)] == 0
            && 1 <= multiset(added)[Update(FRAME_PERIOD)] <= 1 + MAX_FRAME_SKIP
            && OneFrameUpdates(added)
            && multiset(added)[Unlock] == (if canvas then 1 else 0)
  {
    var unlock := if canvas then [Unlock] else [];
    assert multiset(opening + pacing + unlock) == multiset(opening) + multiset(pacing) + multiset(unlock);
    assert Render(true) !in pacing && Render(false) !in pacing && Unlock !in pacing;
    OneFrameConcat(opening, pacing);
    OneFrameConcat(opening + pacing, unlock);
  }

  /** An iteration logs `Init` exactly when it sets the flag. */
  lemma StepInits(l: Loop, f: Frame)
    requires Step(l, f).Some?
    ensures multiset(Step(l, f).value.log)[Init]
            == multiset(l.log)[Init] + (if !l.initialized && f.canvas then 1 else 0)
  {
    StepLog(l, f);
    OpeningCounts(l, f);
    PacedCounts(f.loopTime, f.sleepInterrupted);
    var pacing := Paced(f.loopTime, f.sleepInterrupted).events;
    var unlock := if f.canvas then [Unlock] else [];
    assert Init !in pacing;
    assert multiset(l.log + (Opening(l, f) + pacing + unlock))
           == multiset(l.log) + multiset(Opening(l, f)) + multiset(pacing) + multiset(unlock);
  }

  /** The catch-up updates are `n` one-frame updates and nothing else. */
  lemma {:induction false} UpdatesCount(n: nat)
    ensures multiset(Updates(n)) == multiset{}[Update(FRAME_PERIOD) := n]
  {
    if n > 0 {
      UpdatesCount(n - 1);
      assert Updates(n) == Updates(n - 1) + [Update(FRAME_PERIOD)];
    }
  }

  /** Concatenating logs whose updates are all one frame period keeps that so. */
  lemma OneFrameConcat(a: seq<Event>, b: seq<Event>)
    requires OneFrameUpdates(a) && OneFrameUpdates(b)
    ensures OneFrameUpdates(a + b)
  {
    forall i | 0 <= i < |a + b| && (a + b)[i].Update?
      ensures (a + b)[i].deltaT == FRAME_PERIOD
    {
      if i >= |a| {
        assert (a + b)[i] == b[i - |a|];
      }
    }
  }

  /** Over a whole run, every update is by one frame period, and the log only grows. */
  lemma {:induction false} RunUpdatesOneFrame(l: Loop, frames: seq<Frame>)
    requires OneFrameUpdates(l.log)
    ensures var e := RunFrom(l, frames);
            l.log <= e.last.log && OneFrameUpdates(e.last.log)
    decreases |frames|
  {
    if l.running && frames != [] && Step(l, frames[0]).Some? {
      var n := Step(l, frames[0]).value;
      StepPacing(l, frames[0]);
      var added := n.log[|l.log|..];
      assert n.log == l.log + added;
      assert OneFrameUpdates(n.log) by {
        forall i | 0 <= i < |n.log| && n.log[i].Update?
          ensures n.log[i].deltaT == FRAME_PERIOD
        {
          if i >= |l.log| {
            assert n.log[i] == added[i - |l.log|];
          }
        }
      }
      RunUpdatesOneFrame(n, frames[1..]);
    }
  }

  /**
   * The initializer runs at most once in a run: exactly one `Init` is logged when the
   * flag goes from false to true, none otherwise, and the flag never goes back.
   */
  lemma {:induction false} InitAtMostOnce(l: Loop, frames: seq<Frame>)
    ensures var e := RunFrom(l, frames);
            (l.initialized ==> e.last.initialized)
            && multiset(e.last.log)[Init] == multiset(l.log)[Init] + (if e.last.initialized && !l.initialized then 1 else 0)
    decreases |frames|
  {
    if l.running && frames != [] && Step(l, frames[0]).Some? {
      StepInits(l, frames[0]);
      InitAtMostOnce(Step(l, frames[0]).value, frames[1..]);
    }
  }

  /** The first canvas of a run initialises the game, before that iteration's update and render. */
  lemma InitBeforeRender(l: Loop, f: Frame)
    requires !l.initialized && f.canvas
    ensures Step(l, f).Some?
    ensures var n := Step(l, f).value;
            n.initialized && |n.log| >= |l.log| + 3
            && n.log[|l.log|..|l.log| + 3] == [Init, Update(FRAME_PERIOD), Render(true)]
  {
  }

  /** An interrupted sleep clears `running`: the run ends after that iteration, whatever frames were still to come. */
  lemma InterruptEndsRun(l: Loop, f: Frame, rest: seq<Frame>)
    requires l.running && Step(l, f).Some?
    requires (!f.canvas && f.fallbackInterrupted) || (LongToInt(FRAME_PERIOD - f.loopTime) > 0 && f.sleepInterrupted)
    ensures RunFrom(l, [f] + rest) == Ended(Step(l, f).value, Completed)
  {
    assert ([f] + rest)[0] == f && ([f] + rest)[1..] == rest;
    var n := Step(l, f).value;
    assert !n.running;
  }

  /**
   * A frame leaves a negative sleep time, the only one a later canvas-less iteration
   * cannot survive, exactly when it took longer than seven frame periods (112 ms).
   */
  lemma NegativeSleepNeedsLongFrame(l: Loop, f: Frame)
    requires Step(l, f).Some? && FRAME_PERIOD - INT_MAX <= f.loopTime <= INT_MAX
    ensures Step(l, f).value.sleepTime < 0 <==> f.loopTime > FRAME_PERIOD * (1 + MAX_FRAME_SKIP)
  {
    var sleepTime := FRAME_PERIOD - f.loopTime;
    assert LongToInt(sleepTime) == sleepTime;
    if sleepTime <= 0 {
      CatchUpLeavesSleep(sleepTime);
      SkipsCounts(sleepTime, Skips(sleepTime));
      if f.loopTime > FRAME_PERIOD * (1 + MAX_FRAME_SKIP) {
        SkipsCounts(sleepTime, MAX_FRAME_SKIP - 1);
      }
    }
  }

  /**
   * A 200 ms frame followed by an iteration without a canvas ends `run` with
   * IllegalArgumentException: six catch-up updates leave the sleep time at -88, and the
   * canvas-less iteration passes it to `Thread.sleep`.
   */
  lemma LateFrameThenNoCanvasThrows()
    ensures var e := RunFrom(Loop(0, false, true, []), [Frame(true, false, 200, false), Frame(false, false, 0, false)]);
            e.outcome == Thrown(IllegalArgumentException) && e.last.sleepTime == -88
            && e.last.log == [Init, Update(FRAME_PERIOD), Render(true)] + Updates(MAX_FRAME_SKIP) + [Unlock]
  {
    var frames := [Frame(true, false, 200, false), Frame(false, false, 0, false)];
    var l := Loop(0, false, true, []);
    assert LongToInt(FRAME_PERIOD - 200) == -184;
    assert Skips(-184) == MAX_FRAME_SKIP;
    var n := Step(l, frames[0]).value;
    assert n.sleepTime == -88;
    assert frames[1..] == [Frame(false, false, 0, false)];
  }

  class GameThread {
    /** `running`: public and volatile in the source; cleared by an interrupted sleep. */
    var running: bool
    /** Whether the initializer has run. */
    var initialized: bool
    /** The calls the thread has made to the canvas holder, the three callbacks and `Thread.sleep`. */
    var log: seq<Event>

    constructor ()
      ensures running && !initialized && log == []
    {
      running, initialized, log := true, false, [];
    }

    /**
     * `new GameThread(holder, initializer, updater, renderer)`, each argument given by
     * whether it is non-null: any missing one throws IllegalArgumentException.
     */
    static method Create(holder: bool, initializer: bool, updater: bool, renderer: bool)
      returns (t: GameThread?, outcome: Outcome)
      ensures outcome == Completed <==> holder && initializer && updater && renderer
      ensures outcome != Completed ==> t == null && outcome == Thrown(IllegalArgumentException)
      ensures outcome == Completed ==> t != null && fresh(t) && t.running && !t.initialized && t.log == []
    {
      if !holder || !initializer || !updater || !renderer {
        return null, Thrown(IllegalArgumentException);
      }
      t := new GameThread();
      outcome := Completed;
    }

    /** The loop's variables other than the local `sleepTime`. */
    function At(sleepTime: int): Loop
      reads this
    {
      Loop(sleepTime, initialized, running, log)
    }

    /**
     * `run()` over the iterations the environment provides: `sleepTime` starts at 0,
     * and the loop goes on while `running` holds and frames remain.
     */
    method Run(frames: seq<Frame>) returns (outcome: Outcome)
      modifies this
      ensures var e := RunFrom(old(At(0)), frames);
              running == e.last.running && initialized == e.last.initialized && log == e.last.log
              && outcome == e.outcome
    {
      var sleepTime := 0;
      var i := 0;
      while running && i < |frames|
        invariant 0 <= i <= |frames|
        invariant RunFrom(At(sleepTime), frames[i..]) == RunFrom(old(At(0)), frames)
        decreases |frames| - i
      {
        var ok;
        sleepTime, ok := Iterate(sleepTime, frames[i]);
        if !ok {
          return Thrown(IllegalArgumentException);
        }
        assert frames[i..][1..] == frames[i + 1..];
        i := i + 1;
      }
      if i == |frames| {
        assert frames[i..] == [];
      }
      outcome := Completed;
    }

    /**
     * One pass of the loop body from `sleepTime`: `ok` is false, and nothing has
     * changed, when the canvas-less sleep throws.
     */
    method Iterate(sleepTime: int, f: Frame) returns (next: int, ok: bool)
      modifies this
      ensures ok == Step(old(At(sleepTime)), f).Some?
      ensures ok ==> At(next) == Step(old(At(sleepTime)), f).value
      ensures !ok ==> At(sleepTime) == old(At(sleepTime))
    {
      ok := Open(sleepTime, f);
      if !ok {
        return sleepTime, false;
      }
      next := PaceFrame(f);
      if f.canvas {
        log := log + [Unlock];
      }
    }

    /**
     * The loop body up to the render: without a canvas, the fallback sleep (which throws
     * on a negative time); with the first canvas, the initializer; then one update and
     * the render.
     */
    method Open(sleepTime: int, f: Frame) returns (ok: bool)
      modifies this`log, this`running, this`initialized
      ensures ok == (f.canvas || sleepTime >= 0)
      ensures ok ==> log == old(log) + Opening(old(At(sleepTime)), f)
                     && initialized == (old(initialized) || f.canvas)
                     && running == (old(running) && (f.canvas || !f.fallbackInterrupted))
      ensures !ok ==> log == old(log) && initialized == old(initialized) && running == old(running)
    {
      if !f.canvas {
        if sleepTime < 0 {
          return false;
        }
        log := log + [Sleep(sleepTime)];
        if f.fallbackInterrupted {
          running := false;
        }
      }
      if !initialized && f.canvas {
        log := log + [Init];
        initialized := true;
      }
      log := log + [Update(FRAME_PERIOD), Render(f.canvas)];
      ok := true;
    }

    /** The loop body after the render: sleep off an early frame, or catch up a late one. */
    method PaceFrame(f: Frame) returns (next: int)
      modifies this`log, this`running
      ensures var p := Paced(f.loopTime, f.sleepInterrupted);
              next == p.sleepTime && log == old(log) + p.events && running == (old(running) && !p.interrupted)
    {
      next := LongToInt(FRAME_PERIOD - f.loopTime);
      if next > 0 {
        log := log + [Sleep(next)];
        if f.sleepInterrupted {
          running := false;
        }
      } else {
        var skipped;
        next, skipped := CatchUp(next);
      }
    }

    /**
     * The catch-up loop: while the frame is behind and fewer than six frames were
     * skipped, one more update and one frame period less behind.
     */
    method CatchUp(sleepTime: int) returns (finalSleep: int, skipped: nat)
      requires sleepTime <= 0
      modifies this`log
      ensures skipped == Skips(sleepTime) && finalSleep == sleepTime + skipped * FRAME_PERIOD
      ensures log == old(log) + Updates(skipped)
    {
      finalSleep, skipped := sleepTime, 0;
      while finalSleep < 0 && skipped < MAX_FRAME_SKIP
        invariant skipped <= Skips(sleepTime) && skipped <= MAX_FRAME_SKIP
        invariant finalSleep == sleepTime + skipped * FRAME_PERIOD
        invariant log == old(log) + Updates(skipped)
        decreases MAX_FRAME_SKIP - skipped
      {
        SkipsCounts(sleepTime, skipped);
        log := log + [Update(FRAME_PERIOD)];
        finalSleep := finalSleep + FRAME_PERIOD;
        skipped := skipped + 1;
      }
      SkipsCounts(sleepTime, skipped);
    }
  }
}
