/**
 * The sensor accumulator of the engine (`MySensorEventListener`): per axis it keeps an
 * average, a sample count, a running maximum and a running minimum, updated by every
 * accelerometer event and reset by every pull.
 *
 * As written, the count of an axis is only incremented inside the branch that requires
 * it to be positive already, so it never leaves 0: every event overwrites the
 * "average" with its own value, and a pull returns the most recent sample.
 */
module Sensors {
  import opened Wrappers

  const AXES: int := 3

  /** `Float.MIN_VALUE`: the smallest POSITIVE float, 2^-149 (not the most negative one). */
  const FLOAT_MIN_VALUE: real := 1.0 / 713623846352979940529142984724747568191373312.0
  /** `Float.MAX_VALUE`: (2 - 2^-23) * 2^127. */
  const FLOAT_MAX_VALUE: real := 340282346638528859811704183484516925440.0

  /** The accumulator's contents as values: four arrays of one entry per axis. */
  datatype Accumulator = Accumulator(avg: seq<real>, count: seq<int>, max: seq<real>, min: seq<real>)
  {
    ghost predicate WellFormed() {
      |avg| == AXES && |count| == AXES && |max| == AXES && |min| == AXES
    }
  }

  /** What `reset` installs: zero averages and counts, extremes seeded at the float limits. */
  function Initial(): (a: Accumulator)
    ensures a.WellFormed()
  {
    Accumulator([0.0, 0.0, 0.0], [0, 0, 0],
                [FLOAT_MIN_VALUE, FLOAT_MIN_VALUE, FLOAT_MIN_VALUE],
                [FLOAT_MAX_VALUE, FLOAT_MAX_VALUE, FLOAT_MAX_VALUE])
  }

  /** One axis of `onSensorChanged`: fold the value into the average only when the count is positive. */
  function NextAvg(avg: real, count: int, v: real): real {
    if count > 0 then (avg * count as real + v) / (count + 1) as real else v
  }

  /** The folding branch of `NextAvg`, for a sum computed beforehand. */
  lemma NextAvgCounting(avg: real, count: int, v: real, sum: real)
    requires count > 0 && sum == avg * count as real + v
    ensures NextAvg(avg, count, v) == sum / (count + 1) as real
  {
  }

  function NextCount(count: int): int {
    if count > 0 then count + 1 else count
  }

  function NextMax(max: real, v: real): (r: real)
    ensures r >= max && r >= v && (r == max || r == v)
  {
    if v > max then v else max
  }

  function NextMin(min: real, v: real): (r: real)
    ensures r <= min && r <= v && (r == min || r == v)
  {
    if v < min then v else min
  }

  /**
   * What an accepted sample `v` does to one axis, going from `a` to `r`: an axis that is
   * counting keeps `avg * count` equal to the sum of its samples; one that is not reports
   * the sample itself and stays uncounted; the extremes grow to cover the sample, each
   * being either the sample or the old extreme.
   */
  ghost predicate AxisRecorded(a: Accumulator, r: Accumulator, v: seq<real>, i: int)
    requires a.WellFormed() && r.WellFormed() && |v| >= AXES && 0 <= i < AXES
  {
    (a.count[i] > 0 ==>
       r.count[i] == a.count[i] + 1 && r.avg[i] * r.count[i] as real == a.avg[i] * a.count[i] as real + v[i])
    && (a.count[i] <= 0 ==> r.avg[i] == v[i] && r.count[i] == a.count[i])
    && v[i] <= r.max[i] && a.max[i] <= r.max[i] && (r.max[i] == v[i] || r.max[i] == a.max[i])
    && r.min[i] <= v[i] && r.min[i] <= a.min[i] && (r.min[i] == v[i] || r.min[i] == a.min[i])
  }

  /** An axis that applies the per-axis update functions to a sample records it. */
  lemma AxisStep(a: Accumulator, r: Accumulator, v: seq<real>, i: int)
    requires a.WellFormed() && r.WellFormed() && |v| >= AXES && 0 <= i < AXES
    requires r.avg[i] == NextAvg(a.avg[i], a.count[i], v[i]) && r.count[i] == NextCount(a.count[i])
    requires r.max[i] == NextMax(a.max[i], v[i]) && r.min[i] == NextMin(a.min[i], v[i])
    ensures AxisRecorded(a, r, v, i)
  {
    if a.count[i] > 0 {
      var n := (a.count[i] + 1) as real;
      assert r.avg[i] == (a.avg[i] * a.count[i] as real + v[i]) / n;
    }
  }

  /** An accepted event: every axis updated from its own value. */
  function Record(a: Accumulator, v: seq<real>): (r: Accumulator)
    requires a.WellFormed() && |v| >= AXES
    ensures r.WellFormed()
    ensures forall i :: 0 <= i < AXES ==> AxisRecorded(a, r, v, i)
  {
    var r := Accumulator(
      [NextAvg(a.avg[0], a.count[0], v[0]), NextAvg(a.avg[1], a.count[1], v[1]), NextAvg(a.avg[2], a.count[2], v[2])],
      [NextCount(a.count[0]), NextCount(a.count[1]), NextCount(a.count[2])],
      [NextMax(a.max[0], v[0]), NextMax(a.max[1], v[1]), NextMax(a.max[2], v[2])],
      [NextMin(a.min[0], v[0]), NextMin(a.min[1], v[1]), NextMin(a.min[2], v[2])]);
    AxisStep(a, r, v, 0);
    AxisStep(a, r, v, 1);
    AxisStep(a, r, v, 2);
    r
  }

  /** An accumulator whose every axis applies the per-axis update functions to `v` is `Record(a, v)`. */
  lemma RecordFromAxes(a: Accumulator, v: seq<real>, r: Accumulator)
    requires a.WellFormed() && r.WellFormed() && |v| >= AXES
    requires forall i :: 0 <= i < AXES ==>
               r.avg[i] == NextAvg(a.avg[i], a.count[i], v[i]) && r.count[i] == NextCount(a.count[i])
               && r.max[i] == NextMax(a.max[i], v[i]) && r.min[i] == NextMin(a.min[i], v[i])
    ensures r == Record(a, v)
  {
    var t := Record(a, v);
    assert r.avg == t.avg && r.count == t.count && r.max == t.max && r.min == t.min;
  }

  /** An event is accepted when it is present and carries at least three values. */
  predicate Accepted(event: Option<seq<real>>) {
    event.Some? && |event.value| >= AXES
  }

  /** `onSensorChanged`: a missing event or one with fewer than three values changes nothing. */
  function OnEvent(a: Accumulator, event: Option<seq<real>>): (r: Accumulator)
    requires a.WellFormed()
    ensures r.WellFormed()
    ensures !Accepted(event) ==> r == a
  {
    if Accepted(event) then Record(a, event.value) else a
  }

  /** The accumulator after a series of events since the last reset. */
  function AfterEvents(events: seq<Option<seq<real>>>): (r: Accumulator)
    ensures r.WellFormed()
  {
    if events == [] then Initial()
    else OnEvent(AfterEvents(events[..|events| - 1]), events[|events| - 1])
  }

  /** The most recent accepted event of a series, if any. */
  function LastAccepted(events: seq<Option<seq<real>>>): (r: Option<seq<real>>)
    ensures r.Some? ==> |r.value| >= AXES
  {
    if events == [] then None
    else if Accepted(events[|events| - 1]) then events[|events| - 1]
    else LastAccepted(events[..|events| - 1])
  }

  /**
   * The counts stay 0 through any series of events, so the average an axis reports
   * is the value of the most recent accepted sample, or 0 when there was none.
   */
  lemma {:induction false} AverageIsLastSample(events: seq<Option<seq<real>>>)
    ensures AfterEvents(events).count == [0, 0, 0]
    ensures LastAccepted(events).None? ==> AfterEvents(events).avg == [0.0, 0.0, 0.0]
    ensures LastAccepted(events).Some? ==> AfterEvents(events).avg == LastAccepted(events).value[..AXES]
  {
    if events != [] {
      var prefix := events[..|events| - 1];
      AverageIsLastSample(prefix);
    }
  }

  /** The running maximum bounds every accepted sample and is either a sample or the seed. */
  lemma {:induction false} MaxIsRunningMaximum(events: seq<Option<seq<real>>>, axis: int)
    requires 0 <= axis < AXES
    ensures forall k :: 0 <= k < |events| && Accepted(events[k]) ==>
              events[k].value[axis] <= AfterEvents(events).max[axis]
    ensures AfterEvents(events).max[axis] == FLOAT_MIN_VALUE
            || exists k :: 0 <= k < |events| && Accepted(events[k]) && events[k].value[axis] == AfterEvents(events).max[axis]
  {
    if events != [] {
      var n := |events| - 1;
      var prefix := events[..n];
      MaxIsRunningMaximum(prefix, axis);
      assert forall k :: 0 <= k < n ==> events[k] == prefix[k];
      if AfterEvents(events).max[axis] != FLOAT_MIN_VALUE && AfterEvents(events).max[axis] != AfterEvents(prefix).max[axis] {
        assert events[n].value[axis] == AfterEvents(events).max[axis];
      }
    }
  }

  /** The running minimum bounds every accepted sample and is either a sample or the seed. */
  lemma {:induction false} MinIsRunningMinimum(events: seq<Option<seq<real>>>, axis: int)
    requires 0 <= axis < AXES
    ensures forall k :: 0 <= k < |events| && Accepted(events[k]) ==>
              AfterEvents(events).min[axis] <= events[k].value[axis]
    ensures AfterEvents(events).min[axis] == FLOAT_MAX_VALUE
            || exists k :: 0 <= k < |events| && Accepted(events[k]) && events[k].value[axis] == AfterEvents(events).min[axis]
  {
    if events != [] {
      var n := |events| - 1;
      var prefix := events[..n];
      MinIsRunningMinimum(prefix, axis);
      assert forall k :: 0 <= k < n ==> events[k] == prefix[k];
      if AfterEvents(events).min[axis] != FLOAT_MAX_VALUE && AfterEvents(events).min[axis] != AfterEvents(prefix).min[axis] {
        assert events[n].value[axis] == AfterEvents(events).min[axis];
      }
    }
  }

  /**
   * Because the maximum is seeded with the smallest positive float, an axis that only
   * ever saw negative samples still reports that positive seed as its maximum.
   */
  lemma {:induction false} NegativeSamplesKeepMaxSeed(events: seq<Option<seq<real>>>, axis: int)
    requires 0 <= axis < AXES
    requires forall k :: 0 <= k < |events| && Accepted(events[k]) ==> events[k].value[axis] < 0.0
    ensures AfterEvents(events).max[axis] == FLOAT_MIN_VALUE > 0.0
  {
    if events != [] {
      var n := |events| - 1;
      assert forall k :: 0 <= k < n ==> events[..n][k] == events[k];
      NegativeSamplesKeepMaxSeed(events[..n], axis);
    }
  }

  class SensorAccumulator {
    const avg: array<real>
    const count: array<int>
    const max: array<real>
    const min: array<real>
    ghost const Repr: set<object>

    ghost predicate Valid()
      reads this
    {
      Repr == {avg as object, count, max, min}
      && avg.Length == AXES && count.Length == AXES && max.Length == AXES && min.Length == AXES
      && avg != max && avg != min && max != min
    }

    ghost function State(): (a: Accumulator)
      requires Valid()
      reads this, Repr
      ensures a.WellFormed()
    {
      Accumulator(avg[..], count[..], max[..], min[..])
    }

    /** The instance initializer calls `reset`. */
    constructor ()
      ensures Valid() && fresh(Repr) && State() == Initial()
    {
      var a, c, hi, lo := new real[AXES], new int[AXES], new real[AXES], new real[AXES];
      avg, count, max, min := a, c, hi, lo;
      Repr := {a as object, c, hi, lo};
      new;
      Reset();
    }

    /** Back to the initial values (the source allocates fresh arrays; here they are refilled). */
    method Reset()
      requires Valid()
      modifies Repr
      ensures Valid() && State() == Initial()
    {
      avg[0], avg[1], avg[2] := 0.0, 0.0, 0.0;
      count[0], count[1], count[2] := 0, 0, 0;
      max[0], max[1], max[2] := FLOAT_MIN_VALUE, FLOAT_MIN_VALUE, FLOAT_MIN_VALUE;
      min[0], min[1], min[2] := FLOAT_MAX_VALUE, FLOAT_MAX_VALUE, FLOAT_MAX_VALUE;
      assert avg[..] == [0.0, 0.0, 0.0];
      assert count[..] == [0, 0, 0];
      assert max[..] == [FLOAT_MIN_VALUE, FLOAT_MIN_VALUE, FLOAT_MIN_VALUE];
      assert min[..] == [FLOAT_MAX_VALUE, FLOAT_MAX_VALUE, FLOAT_MAX_VALUE];
    }

    /** `onSensorChanged`: ignore a missing or short event, otherwise update each axis in turn. */
    method OnSensorChanged(event: Option<seq<real>>)
      requires Valid()
      modifies Repr
      ensures Valid() && State() == OnEvent(old(State()), event)
    {
      if event.None? || |event.value| < AXES {
        return;
      }
      var values := event.value;
      ghost var a := old(State());
      for i := 0 to avg.Length
        invariant Valid()
        invariant forall j :: 0 <= j < i ==>
                    avg[j] == NextAvg(a.avg[j], a.count[j], values[j]) && count[j] == NextCount(a.count[j])
                    && max[j] == NextMax(a.max[j], values[j]) && min[j] == NextMin(a.min[j], values[j])
        invariant forall j :: i <= j < AXES ==>
                    avg[j] == a.avg[j] && count[j] == a.count[j] && max[j] == a.max[j] && min[j] == a.min[j]
      {
        ghost var next := NextAvg(a.avg[i], a.count[i], values[i]);
        if count[i] > 0 {
          var sum := avg[i] * count[i] as real + values[i];
          count[i] := count[i] + 1;
          avg[i] := sum / count[i] as real;
          NextAvgCounting(a.avg[i], a.count[i], values[i], sum);
        } else {
          avg[i] := values[i];
        }
        assert avg[i] == next;
        max[i] := if values[i] > max[i] then values[i] else max[i];
        min[i] := if values[i] < min[i] then values[i] else min[i];
      }
      RecordFromAxes(a, values, State());
    }

    /** `pullSensors`: a copy of the averages, then a reset. */
    method Pull() returns (result: seq<real>)
      requires Valid()
      modifies Repr
      ensures Valid() && State() == Initial()
      ensures result == old(State()).avg
    {
      result := avg[..];
      Reset();
    }
  }
}
