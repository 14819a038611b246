/**
 * The computations of `src/components/dashboard/SensorCard.tsx`: the status
 * shown for a reading (normal, warning or critical, by how close it sits to
 * either end of the sensor's range), the 1000 ms animation of the displayed
 * value towards a new reading, and the width of the progress bar.
 *
 * Numbers are reals. The chain of animation frames is a function of the frame
 * timestamps the browser delivers.
 */
module SensorCard {
  import opened Wrappers
  import MockData

  datatype Status = Normal | Warning | Critical

  /** Length of one animation, in milliseconds. */
  const Duration: real := 1000.0

  /** Where `value` sits in the range, as a fraction: 0 at `minValue`, 1 at `maxValue`. */
  function Position(value: real, minValue: real, maxValue: real): real
    requires minValue < maxValue
  {
    (value - minValue) / (maxValue - minValue)
  }

  /** For a positive range, comparing the fraction with `k` is comparing the offset with `k` times the range. */
  lemma PositionBelow(value: real, minValue: real, maxValue: real, k: real)
    ensures minValue < maxValue ==>
              (Position(value, minValue, maxValue) <= k <==> value - minValue <= k * (maxValue - minValue))
    ensures minValue < maxValue ==>
              (Position(value, minValue, maxValue) >= k <==> value - minValue >= k * (maxValue - minValue))
  {
    if minValue < maxValue {
      var range := maxValue - minValue;
      var f := Position(value, minValue, maxValue);
      assert f * range == value - minValue;
      if f <= k {
        ScaledMonotone(f, k, range);
      }
      if f >= k {
        ScaledMonotone(k, f, range);
      }
      if value - minValue <= k * range && f > k {
        ScaledStrict(k, f, range);
      }
      if value - minValue >= k * range && f < k {
        ScaledStrict(f, k, range);
      }
    }
  }

  lemma ScaledMonotone(a: real, b: real, c: real)
    requires a <= b && 0.0 < c
    ensures a * c <= b * c
  {
  }

  lemma ScaledStrict(a: real, b: real, c: real)
    requires a < b && 0.0 < c
    ensures a * c < b * c
  {
  }

  /**
   * The status effect's if-chain: critical within 10% of the range from either
   * end, else warning within 20%, else normal.
   */
  function Classify(value: real, minValue: real, maxValue: real): (s: Status)
    ensures minValue < maxValue ==>
              (s == Critical <==> Position(value, minValue, maxValue) <= 0.1
                                  || Position(value, minValue, maxValue) >= 0.9)
    ensures minValue < maxValue ==>
              (s == Warning <==> (0.1 < Position(value, minValue, maxValue) <= 0.2
                                  || 0.8 <= Position(value, minValue, maxValue) < 0.9))
    ensures minValue < maxValue ==>
              (s == Normal <==> 0.2 < Position(value, minValue, maxValue) < 0.8)
    ensures minValue == maxValue ==> s == Critical
  {
    PositionBelow(value, minValue, maxValue, 0.1);
    PositionBelow(value, minValue, maxValue, 0.2);
    PositionBelow(value, minValue, maxValue, 0.8);
    PositionBelow(value, minValue, maxValue, 0.9);
    var range := maxValue - minValue;
    var warningThreshold := range * 0.2;
    var criticalThreshold := range * 0.1;
    if value <= minValue + criticalThreshold || value >= maxValue - criticalThreshold then Critical
    else if value <= minValue + warningThreshold || value >= maxValue - warningThreshold then Warning
    else Normal
  }

  /** The status bands are symmetric: mirroring a reading about the middle of the range keeps its status. */
  lemma ClassifyMirror(value: real, minValue: real, maxValue: real)
    ensures Classify(minValue + maxValue - value, minValue, maxValue) == Classify(value, minValue, maxValue)
  {
  }

  /** Moving a reading towards the middle of the range never makes its status more severe. */
  lemma {:induction false} ClassifyTowardsMiddle(value: real, closer: real, minValue: real, maxValue: real)
    requires minValue < maxValue
    requires value <= closer <= (minValue + maxValue) / 2.0
    ensures Classify(value, minValue, maxValue) == Normal ==> Classify(closer, minValue, maxValue) == Normal
    ensures Classify(closer, minValue, maxValue) == Critical ==> Classify(value, minValue, maxValue) == Critical
  {
    var range := maxValue - minValue;
    assert closer - minValue <= range / 2.0;
    PositionBelow(value, minValue, maxValue, 0.8);
    PositionBelow(closer, minValue, maxValue, 0.8);
    PositionBelow(value, minValue, maxValue, 0.9);
    PositionBelow(closer, minValue, maxValue, 0.9);
    PositionBelow(value, minValue, maxValue, 0.2);
    PositionBelow(closer, minValue, maxValue, 0.2);
    PositionBelow(value, minValue, maxValue, 0.1);
    PositionBelow(closer, minValue, maxValue, 0.1);
  }

  /**
   * The status effect: when the reading and both bounds are present the
   * status is reclassified; when any of them is missing it stays as it was.
   */
  function NextStatus(current: Status, value: Option<real>, minValue: Option<real>, maxValue: Option<real>): (s: Status)
    ensures value.None? || minValue.None? || maxValue.None? ==> s == current
    ensures value.Some? && minValue.Some? && maxValue.Some? && minValue.value < maxValue.value ==>
              (s == Critical <==> Position(value.value, minValue.value, maxValue.value) <= 0.1
                                  || Position(value.value, minValue.value, maxValue.value) >= 0.9)
    ensures value.Some? && minValue.Some? && maxValue.Some? && minValue.value < maxValue.value ==>
              (s == Normal <==> 0.2 < Position(value.value, minValue.value, maxValue.value) < 0.8)
  {
    if value.Some? && minValue.Some? && maxValue.Some? then Classify(value.value, minValue.value, maxValue.value)
    else current
  }

  /**
   * The dashboard passes `sensorData?.x || 0` and the configured bounds, so
   * before the first sample every card reads 0, which every configured range
   * puts at or below its critical band: all three cards show critical.
   */
  lemma BeforeFirstSampleAllCritical(sensor: MockData.Sensor)
    ensures Classify(0.0, MockData.GetSensorConfig(sensor).min, MockData.GetSensorConfig(sensor).max) == Critical
  {
  }

  /** The first value shown: the reading when there is one, otherwise 0. */
  function InitialAnimatedValue(value: Option<real>): (v: real)
    ensures value.None? ==> v == 0.0
    ensures value.Some? ==> v == value.value
  {
    if value.Some? then value.value else 0.0
  }

  /** `Math.min(elapsed / duration, 1)`: the share of the animation done after `elapsed` ms. */
  function Progress(elapsed: real): (p: real)
    ensures p <= 1.0
    ensures p == 1.0 <==> elapsed >= Duration
    ensures 0.0 <= elapsed ==> 0.0 <= p
    ensures elapsed == 0.0 ==> p == 0.0
  {
    if elapsed / Duration < 1.0 then elapsed / Duration else 1.0
  }

  /** Later frames are never less far along. */
  lemma ProgressMonotone(e1: real, e2: real)
    requires e1 <= e2
    ensures Progress(e1) <= Progress(e2)
  {
  }

  /** The value shown `elapsed` ms into an animation from `start` to `end`. */
  function Interpolate(start: real, end: real, elapsed: real): (v: real)
    ensures elapsed == 0.0 ==> v == start
    ensures elapsed >= Duration ==> v == end
    ensures 0.0 <= elapsed && start <= end ==> start <= v <= end
    ensures 0.0 <= elapsed && end <= start ==> end <= v <= start
  {
    var p := Progress(elapsed);
    var v := start + (end - start) * p;
    LerpBetween(start, end, p, v);
    v
  }

  /** The point a share `p` between 0 and 1 of the way from `start` to `end` lies between them. */
  lemma LerpBetween(start: real, end: real, p: real, v: real)
    requires v == start + (end - start) * p
    ensures p == 0.0 ==> v == start
    ensures p == 1.0 ==> v == end
    ensures 0.0 <= p <= 1.0 && start <= end ==> start <= v <= end
    ensures 0.0 <= p <= 1.0 && end <= start ==> end <= v <= start
  {
    ScaledBetween(end - start, p, (end - start) * p);
  }

  /** A share between 0 and 1 of a difference lies between 0 and that difference. */
  lemma ScaledBetween(d: real, p: real, q: real)
    requires q == d * p
    ensures p == 0.0 ==> q == 0.0
    ensures p == 1.0 ==> q == d
    ensures 0.0 <= p <= 1.0 && 0.0 <= d ==> 0.0 <= q <= d
    ensures 0.0 <= p <= 1.0 && d <= 0.0 ==> d <= q <= 0.0
  {
    if 0.0 <= p <= 1.0 && 0.0 <= d {
      MulNonneg(d, p);
      MulNonneg(d, 1.0 - p);
    }
    if 0.0 <= p <= 1.0 && d <= 0.0 {
      MulNonneg(-d, p);
      MulNonneg(-d, 1.0 - p);
    }
  }

  lemma MulNonneg(a: real, b: real)
    requires 0.0 <= a && 0.0 <= b
    ensures 0.0 <= a * b
  {
  }

  /**
   * The chain of animation frames: `frameTimes` are the timestamps the browser
   * passes to successive callbacks. Each callback requests another frame only
   * while the animation is unfinished, so the callbacks that run are those up
   * to and including the first one 1000 ms or more after the start.
   */
  function FramesRun(startTime: real, frameTimes: seq<real>): (n: nat)
    ensures n <= |frameTimes|
    ensures frameTimes != [] ==> 0 < n
    ensures forall i :: 0 <= i < n - 1 ==> frameTimes[i] - startTime < Duration
    ensures n < |frameTimes| ==> frameTimes[n - 1] - startTime >= Duration
    decreases |frameTimes|
  {
    if frameTimes == [] then 0
    else if Progress(frameTimes[0] - startTime) < 1.0 then
      var rest := FramesRun(startTime, frameTimes[1..]);
      assert forall i :: 0 < i < rest + 1 ==> frameTimes[1..][i - 1] == frameTimes[i];
      1 + rest
    else 1
  }

  /** The values the frame callbacks show: the interpolation at each frame that runs. */
  function Animate(start: real, end: real, startTime: real, frameTimes: seq<real>): (shown: seq<real>)
    ensures |shown| == FramesRun(startTime, frameTimes)
    ensures forall i :: 0 <= i < |shown| ==> shown[i] == Interpolate(start, end, frameTimes[i] - startTime)
  {
    var n := FramesRun(startTime, frameTimes);
    seq(n, i requires 0 <= i < n => Interpolate(start, end, frameTimes[i] - startTime))
  }

  /**
   * The chain ends on `end` when it stops before the frames run out, and when
   * the last frame delivered comes 1000 ms or more after the start.
   */
  lemma AnimateEndsAtEnd(start: real, end: real, startTime: real, frameTimes: seq<real>)
    ensures |Animate(start, end, startTime, frameTimes)| < |frameTimes| ==>
              Animate(start, end, startTime, frameTimes)[|Animate(start, end, startTime, frameTimes)| - 1] == end
    ensures frameTimes != [] && frameTimes[|frameTimes| - 1] - startTime >= Duration ==>
              Animate(start, end, startTime, frameTimes)[|Animate(start, end, startTime, frameTimes)| - 1] == end
  {
    var shown := Animate(start, end, startTime, frameTimes);
    if frameTimes != [] {
      var k := |shown| - 1;
      assert shown[k] == Interpolate(start, end, frameTimes[k] - startTime);
    }
  }

  /**
   * The card mounts with a reading: the mount effect animates from the initial
   * value, which is that reading, to the reading itself, so every frame shows
   * the reading and the animation has no visible effect.
   */
  lemma MountWithReadingHolds(reading: real, startTime: real, frameTimes: seq<real>)
    ensures var shown := Animate(InitialAnimatedValue(Some(reading)), reading, startTime, frameTimes);
            forall i :: 0 <= i < |shown| ==> shown[i] == reading
  {
    var start := InitialAnimatedValue(Some(reading));
    var shown := Animate(start, reading, startTime, frameTimes);
    forall i | 0 <= i < |shown|
      ensures shown[i] == reading
    {
      var p := Progress(frameTimes[i] - startTime);
      LerpBetween(start, reading, p, start + (reading - start) * p);
    }
  }

  /**
   * The card mounts without a reading and the mount effect does nothing, so
   * the first reading to arrive is animated from 0: the chain starts at 0 when
   * its first frame comes at the start time, never leaves the span between 0
   * and the reading, and ends on the reading when it stops.
   */
  lemma FirstReadingAnimatesFromZero(reading: real, startTime: real, frameTimes: seq<real>)
    ensures var shown := Animate(InitialAnimatedValue(None), reading, startTime, frameTimes);
            && (frameTimes != [] && frameTimes[0] == startTime ==> shown[0] == 0.0)
            && (forall i :: 0 <= i < |shown| && startTime <= frameTimes[i] ==>
                  (0.0 <= reading ==> 0.0 <= shown[i] <= reading) && (reading <= 0.0 ==> reading <= shown[i] <= 0.0))
            && (|shown| < |frameTimes| ==> shown[|shown| - 1] == reading)
  {
    AnimateEndsAtEnd(0.0, reading, startTime, frameTimes);
  }

  /** For a rising animation, a later moment never shows a smaller value. */
  lemma InterpolateMonotone(start: real, end: real, e1: real, e2: real)
    requires start <= end && e1 <= e2
    ensures Interpolate(start, end, e1) <= Interpolate(start, end, e2)
  {
    ProgressMonotone(e1, e2);
    LerpMonotone(start, end, Progress(e1), Progress(e2));
  }

  lemma LerpMonotone(start: real, end: real, p1: real, p2: real)
    requires start <= end && p1 <= p2
    ensures start + (end - start) * p1 <= start + (end - start) * p2
  {
    ScaledMonotoneNonneg(p1, p2, end - start);
  }

  lemma ScaledMonotoneNonneg(a: real, b: real, c: real)
    requires a <= b && 0.0 <= c
    ensures c * a <= c * b
  {
  }

  /**
   * The bar width in percent: the displayed value's position in the range
   * times 100, or 0 when a bound is missing. `None` stands for the
   * non-finite width of an empty range.
   */
  function BarWidth(animatedValue: real, minValue: Option<real>, maxValue: Option<real>): (w: Option<real>)
    ensures minValue.None? || maxValue.None? ==> w == Some(0.0)
    ensures minValue.Some? && maxValue.Some? ==> (w.None? <==> minValue.value == maxValue.value)
    ensures minValue.Some? && maxValue.Some? && minValue.value < maxValue.value ==>
              w == Some(Position(animatedValue, minValue.value, maxValue.value) * 100.0)
  {
    if minValue.Some? && maxValue.Some? then
      if minValue.value == maxValue.value then None
      else Some((animatedValue - minValue.value) / (maxValue.value - minValue.value) * 100.0)
    else Some(0.0)
  }

  /** The bar is empty at the lower bound, full at the upper, and within 0..100 between them. */
  lemma BarWidthEnds(animatedValue: real, minValue: real, maxValue: real)
    requires minValue < maxValue
    ensures BarWidth(minValue, Some(minValue), Some(maxValue)) == Some(0.0)
    ensures BarWidth(maxValue, Some(minValue), Some(maxValue)) == Some(100.0)
    ensures minValue <= animatedValue <= maxValue ==>
              0.0 <= BarWidth(animatedValue, Some(minValue), Some(maxValue)).value <= 100.0
  {
    PositionBelow(maxValue, minValue, maxValue, 1.0);
    if minValue <= animatedValue <= maxValue {
      PositionBelow(animatedValue, minValue, maxValue, 1.0);
      PositionBelow(animatedValue, minValue, maxValue, 0.0);
    }
  }

  /** A larger displayed value never gives a narrower bar. */
  lemma BarWidthMonotone(v1: real, v2: real, minValue: real, maxValue: real)
    requires minValue < maxValue && v1 <= v2
    ensures BarWidth(v1, Some(minValue), Some(maxValue)).value <= BarWidth(v2, Some(minValue), Some(maxValue)).value
  {
    var range := maxValue - minValue;
    var f1, f2 := Position(v1, minValue, maxValue), Position(v2, minValue, maxValue);
    assert f1 * range == v1 - minValue;
    assert f2 * range == v2 - minValue;
    if f1 > f2 {
      ScaledStrict(f2, f1, range);
    }
  }
}
