/**
 What one sample, a reset, and the start and end of a calibration do to the
 estimator, and what follows for whole sequences of samples.
 */
module EstimatorLemmas {
  import opened Numerics
  import opened Estimator

  // ---------------------------------------------------------------------
  // The low-pass filter
  // ---------------------------------------------------------------------

  /**
   Every sample moves the filter, also while calibrating and also when the
   sample is later dropped by the warm-up sentinel or the dt gate; only the
   sample that completes a calibration leaves it at zero, because finishing
   a calibration resets the estimator.
   */
  lemma FilterFollowsEverySample(s: EstimatorState, raw: Vec3, timestamp: int, sqrt: real -> real)
    ensures Step(s, raw, timestamp, sqrt).next.filtered ==
      if CompletesCalibration(s) then Zero else FilterStep(s.filtered, Sub(raw, s.offset))
  {
  }

  // ---------------------------------------------------------------------
  // Calibration
  // ---------------------------------------------------------------------

  /** While collecting, a sample only joins the batch (uncorrected) and moves the filter. */
  lemma CollectingOnlyAppendsSample(s: EstimatorState, raw: Vec3, timestamp: int, sqrt: real -> real)
    requires s.isCalibrating && !CompletesCalibration(s)
    ensures Step(s, raw, timestamp, sqrt) ==
      Outcome(s.(filtered := FilterStep(s.filtered, Sub(raw, s.offset)),
                 calibrationSamples := s.calibrationSamples + [raw]), None)
  {
  }

  /**
   The sample that brings the batch to the target size finishes the
   calibration: collecting stops, each offset becomes the mean of that axis
   over the batch (this sample included), motion state is reset, the batch
   is kept and no speed is reported. In a consistent state the batch then
   holds exactly CalibrationTarget samples.
   */
  lemma LastSampleFinishesCalibration(s: EstimatorState, raw: Vec3, timestamp: int, sqrt: real -> real)
    requires CompletesCalibration(s)
    ensures var o := Step(s, raw, timestamp, sqrt);
      var batch := s.calibrationSamples + [raw];
      && o.speed == None
      && !o.next.isCalibrating
      && o.next.calibrationSamples == batch
      && o.next.offset == Vec3(Mean(Column(batch, X)), Mean(Column(batch, Y)), Mean(Column(batch, Z)))
      && o.next.velocity == Zero && o.next.lastTimestamp == 0 && o.next.filtered == Zero
      && (Consistent(s) ==> |o.next.calibrationSamples| == CalibrationTarget)
  {
  }

  /**
   Finishing a calibration stops collecting, sets each offset to the mean of
   its axis over the batch (or keeps the offsets when the batch is empty),
   keeps the batch, and resets velocity, timing baseline and filter.
   */
  lemma CompleteCalibrationAveragesBatch(s: EstimatorState)
    ensures var r := CompleteCalibration(s);
      && !r.isCalibrating
      && r.calibrationSamples == s.calibrationSamples
      && (s.calibrationSamples == [] ==> r.offset == s.offset)
      && (s.calibrationSamples != [] ==>
            forall axis :: Component(r.offset, axis) == Mean(Column(s.calibrationSamples, axis)))
      && r.velocity == Zero && r.lastTimestamp == 0 && r.filtered == Zero
  {
    var r := CompleteCalibration(s);
    if s.calibrationSamples != [] {
      forall axis ensures Component(r.offset, axis) == Mean(Column(s.calibrationSamples, axis)) {
        match axis
        case X =>
        case Y =>
        case Z =>
      }
    }
  }

  /** A calibrated offset lies within the range of the samples on its axis. */
  lemma CalibratedOffsetWithinSamples(samples: seq<Vec3>, previous: Vec3, axis: Axis, lo: real, hi: real)
    requires samples != []
    requires forall i :: 0 <= i < |samples| ==> lo <= Component(samples[i], axis) <= hi
    ensures lo <= Component(CalibratedOffset(samples, previous), axis) <= hi
  {
    var col := Column(samples, axis);
    assert forall i :: 0 <= i < |col| ==> col[i] == Component(samples[i], axis);
    MeanWithinBounds(col, lo, hi);
    match axis
    case X =>
    case Y =>
    case Z =>
  }

  /**
   Feeding a running calibration exactly the samples it still lacks ends it:
   the batch is the old batch followed by the new raw triples, the offsets
   are that batch's per-axis means, motion state is reset, and no speed is
   reported on the way.
   */
  lemma {:induction false} CollectBatch(s: EstimatorState, inputs: seq<Reading>, sqrt: real -> real)
    requires s.isCalibrating
    requires inputs != [] && |s.calibrationSamples| + |inputs| == CalibrationTarget
    ensures var batch := s.calibrationSamples + Raws(inputs);
      var t := Run(s, inputs, sqrt);
      && t.final.calibrationSamples == batch
      && t.final.offset == CalibratedOffset(batch, s.offset)
      && !t.final.isCalibrating
      && t.final.velocity == Zero && t.final.lastTimestamp == 0 && t.final.filtered == Zero
      && forall i :: 0 <= i < |t.speeds| ==> t.speeds[i] == None
    decreases |inputs|
  {
    var o := Step(s, inputs[0].raw, inputs[0].timestamp, sqrt);
    var rest := Run(o.next, inputs[1..], sqrt);
    assert Run(s, inputs, sqrt) == Trace(rest.final, [o.speed] + rest.speeds);
    assert Raws(inputs) == [inputs[0].raw] + Raws(inputs[1..]);
    if |inputs| > 1 {
      assert o.next.calibrationSamples == s.calibrationSamples + [inputs[0].raw];
      CollectBatch(o.next, inputs[1..], sqrt);
      assert o.next.calibrationSamples + Raws(inputs[1..]) == s.calibrationSamples + Raws(inputs);
    }
  }

  /**
   Starting a calibration and feeding it CalibrationTarget samples ends it
   with each offset the mean of that axis over exactly those samples, the
   estimator reset and no speed reported on the way.
   */
  lemma CalibrationAveragesReadings(s: EstimatorState, inputs: seq<Reading>, sqrt: real -> real)
    requires |inputs| == CalibrationTarget
    ensures var t := Run(BeginCalibration(s), inputs, sqrt);
      var raws := Raws(inputs);
      && t.final.calibrationSamples == raws
      && t.final.offset == Vec3(Mean(Column(raws, X)), Mean(Column(raws, Y)), Mean(Column(raws, Z)))
      && !t.final.isCalibrating
      && t.final.velocity == Zero && t.final.lastTimestamp == 0 && t.final.filtered == Zero
      && forall i :: 0 <= i < |t.speeds| ==> t.speeds[i] == None
  {
    CollectBatch(BeginCalibration(s), inputs, sqrt);
    assert [] + Raws(inputs) == Raws(inputs);
  }

  /**
   In particular CalibrationTarget identical samples c give offsets exactly c.
   */
  lemma CalibrationOfIdenticalSamples(s: EstimatorState, c: Vec3, inputs: seq<Reading>, sqrt: real -> real)
    requires |inputs| == CalibrationTarget
    requires forall i :: 0 <= i < |inputs| ==> inputs[i].raw == c
    ensures var t := Run(BeginCalibration(s), inputs, sqrt);
      && !t.final.isCalibrating
      && t.final.offset == c
      && t.final.velocity == Zero && t.final.lastTimestamp == 0 && t.final.filtered == Zero
      && forall i :: 0 <= i < |t.speeds| ==> t.speeds[i] == None
  {
    CalibrationAveragesReadings(s, inputs, sqrt);
    var raws := Raws(inputs);
    forall axis ensures Mean(Column(raws, axis)) == Component(c, axis) {
      MeanOfConstant(Column(raws, axis), Component(c, axis));
    }
    assert Mean(Column(raws, X)) == c.x && Mean(Column(raws, Y)) == c.y && Mean(Column(raws, Z)) == c.z;
  }

  // ---------------------------------------------------------------------
  // Warm-up sentinel and dt gate
  // ---------------------------------------------------------------------

  /** The first sample after a reset only records its timestamp (and moves the filter). */
  lemma WarmUpOnlyRecordsTimestamp(s: EstimatorState, raw: Vec3, timestamp: int, sqrt: real -> real)
    requires !s.isCalibrating && s.lastTimestamp == 0
    ensures Step(s, raw, timestamp, sqrt) ==
      Outcome(s.(filtered := FilterStep(s.filtered, Sub(raw, s.offset)), lastTimestamp := timestamp), None)
  {
  }

  /**
   A sample whose delta to the baseline is not in (0, 500 ms] is dropped:
   velocity is unchanged and no speed is reported, but the baseline still
   moves to the new timestamp (and the filter still moves).
   */
  lemma DtGateDropsSample(s: EstimatorState, raw: Vec3, timestamp: int, sqrt: real -> real)
    requires !s.isCalibrating && s.lastTimestamp != 0
    requires timestamp - s.lastTimestamp <= 0 || timestamp - s.lastTimestamp > MaxDeltaNanos
    ensures Step(s, raw, timestamp, sqrt) ==
      Outcome(s.(filtered := FilterStep(s.filtered, Sub(raw, s.offset)), lastTimestamp := timestamp), None)
  {
    DtGateInNanoseconds(timestamp - s.lastTimestamp);
  }

  // ---------------------------------------------------------------------
  // Zero-velocity update and integration
  // ---------------------------------------------------------------------

  /** An accepted sample below the threshold applies the zero-velocity update and reports its speed. */
  lemma StationarySampleDecays(s: EstimatorState, raw: Vec3, timestamp: int, sqrt: real -> real)
    requires Accepted(s, timestamp)
    requires IsStationary(FilterStep(s.filtered, Sub(raw, s.offset)))
    ensures var o := Step(s, raw, timestamp, sqrt);
      && o.next == s.(filtered := FilterStep(s.filtered, Sub(raw, s.offset)), lastTimestamp := timestamp,
                      velocity := Zupt(s.velocity))
      && o.speed == Some(DisplaySpeed(sqrt(SquaredNorm(Zupt(s.velocity)))))
  {
    DtGateInNanoseconds(timestamp - s.lastTimestamp);
  }

  /**
   An accepted sample whose filtered acceleration is below the threshold
   decays the velocity: no component grows or changes sign, each ends at zero
   or at least SnapEpsilon from it, and zero velocity stays zero.
   */
  lemma ZuptNeverIncreasesVelocity(s: EstimatorState, raw: Vec3, timestamp: int, sqrt: real -> real)
    requires Accepted(s, timestamp)
    requires IsStationary(FilterStep(s.filtered, Sub(raw, s.offset)))
    ensures var v := Step(s, raw, timestamp, sqrt).next.velocity;
      && (forall axis :: Abs(Component(v, axis)) <= Abs(Component(s.velocity, axis)))
      && (forall axis :: Component(v, axis) == 0.0 || SnapEpsilon <= Abs(Component(v, axis)))
      && (s.velocity == Zero ==> v == Zero)
  {
    StationarySampleDecays(s, raw, timestamp, sqrt);
    var v := Step(s, raw, timestamp, sqrt).next.velocity;
    forall axis
      ensures Abs(Component(v, axis)) <= Abs(Component(s.velocity, axis))
      ensures Component(v, axis) == 0.0 || SnapEpsilon <= Abs(Component(v, axis))
    {
      match axis
      case X =>
      case Y =>
      case Z =>
    }
  }

  /** An accepted sample above the threshold adds filtered acceleration times dt to each component. */
  lemma MovingSampleIntegrates(s: EstimatorState, raw: Vec3, timestamp: int, sqrt: real -> real)
    requires Accepted(s, timestamp)
    requires !IsStationary(FilterStep(s.filtered, Sub(raw, s.offset)))
    ensures var f := FilterStep(s.filtered, Sub(raw, s.offset));
      var dt := (timestamp - s.lastTimestamp) as real / NanosPerSecond;
      var o := Step(s, raw, timestamp, sqrt);
      && 0.0 < dt <= MaxDt
      && o.next == s.(filtered := f, lastTimestamp := timestamp, velocity := Integrate(s.velocity, f, dt))
      && o.speed == Some(DisplaySpeed(sqrt(SquaredNorm(o.next.velocity))))
  {
    DtGateInNanoseconds(timestamp - s.lastTimestamp);
  }

  /** Whatever the inputs and however large the velocity, a reported speed lies in [0, 200] km/h. */
  lemma ReportedSpeedIsClamped(s: EstimatorState, raw: Vec3, timestamp: int, sqrt: real -> real)
    ensures var o := Step(s, raw, timestamp, sqrt);
      o.speed.Some? ==> 0.0 <= o.speed.value <= MaxDisplaySpeed
  {
  }

  /** One sample equal to the bias leaves a resting estimator at rest. */
  lemma RestingSampleKeepsRest(s: EstimatorState, raw: Vec3, timestamp: int, sqrt: real -> real)
    requires !s.isCalibrating && s.velocity == Zero && s.filtered == Zero && raw == s.offset
    requires sqrt(0.0) == 0.0
    ensures var o := Step(s, raw, timestamp, sqrt);
      && o.next.velocity == Zero && o.next.filtered == Zero
      && o.next.offset == s.offset && !o.next.isCalibrating
      && o.next.calibrationSamples == s.calibrationSamples
      && (o.speed == None || o.speed == Some(0.0))
  {
    var f := FilterStep(s.filtered, Sub(raw, s.offset));
    assert f == Zero;
    if s.lastTimestamp == 0 {
      WarmUpOnlyRecordsTimestamp(s, raw, timestamp, sqrt);
    } else if !Accepted(s, timestamp) {
      DtGateDropsSample(s, raw, timestamp, sqrt);
    } else {
      AcceptedRestingSample(s, raw, timestamp, sqrt);
    }
  }

  lemma AcceptedRestingSample(s: EstimatorState, raw: Vec3, timestamp: int, sqrt: real -> real)
    requires Accepted(s, timestamp)
    requires s.velocity == Zero && s.filtered == Zero && raw == s.offset
    requires sqrt(0.0) == 0.0
    ensures Step(s, raw, timestamp, sqrt) == Outcome(s.(lastTimestamp := timestamp), Some(0.0))
  {
    FilterAtRest(s.offset);
    ZeroIsStationary();
    StationarySampleDecays(s, raw, timestamp, sqrt);
    ZeroDisplaysAsZero();
  }

  /** A sample equal to the bias keeps a zero filter at zero. */
  lemma FilterAtRest(offset: Vec3)
    ensures FilterStep(Zero, Sub(offset, offset)) == Zero
  {
  }

  /** Zero filtered acceleration counts as stationary. */
  lemma ZeroIsStationary()
    ensures SquaredNorm(Zero) == 0.0 && IsStationary(Zero)
  {
  }

  /** A velocity at rest displays as 0 km/h. */
  lemma ZeroDisplaysAsZero()
    ensures DisplaySpeed(0.0) == 0.0
  {
  }

  /**
   A device at rest stays at rest: with velocity and filter at zero and
   every sample equal to the calibrated bias, velocity and filter stay zero,
   calibration is untouched, and every reported speed is 0 km/h (given that
   the square root of 0 is 0).
   */
  lemma {:induction false} StationaryStaysAtRest(s: EstimatorState, inputs: seq<Reading>, sqrt: real -> real)
    requires !s.isCalibrating && s.velocity == Zero && s.filtered == Zero
    requires forall i :: 0 <= i < |inputs| ==> inputs[i].raw == s.offset
    requires sqrt(0.0) == 0.0
    ensures var t := Run(s, inputs, sqrt);
      && t.final.velocity == Zero && t.final.filtered == Zero
      && t.final.offset == s.offset && !t.final.isCalibrating
      && t.final.calibrationSamples == s.calibrationSamples
      && forall i :: 0 <= i < |t.speeds| ==> t.speeds[i] == None || t.speeds[i] == Some(0.0)
    decreases |inputs|
  {
    if inputs != [] {
      var o := Step(s, inputs[0].raw, inputs[0].timestamp, sqrt);
      RestingSampleKeepsRest(s, inputs[0].raw, inputs[0].timestamp, sqrt);
      StationaryStaysAtRest(o.next, inputs[1..], sqrt);
      var rest := Run(o.next, inputs[1..], sqrt);
      assert Run(s, inputs, sqrt) == Trace(rest.final, [o.speed] + rest.speeds);
    }
  }

  /**
   A worked case from a fresh activity: a constant 1 m/s^2 on the x axis,
   first at 1 s (warm-up, no speed) and again 100 ms later. The warm-up
   sample already moved the filter to 0.2, so the second sample filters to
   0.36, is above the threshold, and integrates to 0.036 m/s, shown as
   0.1296 km/h.
   */
  lemma WarmUpThenFirstSpeed(sqrt: real -> real)
    requires sqrt(0.036 * 0.036) == 0.036
    ensures var inputs := [Reading(Vec3(1.0, 0.0, 0.0), 1000000000), Reading(Vec3(1.0, 0.0, 0.0), 1100000000)];
      var t := Run(Initial, inputs, sqrt);
      && t.speeds == [None, Some(0.1296)]
      && t.final.filtered == Vec3(0.36, 0.0, 0.0)
      && t.final.velocity == Vec3(0.036, 0.0, 0.0)
      && t.final.lastTimestamp == 1100000000
  {
    var raw := Vec3(1.0, 0.0, 0.0);
    var o1 := Step(Initial, raw, 1000000000, sqrt);
    ExampleWarmUp(sqrt);
    var o2 := Step(o1.next, raw, 1100000000, sqrt);
    ExampleFirstSpeed(sqrt);
    var tail := [Reading(raw, 1100000000)];
    assert tail[1..] == [];
    assert Run(o1.next, tail, sqrt) == Trace(o2.next, [o2.speed]);
    var inputs := [Reading(raw, 1000000000), Reading(raw, 1100000000)];
    assert inputs[1..] == tail;
    assert Run(Initial, inputs, sqrt) == Trace(o2.next, [o1.speed] + [o2.speed]);
  }

  lemma ExampleWarmUp(sqrt: real -> real)
    ensures Step(Initial, Vec3(1.0, 0.0, 0.0), 1000000000, sqrt) ==
      Outcome(Initial.(filtered := Vec3(0.2, 0.0, 0.0), lastTimestamp := 1000000000), None)
  {
    WarmUpOnlyRecordsTimestamp(Initial, Vec3(1.0, 0.0, 0.0), 1000000000, sqrt);
  }

  lemma ExampleFirstSpeed(sqrt: real -> real)
    requires sqrt(0.036 * 0.036) == 0.036
    ensures var first := Initial.(filtered := Vec3(0.2, 0.0, 0.0), lastTimestamp := 1000000000);
      Step(first, Vec3(1.0, 0.0, 0.0), 1100000000, sqrt) ==
      Outcome(first.(filtered := Vec3(0.36, 0.0, 0.0), lastTimestamp := 1100000000,
                     velocity := Vec3(0.036, 0.0, 0.0)), Some(0.1296))
  {
    var first := Initial.(filtered := Vec3(0.2, 0.0, 0.0), lastTimestamp := 1000000000);
    ExampleFilterValue();
    MovingSampleIntegrates(first, Vec3(1.0, 0.0, 0.0), 1100000000, sqrt);
    ExampleVelocityValue();
    ExampleDisplayValue(sqrt);
  }

  lemma ExampleFilterValue()
    ensures FilterStep(Vec3(0.2, 0.0, 0.0), Sub(Vec3(1.0, 0.0, 0.0), Zero)) == Vec3(0.36, 0.0, 0.0)
    ensures !IsStationary(Vec3(0.36, 0.0, 0.0))
  {
  }

  lemma ExampleVelocityValue()
    ensures var dt := (1100000000 - 1000000000) as real / NanosPerSecond;
      Vec3(0.0 + 0.36 * dt, 0.0 + 0.0 * dt, 0.0 + 0.0 * dt) == Vec3(0.036, 0.0, 0.0)
  {
  }

  lemma ExampleDisplayValue(sqrt: real -> real)
    requires sqrt(0.036 * 0.036) == 0.036
    ensures DisplaySpeed(sqrt(SquaredNorm(Vec3(0.036, 0.0, 0.0)))) == 0.1296
  {
    assert SquaredNorm(Vec3(0.036, 0.0, 0.0)) == 0.036 * 0.036;
  }

  // ---------------------------------------------------------------------
  // Constant acceleration from rest
  // ---------------------------------------------------------------------

  /**
   Feeding a sequence in two parts is feeding it whole: the second part
   starts from where the first left off, and the speeds are concatenated.
   */
  lemma {:induction false} RunSplits(s: EstimatorState, xs: seq<Reading>, ys: seq<Reading>, sqrt: real -> real)
    ensures var first := Run(s, xs, sqrt);
      var second := Run(first.final, ys, sqrt);
      Run(s, xs + ys, sqrt) == Trace(second.final, first.speeds + second.speeds)
    decreases |xs|
  {
    if xs == [] {
      assert xs + ys == ys;
    } else {
      var o := Step(s, xs[0].raw, xs[0].timestamp, sqrt);
      assert (xs + ys)[0] == xs[0] && (xs + ys)[1..] == xs[1..] + ys;
      RunSplits(o.next, xs[1..], ys, sqrt);
      var first := Run(o.next, xs[1..], sqrt);
      var second := Run(first.final, ys, sqrt);
      assert [o.speed] + (first.speeds + second.speeds) == ([o.speed] + first.speeds) + second.speeds;
    }
  }

  /**
   The shape of the state while a constant bias-corrected acceleration a is
   applied from rest, outside calibration: the filter is p·a and the
   velocity q·a, for 0 <= p <= 1 and q >= 0, and the velocity has left zero
   only once the filter is above the stationarity threshold.
   */
  predicate AlongConstantAcceleration(s: EstimatorState, a: Vec3, p: real, q: real)
  {
    && !s.isCalibrating
    && 0.0 <= p <= 1.0 && s.filtered == Scale(p, a)
    && 0.0 <= q && s.velocity == Scale(q, a)
    && (q > 0.0 ==> !IsStationary(s.filtered))
  }

  /** The filter moves p·a to (Alpha + (1 - Alpha)·p)·a when the input is a. */
  lemma FilterOfScaled(p: real, a: Vec3)
    ensures FilterStep(Scale(p, a), a) == Scale(Alpha + (1.0 - Alpha) * p, a)
  {
  }

  /** A larger multiple of a is no more stationary than a smaller one. */
  lemma StationaryBelow(a: Vec3, p: real, p': real)
    requires 0.0 <= p <= p'
    ensures IsStationary(Scale(p', a)) ==> IsStationary(Scale(p, a))
  {
    ScaledNormMonotone(a, p, p');
  }

  /** Integrating p·a over dt from q·a gives (q + p·dt)·a. */
  lemma IntegrateScaled(q: real, p: real, dt: real, a: Vec3)
    ensures Integrate(Scale(q, a), Scale(p, a), dt) == Scale(q + p * dt, a)
  {
  }

  /** The time step over which a sample is integrated: its dt when accepted, none otherwise. */
  function StepTime(s: EstimatorState, timestamp: int): (t: real)
    ensures 0.0 <= t && (0.0 < t <==> Accepted(s, timestamp))
  {
    if Accepted(s, timestamp) then Seconds(timestamp - s.lastTimestamp) else 0.0
  }

  /** The total time over which the samples of a sequence are integrated. */
  function IntegratedTime(s: EstimatorState, inputs: seq<Reading>, sqrt: real -> real): (t: real)
    ensures 0.0 <= t
    decreases |inputs|
  {
    if inputs == [] then 0.0
    else
      StepTime(s, inputs[0].timestamp)
      + IntegratedTime(Step(s, inputs[0].raw, inputs[0].timestamp, sqrt).next, inputs[1..], sqrt)
  }

  /**
   One sample of the constant acceleration keeps the shape, moves the
   filter factor up towards 1 and never lowers the velocity factor; since the
   filter factor is at most 1, the velocity factor grows by at most the
   sample's integrated time step.
   */
  lemma ConstantAccelerationStep(s: EstimatorState, a: Vec3, p: real, q: real, raw: Vec3, timestamp: int, sqrt: real -> real)
    returns (p': real, q': real)
    requires AlongConstantAcceleration(s, a, p, q) && Sub(raw, s.offset) == a
    ensures var next := Step(s, raw, timestamp, sqrt).next;
      AlongConstantAcceleration(next, a, p', q') && next.offset == s.offset
    ensures p <= p' && q <= q' <= q + StepTime(s, timestamp)
  {
    p' := Alpha + (1.0 - Alpha) * p;
    FilterOfScaled(p, a);
    StationaryBelow(a, p, p');
    var f := FilterStep(s.filtered, Sub(raw, s.offset));
    assert f == Scale(p', a);
    if s.lastTimestamp == 0 {
      WarmUpOnlyRecordsTimestamp(s, raw, timestamp, sqrt);
      q' := q;
    } else if !Accepted(s, timestamp) {
      DtGateDropsSample(s, raw, timestamp, sqrt);
      q' := q;
    } else if IsStationary(f) {
      StationarySampleDecays(s, raw, timestamp, sqrt);
      assert s.velocity == Zero;
      assert q == 0.0;
      q' := 0.0;
      assert Scale(q', a) == Zero;
    } else {
      q' := IntegratingSampleScaled(s, a, q, p', raw, timestamp, sqrt);
      GainWithinStepTime(s, timestamp, q, p', q');
    }
  }

  /**
   An integrating sample of the constant acceleration, with the filter at
   p'·a for p' <= 1, raises the velocity factor by p'·dt, so by at most dt.
   */
  lemma IntegratingSampleScaled(s: EstimatorState, a: Vec3, q: real, p': real, raw: Vec3, timestamp: int, sqrt: real -> real)
    returns (q': real)
    requires Accepted(s, timestamp) && 0.0 <= p' <= 1.0
    requires FilterStep(s.filtered, Sub(raw, s.offset)) == Scale(p', a) && !IsStationary(Scale(p', a))
    requires s.velocity == Scale(q, a)
    ensures Step(s, raw, timestamp, sqrt).next ==
      s.(filtered := Scale(p', a), lastTimestamp := timestamp, velocity := Scale(q', a))
    ensures q' == q + p' * Seconds(timestamp - s.lastTimestamp)
  {
    MovingSampleIntegrates(s, raw, timestamp, sqrt);
    var dt := Seconds(timestamp - s.lastTimestamp);
    q' := q + p' * dt;
    IntegrateScaled(q, p', dt, a);
  }

  /** Integrating a fraction p' <= 1 of the acceleration over an accepted step adds at most the step's time. */
  lemma GainWithinStepTime(s: EstimatorState, timestamp: int, q: real, p': real, q': real)
    requires Accepted(s, timestamp) && 0.0 <= p' <= 1.0
    requires q' == q + p' * Seconds(timestamp - s.lastTimestamp)
    ensures q <= q' <= q + StepTime(s, timestamp)
  {
    var dt := Seconds(timestamp - s.lastTimestamp);
    assert StepTime(s, timestamp) == dt && 0.0 < dt;
    ScaleMonotonic(dt, 0.0, p');
    ScaleMonotonic(dt, p', 1.0);
    assert p' * dt == dt * p';
  }

  /** Over a whole sequence of samples of the constant acceleration, the shape is kept and the velocity factor never drops. */
  lemma {:induction false} ConstantAccelerationRun(s: EstimatorState, a: Vec3, p: real, q: real, raw: Vec3,
                                                   inputs: seq<Reading>, sqrt: real -> real)
    returns (p': real, q': real)
    requires AlongConstantAcceleration(s, a, p, q) && Sub(raw, s.offset) == a
    requires forall i :: 0 <= i < |inputs| ==> inputs[i].raw == raw
    ensures var final := Run(s, inputs, sqrt).final;
      AlongConstantAcceleration(final, a, p', q') && final.offset == s.offset
    ensures q <= q' <= q + IntegratedTime(s, inputs, sqrt)
    decreases |inputs|
  {
    if inputs == [] {
      p', q' := p, q;
    } else {
      var o := Step(s, raw, inputs[0].timestamp, sqrt);
      var p1, q1 := ConstantAccelerationStep(s, a, p, q, raw, inputs[0].timestamp, sqrt);
      p', q' := ConstantAccelerationRun(o.next, a, p1, q1, raw, inputs[1..], sqrt);
      assert Run(s, inputs, sqrt).final == Run(o.next, inputs[1..], sqrt).final;
      assert IntegratedTime(s, inputs, sqrt) == StepTime(s, inputs[0].timestamp) + IntegratedTime(o.next, inputs[1..], sqrt);
    }
  }

  /** The state after a longer prefix continues from the state after a shorter one. */
  lemma RunPrefixes(s: EstimatorState, inputs: seq<Reading>, i: nat, j: nat, sqrt: real -> real)
    requires i <= j <= |inputs|
    ensures Run(s, inputs[..j], sqrt).final == Run(Run(s, inputs[..i], sqrt).final, inputs[i..j], sqrt).final
  {
    assert inputs[..j] == inputs[..i] + inputs[i..j];
    RunSplits(s, inputs[..i], inputs[i..j], sqrt);
  }

  /**
   Monotonic integration under constant acceleration: starting at rest
   outside calibration, when every sample carries the same raw triple the
   magnitude of the velocity never decreases from one sample to a later one.
   */
  lemma ConstantAccelerationNeverSlows(s: EstimatorState, raw: Vec3, inputs: seq<Reading>, i: nat, j: nat,
                                       sqrt: real -> real)
    requires !s.isCalibrating && s.velocity == Zero && s.filtered == Zero
    requires forall k :: 0 <= k < |inputs| ==> inputs[k].raw == raw
    requires i <= j <= |inputs|
    ensures SquaredNorm(Run(s, inputs[..i], sqrt).final.velocity) <= SquaredNorm(Run(s, inputs[..j], sqrt).final.velocity)
  {
    var a := Sub(raw, s.offset);
    assert Scale(0.0, a) == Zero;
    var pi, qi := ConstantAccelerationRun(s, a, 0.0, 0.0, raw, inputs[..i], sqrt);
    var si := Run(s, inputs[..i], sqrt).final;
    var pj, qj := ConstantAccelerationRun(si, a, pi, qi, raw, inputs[i..j], sqrt);
    RunPrefixes(s, inputs, i, j, sqrt);
    ScaledNormMonotone(a, qi, qj);
  }

  /**
   The velocity never runs ahead of exact integration: starting at rest
   outside calibration, when every sample carries the same raw triple, the
   bias-corrected acceleration being a, the velocity is no larger than T·a,
   the exact integral of a over the total time T of the integrated samples
   (compared on squared magnitudes, so the speed is at most |a|·T·3.6 km/h).
   */
  lemma ConstantAccelerationBounded(s: EstimatorState, raw: Vec3, inputs: seq<Reading>, sqrt: real -> real)
    requires !s.isCalibrating && s.velocity == Zero && s.filtered == Zero
    requires forall k :: 0 <= k < |inputs| ==> inputs[k].raw == raw
    ensures 0.0 <= IntegratedTime(s, inputs, sqrt)
    ensures SquaredNorm(Run(s, inputs, sqrt).final.velocity)
            <= SquaredNorm(Scale(IntegratedTime(s, inputs, sqrt), Sub(raw, s.offset)))
  {
    var a := Sub(raw, s.offset);
    assert Scale(0.0, a) == Zero;
    var p, q := ConstantAccelerationRun(s, a, 0.0, 0.0, raw, inputs, sqrt);
    var final := Run(s, inputs, sqrt).final;
    var t := IntegratedTime(s, inputs, sqrt);
    assert final.velocity == Scale(q, a);
    ScaledNormMonotone(a, q, t);
  }

  // ---------------------------------------------------------------------
  // Reset and start of calibration
  // ---------------------------------------------------------------------

  /**
   A reset estimator is a newly created one, except that it keeps the
   offsets and any calibration in progress; a second reset changes nothing.
   */
  lemma ResetForgetsMotion(s: EstimatorState)
    ensures Reset(s) == Initial.(offset := s.offset, isCalibrating := s.isCalibrating,
                                 calibrationSamples := s.calibrationSamples)
    ensures Reset(Reset(s)) == Reset(s)
  {
  }

  /** Starting a calibration empties the batch and leaves motion state and offsets alone. */
  lemma BeginCalibrationKeepsMotion(s: EstimatorState)
    ensures var r := BeginCalibration(s);
      && r.isCalibrating && r.calibrationSamples == []
      && r.velocity == s.velocity && r.lastTimestamp == s.lastTimestamp
      && r.offset == s.offset && r.filtered == s.filtered
  {
  }
}
