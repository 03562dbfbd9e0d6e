/**
 The dead-reckoning speed estimator of the app's main activity: bias
 calibration over a batch of raw samples, the per-axis low-pass filter, the
 warm-up timestamp sentinel, the dt gate, the zero-velocity update or Euler
 integration, and the clamped display speed in km/h.

 The estimator's fields are gathered in the value EstimatorState, and its
 four operations are given as functions on that value (Step, Reset,
 BeginCalibration, CompleteCalibration). The class SpeedEstimator holds the
 same fields under the app's own names and updates them in place, step by
 step; each of its methods is proved to leave the fields in exactly the
 state the corresponding function describes.
 */
module Estimator {
  import opened Numerics

  datatype Option<T> = None | Some(value: T)

  /** Number of raw samples a calibration collects before it completes. */
  const CalibrationTarget: nat := 100
  const NanosPerSecond: real := 1000000000.0
  /** Largest time step, in seconds, over which a sample is integrated. */
  const MaxDt: real := 0.5
  /** MaxDt in nanoseconds. */
  const MaxDeltaNanos: int := 500000000
  const KmhPerMs: real := 3.6
  const MaxDisplaySpeed: real := 200.0

  /** The estimator's fields, as one value. */
  datatype EstimatorState = EstimatorState(
    velocity: Vec3,
    lastTimestamp: int,          // 0 means no timing baseline yet
    offset: Vec3,                // per-axis bias subtracted from each sample
    isCalibrating: bool,
    calibrationSamples: seq<Vec3>,
    filtered: Vec3)              // low-pass filter output

  /** The state of a newly created activity. */
  const Initial: EstimatorState := EstimatorState(Zero, 0, Zero, false, [], Zero)

  /** While a calibration runs, its batch has not yet reached the target size. */
  predicate Consistent(s: EstimatorState)
  {
    s.isCalibrating ==> |s.calibrationSamples| < CalibrationTarget
  }

  /** A timestamp difference in nanoseconds, as seconds. */
  function Seconds(deltaNanos: int): real
  {
    deltaNanos as real / NanosPerSecond
  }

  /** The dt gate: a non-positive step or one above MaxDt is not integrated. */
  predicate DtRejected(dt: real)
  {
    dt <= 0.0 || dt > MaxDt
  }

  /** The seconds-valued gate is the same as a gate on the integer nanosecond delta. */
  lemma DtGateInNanoseconds(deltaNanos: int)
    ensures DtRejected(Seconds(deltaNanos)) <==> (deltaNanos <= 0 || deltaNanos > MaxDeltaNanos)
  {
  }

  /**
   A stationary device decays its velocity, so that no component grows; a
   moving one changes its velocity by exactly dt times the filtered
   acceleration.
   */
  function VelocityStep(velocity: Vec3, filtered: Vec3, dt: real): (r: Vec3)
    ensures IsStationary(filtered) ==>
      Abs(r.x) <= Abs(velocity.x) && Abs(r.y) <= Abs(velocity.y) && Abs(r.z) <= Abs(velocity.z)
    ensures !IsStationary(filtered) ==> Sub(r, velocity) == Scale(dt, filtered)
  {
    if IsStationary(filtered) then Zupt(velocity) else Integrate(velocity, filtered, dt)
  }

  /** A speed in m/s converted to km/h and clamped into [0, MaxDisplaySpeed]. */
  function DisplaySpeed(speedMs: real): (r: real)
    ensures 0.0 <= r <= MaxDisplaySpeed
    ensures 0.0 <= speedMs * KmhPerMs <= MaxDisplaySpeed ==> r == speedMs * KmhPerMs
  {
    CoerceIn(speedMs * KmhPerMs, 0.0, MaxDisplaySpeed)
  }

  /**
   Reset: velocity, timing baseline and filter back to zero; offsets and any
   calibration in progress are kept.
   */
  function Reset(s: EstimatorState): (r: EstimatorState)
    ensures r.velocity == Zero && r.lastTimestamp == 0 && r.filtered == Zero
    ensures r.offset == s.offset && r.isCalibrating == s.isCalibrating
    ensures r.calibrationSamples == s.calibrationSamples
    ensures Consistent(s) ==> Consistent(r)
  {
    s.(velocity := Zero, lastTimestamp := 0, filtered := Zero)
  }

  /** Start of a calibration: collecting into an empty batch, whatever ran before. */
  function BeginCalibration(s: EstimatorState): (r: EstimatorState)
    ensures r.isCalibrating && r.calibrationSamples == [] && Consistent(r)
  {
    s.(isCalibrating := true, calibrationSamples := [])
  }

  /** The offsets a finished calibration commits: the per-axis means, or the old offsets for an empty batch. */
  function CalibratedOffset(samples: seq<Vec3>, previous: Vec3): Vec3
  {
    if samples == [] then previous
    else Vec3(Mean(Column(samples, X)), Mean(Column(samples, Y)), Mean(Column(samples, Z)))
  }

  /**
   End of a calibration: stop collecting, commit the offsets, then reset.
   The result is a reset estimator that keeps the batch.
   */
  function CompleteCalibration(s: EstimatorState): (r: EstimatorState)
    ensures !r.isCalibrating && Consistent(r)
    ensures Reset(r) == r
    ensures r.calibrationSamples == s.calibrationSamples
  {
    Reset(s.(isCalibrating := false, offset := CalibratedOffset(s.calibrationSamples, s.offset)))
  }

  /** The next sample completes the running calibration. */
  predicate CompletesCalibration(s: EstimatorState)
  {
    s.isCalibrating && |s.calibrationSamples| + 1 >= CalibrationTarget
  }

  /** The next sample, stamped at timestamp, is integrated and yields a speed. */
  predicate Accepted(s: EstimatorState, timestamp: int)
  {
    !s.isCalibrating && s.lastTimestamp != 0 && 0 < timestamp - s.lastTimestamp <= MaxDeltaNanos
  }

  /** What one linear-acceleration sample does: the new state and the display speed, if any. */
  datatype Outcome = Outcome(next: EstimatorState, speed: Option<real>)

  /**
   One linear-acceleration sample. The filter is updated first, whatever
   happens next; a calibrating estimator then only collects the raw sample;
   otherwise the first sample after a reset only sets the timing baseline,
   and every later one moves the baseline and is integrated when dt passes
   the gate. `sqrt` is the host's square root, used for the speed norm.

   A speed is reported exactly when the sample is accepted. The batch never reaches
   the target size while collecting, and the offsets change only when the
   sample completes a calibration.
   */
  function Step(s: EstimatorState, raw: Vec3, timestamp: int, sqrt: real -> real): (o: Outcome)
    ensures o.speed.Some? <==> Accepted(s, timestamp)
    ensures Consistent(s) ==> Consistent(o.next)
    ensures o.next.offset == s.offset || CompletesCalibration(s)
  {
    DtGateInNanoseconds(timestamp - s.lastTimestamp);
    var filtered := FilterStep(s.filtered, Sub(raw, s.offset));
    if s.isCalibrating then
      var collected := s.(filtered := filtered, calibrationSamples := s.calibrationSamples + [raw]);
      if |collected.calibrationSamples| >= CalibrationTarget then Outcome(CompleteCalibration(collected), None)
      else Outcome(collected, None)
    else if s.lastTimestamp == 0 then
      Outcome(s.(filtered := filtered, lastTimestamp := timestamp), None)
    else
      var dt := Seconds(timestamp - s.lastTimestamp);
      var stamped := s.(filtered := filtered, lastTimestamp := timestamp);
      if DtRejected(dt) then Outcome(stamped, None)
      else
        var velocity := VelocityStep(s.velocity, filtered, dt);
        Outcome(stamped.(velocity := velocity), Some(DisplaySpeed(sqrt(SquaredNorm(velocity)))))
  }

  /** One timestamped linear-acceleration sample as the sensor delivers it. */
  datatype Reading = Reading(raw: Vec3, timestamp: int)

  /** The raw triples of a sequence of readings, in order. */
  function Raws(inputs: seq<Reading>): seq<Vec3>
  {
    seq(|inputs|, i requires 0 <= i < |inputs| => inputs[i].raw)
  }

  /** The final state and the display speeds, one per reading, of a sequence of samples. */
  datatype Trace = Trace(final: EstimatorState, speeds: seq<Option<real>>)

  function Run(s: EstimatorState, inputs: seq<Reading>, sqrt: real -> real): (t: Trace)
    ensures |t.speeds| == |inputs|
    decreases |inputs|
  {
    if inputs == [] then Trace(s, [])
    else
      var o := Step(s, inputs[0].raw, inputs[0].timestamp, sqrt);
      var rest := Run(o.next, inputs[1..], sqrt);
      Trace(rest.final, [o.speed] + rest.speeds)
  }

  /**
   The estimator as the activity holds it: one mutable field per quantity,
   under the app's names.
   */
  class SpeedEstimator {
    var velocityX: real
    var velocityY: real
    var velocityZ: real
    var lastTimestamp: int

    var offsetX: real
    var offsetY: real
    var offsetZ: real
    var isCalibrating: bool
    var calibrationSamples: seq<Vec3>

    var filteredAccelX: real
    var filteredAccelY: real
    var filteredAccelZ: real

    ghost function State(): EstimatorState
      reads this
    {
      EstimatorState(
        Vec3(velocityX, velocityY, velocityZ), lastTimestamp,
        Vec3(offsetX, offsetY, offsetZ), isCalibrating, calibrationSamples,
        Vec3(filteredAccelX, filteredAccelY, filteredAccelZ))
    }

    ghost predicate Valid()
      reads this
    {
      Consistent(State())
    }

    constructor ()
      ensures Valid() && State() == Initial
    {
      velocityX, velocityY, velocityZ := 0.0, 0.0, 0.0;
      lastTimestamp := 0;
      offsetX, offsetY, offsetZ := 0.0, 0.0, 0.0;
      isCalibrating := false;
      calibrationSamples := [];
      filteredAccelX, filteredAccelY, filteredAccelZ := 0.0, 0.0, 0.0;
    }

    /**
     Handles one linear-acceleration sample (x, y, z) stamped at timestamp
     nanoseconds, and returns the display speed when one is produced.
     */
    method HandleLinearAcceleration(x: real, y: real, z: real, timestamp: int, sqrt: real -> real)
      returns (speed: Option<real>)
      requires Valid()
      modifies this
      ensures Valid()
      ensures Outcome(State(), speed) == Step(old(State()), Vec3(x, y, z), timestamp, sqrt)
      ensures speed.Some? ==> 0.0 <= speed.value <= MaxDisplaySpeed
    {
      LowPass(x - offsetX, y - offsetY, z - offsetZ);

      if isCalibrating {
        calibrationSamples := calibrationSamples + [Vec3(x, y, z)];
        if |calibrationSamples| >= CalibrationTarget {
          FinishCalibration();
        }
        return None;
      }

      if lastTimestamp == 0 {
        lastTimestamp := timestamp;
        return None;
      }
      var dt := (timestamp - lastTimestamp) as real / NanosPerSecond;
      lastTimestamp := timestamp;

      if dt <= 0.0 || dt > MaxDt {
        return None;
      }

      UpdateVelocity(dt);
      var displaySpeed := CurrentDisplaySpeed(sqrt);
      speed := Some(displaySpeed);
    }

    /** The low-pass filter step on a bias-corrected sample. */
    method LowPass(rawX: real, rawY: real, rawZ: real)
      modifies this
      ensures State() == old(State()).(filtered := FilterStep(old(State()).filtered, Vec3(rawX, rawY, rawZ)))
    {
      filteredAccelX := Alpha * rawX + (1.0 - Alpha) * filteredAccelX;
      filteredAccelY := Alpha * rawY + (1.0 - Alpha) * filteredAccelY;
      filteredAccelZ := Alpha * rawZ + (1.0 - Alpha) * filteredAccelZ;
    }

    /** The zero-velocity update when the filtered acceleration is small, Euler integration otherwise. */
    method UpdateVelocity(dt: real)
      modifies this
      ensures State() == old(State()).(velocity := VelocityStep(old(State()).velocity, old(State()).filtered, dt))
    {
      var accelMagnitudeSquared :=
        filteredAccelX * filteredAccelX + filteredAccelY * filteredAccelY + filteredAccelZ * filteredAccelZ;
      assert accelMagnitudeSquared == SquaredNorm(State().filtered);

      if accelMagnitudeSquared < ZeroVelocityThreshold * ZeroVelocityThreshold {
        DecayVelocity();
      } else {
        IntegrateVelocity(dt);
      }
    }

    /** The zero-velocity update: each component decays, and is set to zero once below SnapEpsilon. */
    method DecayVelocity()
      modifies this
      ensures State() == old(State()).(velocity := Zupt(old(State()).velocity))
    {
      velocityX := velocityX * VelocityDecay;
      velocityY := velocityY * VelocityDecay;
      velocityZ := velocityZ * VelocityDecay;

      velocityX := if Abs(velocityX) < SnapEpsilon then 0.0 else velocityX;
      velocityY := if Abs(velocityY) < SnapEpsilon then 0.0 else velocityY;
      velocityZ := if Abs(velocityZ) < SnapEpsilon then 0.0 else velocityZ;
    }

    /** Euler integration of the filtered acceleration over dt seconds. */
    method IntegrateVelocity(dt: real)
      modifies this
      ensures State() == old(State()).(velocity := Integrate(old(State()).velocity, old(State()).filtered, dt))
    {
      velocityX := velocityX + filteredAccelX * dt;
      velocityY := velocityY + filteredAccelY * dt;
      velocityZ := velocityZ + filteredAccelZ * dt;
    }

    /** The speed of the current velocity in km/h, clamped for display. */
    method CurrentDisplaySpeed(sqrt: real -> real) returns (displaySpeed: real)
      ensures displaySpeed == DisplaySpeed(sqrt(SquaredNorm(State().velocity)))
      ensures 0.0 <= displaySpeed <= MaxDisplaySpeed
    {
      assert SquaredNorm(State().velocity) == velocityX * velocityX + velocityY * velocityY + velocityZ * velocityZ;
      var speedMs := sqrt(velocityX * velocityX + velocityY * velocityY + velocityZ * velocityZ);
      var speedKmh := speedMs * KmhPerMs;
      displaySpeed := CoerceIn(speedKmh, 0.0, MaxDisplaySpeed);
    }

    method ResetSpeed()
      modifies this
      ensures State() == Reset(old(State()))
      ensures Consistent(old(State())) ==> Valid()
    {
      velocityX, velocityY, velocityZ := 0.0, 0.0, 0.0;
      lastTimestamp := 0;
      filteredAccelX, filteredAccelY, filteredAccelZ := 0.0, 0.0, 0.0;
    }

    method StartCalibration()
      modifies this
      ensures State() == BeginCalibration(old(State()))
      ensures Valid()
    {
      isCalibrating := true;
      calibrationSamples := [];
    }

    method FinishCalibration()
      modifies this
      ensures State() == CompleteCalibration(old(State()))
      ensures Valid()
    {
      isCalibrating := false;
      if calibrationSamples != [] {
        offsetX := Mean(Column(calibrationSamples, X));
        offsetY := Mean(Column(calibrationSamples, Y));
        offsetZ := Mean(Column(calibrationSamples, Z));
      }
      ResetSpeed();
    }
  }
}
