# Dead-reckoning speed estimator of SpeedSensorTest

The app estimates the device's speed from Android's linear-acceleration sensor.
It does this by dead reckoning: it integrates acceleration into a velocity and
reports that velocity's magnitude in km/h. All of it lives in `MainActivity`.

- **Calibration.** While the phone lies still, the raw samples are collected.
  After 100 samples, each axis's mean becomes that axis's bias offset.
- **Filter.** Each sample has the offsets subtracted and then passes through a
  per-axis exponential low-pass filter (alpha 0.2).
- **Warm-up sentinel.** A zero `lastTimestamp` means there is no timing
  baseline yet. The first sample after a reset only records its timestamp.
- **dt gate.** A sample whose time step is not in (0, 0.5 s] is not integrated.
- **Zero-velocity update (ZUPT).** When the filtered acceleration is below
  0.15 m/s², each velocity component is multiplied by 0.98. A component that
  falls below 0.01 is then set to 0. Otherwise the filtered acceleration times
  dt is added to the velocity (Euler integration).
- **Display speed.** The result is the norm of the velocity times 3.6,
  clamped into [0, 200].

The project has three modules:

- `Numerics` (`numerics.dfy`): the arithmetic pieces. These are the EMA step,
  the stationarity test, the decay-and-snap of one velocity component, Kotlin's
  `coerceIn`, and the mean used by calibration.
- `Estimator` (`estimator.dfy`) has two parts:
  - The estimator's fields as a value, `EstimatorState`. Its operations are
    functions on that value: `Step` (one sample), `Reset`, `BeginCalibration`
    and `CompleteCalibration`.
  - The class `SpeedEstimator`. It has the activity's own fields (`velocityX`,
    `lastTimestamp`, `offsetX`, `isCalibrating`, `calibrationSamples`,
    `filteredAccelX`, …) and updates them in place, step by step, with the
    source's early returns. Each of its methods is proved to leave the fields
    exactly as the corresponding function says.
- `EstimatorLemmas` (`estimator_lemmas.dfy`): what each branch of the sample
  handler changes and what it leaves alone. It also proves facts about whole
  sample sequences: a calibration's offsets are the means of the samples it
  collected, a device at rest stays at rest, and under constant acceleration
  from rest the magnitude of the velocity never drops.

## Model

| member | source | states |
|---|---|---|
| `Numerics.Ema` | app/src/main/java/com/example/speedsensortest/MainActivity.kt:135-137 | The filtered value lies between the previous output and the input. It closes the gap to the input by exactly the fraction alpha = 0.2. |
| `Numerics.FilterStep` | app/src/main/java/com/example/speedsensortest/MainActivity.kt:135-137 | Its own contract states only the fixed point: an input equal to the previous output is kept. The per-axis contraction of the gap to the input is stated by `Numerics.FilterClosesGap`. |
| `Numerics.FilterClosesGap` | app/src/main/java/com/example/speedsensortest/MainActivity.kt:135-137 | On every axis the new gap between filter output and input is exactly the old gap times 1 − alpha = 0.8. |
| `Numerics.SquaredNorm` | app/src/main/java/com/example/speedsensortest/MainActivity.kt:164-168 | The sum of squares under the magnitude's square root is nonnegative. |
| `Numerics.MagnitudeBelowThreshold` | app/src/main/java/com/example/speedsensortest/MainActivity.kt:164-171 | For any nonnegative square root of the squared norm, "magnitude < 0.15" holds exactly when the squared norm is below 0.15². This is why the model tests squares. |
| `Numerics.DecayComponent` | app/src/main/java/com/example/speedsensortest/MainActivity.kt:171-179 | One ZUPT step on a component never increases its magnitude or flips its sign. It ends at 0 or at least 0.01 from 0. A nonzero result is at least 0.0002 closer to 0. Zero stays zero. |
| `Numerics.DecaySnapsWithinSteps` | app/src/main/java/com/example/speedsensortest/MainActivity.kt:171-179 | Repeated stationary updates remove drift in bounded time. A component of magnitude at most n·0.0002 is exactly 0 after n updates. |
| `Numerics.Zupt` | app/src/main/java/com/example/speedsensortest/MainActivity.kt:171-179 | The zero-velocity update of a whole velocity: no component grows in magnitude, and a zero velocity stays zero. |
| `Numerics.ZuptShrinksMagnitude` | app/src/main/java/com/example/speedsensortest/MainActivity.kt:171-179 | The zero-velocity update never increases the squared magnitude of the velocity. |
| `Numerics.Integrate` | app/src/main/java/com/example/speedsensortest/MainActivity.kt:180-185 | Euler integration changes the velocity by exactly dt times the filtered acceleration, on every axis. With dt = 0 or zero acceleration the velocity is unchanged. |
| `Numerics.ScaledNormMonotone` | app/src/main/java/com/example/speedsensortest/MainActivity.kt:164-168 | Stretching a vector by a larger nonnegative factor never gives a smaller squared norm. The constant-acceleration lemmas rest on this. |
| `Numerics.CoerceIn` | app/src/main/java/com/example/speedsensortest/MainActivity.kt:192 | `coerceIn(lo, hi)` returns a value in [lo, hi]. That value is the point of [lo, hi] nearest to the input. |
| `Numerics.Mean` | app/src/main/java/com/example/speedsensortest/MainActivity.kt:218-220 | The average of a nonempty list, taken once per entry, gives the sum of the list. The average of a single entry is that entry. |
| `Numerics.MeanOfConstant` | app/src/main/java/com/example/speedsensortest/MainActivity.kt:218-220 | The average of a list whose entries all equal c is exactly c. |
| `Numerics.MeanWithinBounds` | app/src/main/java/com/example/speedsensortest/MainActivity.kt:218-220 | The average lies within any bounds that every entry satisfies. |
| `Estimator.DtGateInNanoseconds` | app/src/main/java/com/example/speedsensortest/MainActivity.kt:158-162 | The test "dt ≤ 0 or dt > 0.5" on dt = delta / 10⁹ equals a test on the integer nanosecond delta: delta ≤ 0 or delta > 500 000 000. |
| `Estimator.VelocityStep` | app/src/main/java/com/example/speedsensortest/MainActivity.kt:164-185 | A stationary filter output decays the velocity so that no component grows. Otherwise the velocity changes by exactly dt times the filtered acceleration. |
| `Estimator.DisplaySpeed` | app/src/main/java/com/example/speedsensortest/MainActivity.kt:187-192 | The display speed is always in [0, 200]. It equals speed·3.6 whenever that already lies in range. |
| `Estimator.Reset` | app/src/main/java/com/example/speedsensortest/MainActivity.kt:196-206 | `resetSpeed` zeroes velocity, `lastTimestamp` and the filter. It keeps offsets, calibration flag and batch, and keeps the batch-size invariant. |
| `Estimator.BeginCalibration` | app/src/main/java/com/example/speedsensortest/MainActivity.kt:208-212 | `startCalibration` leaves the estimator collecting into an empty batch, which satisfies the batch-size invariant whatever state came before. |
| `Estimator.CompleteCalibration` | app/src/main/java/com/example/speedsensortest/MainActivity.kt:214-229 | `finishCalibration` stops collecting and keeps the batch. The result satisfies the batch-size invariant and is already reset: a further reset does not change it. |
| `Estimator.Step` | app/src/main/java/com/example/speedsensortest/MainActivity.kt:129-194 | The functional model of `handleLinearAcceleration`. A speed is reported if and only if no calibration runs, a baseline exists and the delta is in (0, 500 000 000] ns. The batch-size invariant is kept. The offsets change only on the sample that completes a calibration. |
| `Estimator.Run` | app/src/main/java/com/example/speedsensortest/MainActivity.kt:123-125 | Feeding a sequence of samples one at a time gives exactly one speed-or-nothing per sample. |
| `EstimatorLemmas.RunSplits` | app/src/main/java/com/example/speedsensortest/MainActivity.kt:123-125 | Feeding a sample sequence in two parts equals feeding it whole: the second part starts from the state the first left, and the speed lists are concatenated. |
| `Estimator.SpeedEstimator.constructor` | app/src/main/java/com/example/speedsensortest/MainActivity.kt:29-49 | Initially all velocity, offset and filter fields are 0, `lastTimestamp` is 0, there is no calibration and the batch is empty. |
| `Estimator.SpeedEstimator.HandleLinearAcceleration` | app/src/main/java/com/example/speedsensortest/MainActivity.kt:129-194 | The handler leaves the fields, and returns the speed, exactly as `Step` describes. It keeps the batch-size invariant. Any returned speed is in [0, 200]. |
| `Estimator.SpeedEstimator.LowPass` | app/src/main/java/com/example/speedsensortest/MainActivity.kt:130-137 | Only the three filter fields change. Each becomes the EMA of the bias-corrected sample. |
| `Estimator.SpeedEstimator.UpdateVelocity` | app/src/main/java/com/example/speedsensortest/MainActivity.kt:164-185 | Only the velocity fields change, exactly as `VelocityStep` describes. The threshold is tested on squares, and the work is done by `DecayVelocity` or `IntegrateVelocity`. |
| `Estimator.SpeedEstimator.DecayVelocity` | app/src/main/java/com/example/speedsensortest/MainActivity.kt:171-179 | Each velocity field is multiplied by 0.98, then set to 0 when below 0.01 in magnitude. This is exactly `Zupt`. Nothing else changes. |
| `Estimator.SpeedEstimator.IntegrateVelocity` | app/src/main/java/com/example/speedsensortest/MainActivity.kt:180-185 | Each velocity field gains its filtered acceleration times dt. This is exactly `Integrate`. Nothing else changes. |
| `Estimator.SpeedEstimator.CurrentDisplaySpeed` | app/src/main/java/com/example/speedsensortest/MainActivity.kt:187-192 | The result is the clamped km/h value of the current velocity's norm, and it lies in [0, 200]. |
| `Estimator.SpeedEstimator.ResetSpeed` | app/src/main/java/com/example/speedsensortest/MainActivity.kt:196-206 | Velocity, `lastTimestamp` and the filter become 0. Nothing else changes. |
| `Estimator.SpeedEstimator.StartCalibration` | app/src/main/java/com/example/speedsensortest/MainActivity.kt:208-212 | `isCalibrating` is set and the batch is emptied. Nothing else changes. |
| `Estimator.SpeedEstimator.FinishCalibration` | app/src/main/java/com/example/speedsensortest/MainActivity.kt:214-229 | Collecting stops. The offsets become the per-axis means, or are kept when the batch is empty. A full reset follows. The batch is kept. |
| `EstimatorLemmas.FilterFollowsEverySample` | app/src/main/java/com/example/speedsensortest/MainActivity.kt:130-151 | Every sample moves the filter: while calibrating, at warm-up, and when the dt gate drops it. The one exception is the sample that completes a calibration, which leaves the filter at 0 through the reset. |
| `EstimatorLemmas.CollectingOnlyAppendsSample` | app/src/main/java/com/example/speedsensortest/MainActivity.kt:145-151 | While collecting, a sample appends its uncorrected triple to the batch and moves the filter. Velocity, timestamp and offsets are unchanged and no speed is reported. |
| `EstimatorLemmas.LastSampleFinishesCalibration` | app/src/main/java/com/example/speedsensortest/MainActivity.kt:145-151 | The sample that brings the batch to 100 sets the offsets to the batch's per-axis means (this sample included). It stops collecting, resets motion state, keeps the batch and reports nothing. From a consistent state the batch then holds exactly 100 samples. |
| `EstimatorLemmas.CompleteCalibrationAveragesBatch` | app/src/main/java/com/example/speedsensortest/MainActivity.kt:214-229 | After finishing, every axis offset is the mean of that axis over the batch, or the old offset when the batch is empty. The batch is kept and velocity, timestamp and filter are 0. |
| `EstimatorLemmas.CalibratedOffsetWithinSamples` | app/src/main/java/com/example/speedsensortest/MainActivity.kt:217-220 | A calibrated offset lies within the range of the samples on its axis. |
| `EstimatorLemmas.CalibrationOfIdenticalSamples` | app/src/main/java/com/example/speedsensortest/MainActivity.kt:145-151 | The special case of 100 identical samples c: the offsets become exactly c. |
| `EstimatorLemmas.CollectBatch` | app/src/main/java/com/example/speedsensortest/MainActivity.kt:145-151 | Feed a running calibration exactly the samples it still lacks. It ends with the batch equal to the old batch followed by those raw triples, and with the per-axis means of that batch as offsets. Collecting stops, velocity, baseline and filter are 0, and no speed is reported on the way. |
| `EstimatorLemmas.CalibrationAveragesReadings` | app/src/main/java/com/example/speedsensortest/MainActivity.kt:145-151 | Start a calibration and feed it 100 arbitrary samples. Each offset becomes the mean of that axis over exactly those raw samples. The estimator ends reset and reports nothing on the way. |
| `EstimatorLemmas.WarmUpOnlyRecordsTimestamp` | app/src/main/java/com/example/speedsensortest/MainActivity.kt:154-157 | With no baseline and no calibration running, a sample only records its timestamp (and moves the filter). It reports nothing. |
| `EstimatorLemmas.DtGateDropsSample` | app/src/main/java/com/example/speedsensortest/MainActivity.kt:158-162 | A delta ≤ 0 ns or > 500 000 000 ns leaves velocity unchanged and reports nothing. The baseline still moves to the new timestamp. |
| `EstimatorLemmas.StationarySampleDecays` | app/src/main/java/com/example/speedsensortest/MainActivity.kt:171-179 | An accepted sample below the threshold replaces the velocity with its ZUPT decay and moves the baseline. It reports the speed of the decayed velocity. |
| `EstimatorLemmas.ZuptNeverIncreasesVelocity` | app/src/main/java/com/example/speedsensortest/MainActivity.kt:171-179 | The consequences of a ZUPT sample, taken from `StationarySampleDecays`: no velocity component grows, each ends at 0 or at least 0.01 from 0, and zero velocity stays zero. |
| `EstimatorLemmas.MovingSampleIntegrates` | app/src/main/java/com/example/speedsensortest/MainActivity.kt:180-192 | An accepted sample above the threshold has 0 < dt ≤ 0.5. It adds filtered·dt to each component and reports the clamped speed of the new velocity. |
| `EstimatorLemmas.ReportedSpeedIsClamped` | app/src/main/java/com/example/speedsensortest/MainActivity.kt:187-192 | Whatever the state and input, a reported speed is in [0, 200]. |
| `EstimatorLemmas.RestingSampleKeepsRest` | app/src/main/java/com/example/speedsensortest/MainActivity.kt:129-192 | Take an estimator at rest (no calibration, zero velocity and filter) and a sample equal to the bias. Velocity and filter stay 0, calibration is untouched, and the speed is none or 0. |
| `EstimatorLemmas.AcceptedRestingSample` | app/src/main/java/com/example/speedsensortest/MainActivity.kt:164-192 | At rest, an accepted bias-only sample only moves the baseline and reports 0 km/h. |
| `EstimatorLemmas.StationaryStaysAtRest` | app/src/main/java/com/example/speedsensortest/MainActivity.kt:129-192 | Over any sequence of bias-only samples, a resting estimator keeps zero velocity and filter. Every reported speed is 0. |
| `EstimatorLemmas.WarmUpThenFirstSpeed` | app/src/main/java/com/example/speedsensortest/MainActivity.kt:129-192 | Worked case: 1 m/s² on x at 1 s, then again at 1.1 s. The first sample reports nothing but moves the filter to 0.2. The second filters to 0.36, integrates to 0.036 m/s and reports 0.1296 km/h. |
| `EstimatorLemmas.ConstantAccelerationStep` | app/src/main/java/com/example/speedsensortest/MainActivity.kt:129-185 | Outside calibration, write the filter as p·a and the velocity as q·a, with 0 ≤ p ≤ 1 and q ≥ 0. Assume the velocity is nonzero only once the filter is above the threshold. Then one sample whose bias-corrected value is a keeps this shape. It raises p towards 1 and never lowers q. q grows by at most the sample's time step: dt when the sample is accepted, 0 otherwise (`StepTime`). |
| `EstimatorLemmas.ConstantAccelerationRun` | app/src/main/java/com/example/speedsensortest/MainActivity.kt:129-185 | The same shape is kept over any sequence of such samples. q never drops, and it grows by at most the summed dt of the accepted samples (`IntegratedTime`). |
| `EstimatorLemmas.ConstantAccelerationNeverSlows` | app/src/main/java/com/example/speedsensortest/MainActivity.kt:129-185 | Monotonic integration under constant acceleration. Start at rest, outside calibration, and feed samples that all carry the same raw triple, at any timestamps. The squared magnitude of the velocity after a prefix is never larger than after a longer prefix. |
| `EstimatorLemmas.ConstantAccelerationBounded` | app/src/main/java/com/example/speedsensortest/MainActivity.kt:129-185 | Under the same conditions, the velocity never runs ahead of exact integration. Let T be the summed dt of the accepted samples and a the bias-corrected acceleration. The squared magnitude of the velocity is at most that of T·a, so the speed is at most ‖a‖·T·3.6 km/h. |
| `EstimatorLemmas.IntegratingSampleScaled` | app/src/main/java/com/example/speedsensortest/MainActivity.kt:180-184 | An integrating sample with the filter at p·a moves the velocity from q·a to (q + p·dt)·a and leaves the rest of the state as the sample sets it. |
| `EstimatorLemmas.GainWithinStepTime` | app/src/main/java/com/example/speedsensortest/MainActivity.kt:158-184 | Integrating a fraction p ≤ 1 of the acceleration over an accepted step raises q by at least 0 and at most the step's dt. |
| `EstimatorLemmas.StepTime` | app/src/main/java/com/example/speedsensortest/MainActivity.kt:153-161 | The time a sample is integrated over is never negative. It is positive exactly when the sample is accepted. |
| `EstimatorLemmas.IntegratedTime` | app/src/main/java/com/example/speedsensortest/MainActivity.kt:153-161 | The total integrated time of a sequence of samples is never negative. |
| `EstimatorLemmas.ResetForgetsMotion` | app/src/main/java/com/example/speedsensortest/MainActivity.kt:196-206 | A reset estimator equals a newly created one, except that it keeps the offsets, calibration flag and batch. A second reset changes nothing. |
| `EstimatorLemmas.BeginCalibrationKeepsMotion` | app/src/main/java/com/example/speedsensortest/MainActivity.kt:208-212 | Starting a calibration empties the batch and sets the flag. Velocity, baseline, offsets and filter are untouched. |

## Left out

- Android lifecycle and sensor plumbing (`onCreate`, `onResume`, `onPause`, listener registration, `onAccuracyChanged`) are left out: they are platform I/O. A sample reaches the model as the arguments `(x, y, z, timestamp)` of `HandleLinearAcceleration`.
- The raw accelerometer and gyroscope branches of `onSensorChanged` are left out: they only format display text.
- All `TextView` output, `String.format` calls and button wiring are left out. The handler returns the numeric display speed as an `Option` instead of writing it to `speedText`.
- Floating point is left out. Every Float and Double is a `real`, so there is no rounding, no Float→Double widening, and the Float literal `0.2f` is taken as exactly 0.2.
- `kotlin.math.sqrt` is a foreign call. The handler takes the host's square root as a parameter `sqrt` and uses it only for the speed norm. The ZUPT test is made on squared magnitudes; `Numerics.MagnitudeBelowThreshold` shows this equals the source's test for any nonnegative square root.
- Timestamps are unbounded integers. 64-bit overflow of the `Long` subtraction is not modelled, since sensor timestamps are monotonic nanoseconds.
- `EstimatorLemmas.ConstantAccelerationNeverSlows`: only the upper half of convergence is proved, as `ConstantAccelerationBounded`: the speed never exceeds ‖a‖·T·3.6. The lower half is not proved. That half says the speed approaches ‖a‖·T·3.6 up to a bounded lag. The lag comes from the filter's warm-up from 0 towards a and from samples that ZUPT holds at zero while the filter is still below the threshold.
- `Estimator.SpeedEstimator.DecayVelocity`: the snap-to-zero of each component is written as a conditional assignment rather than an `if` statement. It has the same effect and keeps the proof small.
- `Estimator.SpeedEstimator.HandleLinearAcceleration`: the filter update, the velocity update and the speed computation sit in small methods (`LowPass`, `UpdateVelocity` with its two branches `DecayVelocity` and `IntegrateVelocity`, and `CurrentDisplaySpeed`). The handler calls them in the source's order. The source writes them inline.
- A moving-average ring buffer, a second EMA over the speed, a configuration object and an explicit "idle" mode are not part of this model. `MainActivity.kt` has none of them: its constants are hard-coded and its speed is only clamped.
- The model follows `MainActivity.kt` in these places, where a reader might expect otherwise:
  - A sample rejected by the dt gate still moves `lastTimestamp` to its own timestamp (`DtGateDropsSample`).
  - Every sample updates the filter, including calibration samples, warm-up samples and dropped samples (`FilterFollowsEverySample`).
  - The filter update happens before the calibration and dt checks, and the calibrating branch also updates it.
