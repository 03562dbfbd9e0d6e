/**
 The arithmetic the speed estimator is built from: three-axis vectors, the
 per-axis exponential low-pass filter, the zero-velocity decay with its
 snap-to-zero, Kotlin's `coerceIn` clamp and the arithmetic mean used by
 calibration. Every quantity the app holds as a Float or Double is a `real`.
 */
module Numerics {

  /** One reading or state triple, one component per sensor axis. */
  datatype Vec3 = Vec3(x: real, y: real, z: real)

  const Zero: Vec3 := Vec3(0.0, 0.0, 0.0)

  datatype Axis = X | Y | Z

  function Component(v: Vec3, axis: Axis): real
  {
    match axis
    case X => v.x
    case Y => v.y
    case Z => v.z
  }

  function Sub(a: Vec3, b: Vec3): Vec3
  {
    Vec3(a.x - b.x, a.y - b.y, a.z - b.z)
  }

  function Abs(r: real): (a: real)
    ensures a >= 0.0
  {
    if r < 0.0 then -r else r
  }

  function Distance(a: real, b: real): real
  {
    Abs(a - b)
  }

  function Min(a: real, b: real): real
  {
    if a <= b then a else b
  }

  function Max(a: real, b: real): real
  {
    if a <= b then b else a
  }

  // ---------------------------------------------------------------------
  // Low-pass filter
  // ---------------------------------------------------------------------

  /** Smoothing coefficient of the acceleration low-pass filter. */
  const Alpha: real := 0.2

  /**
   One step of the exponential moving average: the new output lies between
   the previous output and the input, and closes the gap to the input by the
   fraction Alpha.
   */
  function Ema(input: real, previous: real): (r: real)
    ensures Min(input, previous) <= r <= Max(input, previous)
    ensures Abs(r - input) == (1.0 - Alpha) * Abs(previous - input)
  {
    Alpha * input + (1.0 - Alpha) * previous
  }

  /**
   The filter applied to each axis independently; an input equal to the
   previous output is kept.
   */
  function FilterStep(previous: Vec3, input: Vec3): (r: Vec3)
    ensures previous == input ==> r == input
  {
    Vec3(Ema(input.x, previous.x), Ema(input.y, previous.y), Ema(input.z, previous.z))
  }

  /**
   On every axis the filter closes the gap between its output and the input
   by the fraction Alpha: the new gap is the old one times 1 - Alpha.
   */
  lemma FilterClosesGap(previous: Vec3, input: Vec3)
    ensures Sub(FilterStep(previous, input), input) == Scale(1.0 - Alpha, Sub(previous, input))
  {
  }

  // ---------------------------------------------------------------------
  // Zero-velocity update
  // ---------------------------------------------------------------------

  const ZeroVelocityThreshold: real := 0.15
  const VelocityDecay: real := 0.98
  /** A decayed velocity component below this magnitude is set to zero. */
  const SnapEpsilon: real := 0.01
  /**
   The least amount by which one decay step shrinks a component that it does
   not snap to zero (SnapEpsilon * (1 - VelocityDecay)).
   */
  const MinShrink: real := 0.0002

  function SquaredNorm(v: Vec3): (q: real)
    ensures q >= 0.0
  {
    v.x * v.x + v.y * v.y + v.z * v.z
  }

  /**
   The device counts as stationary when the magnitude of the filtered
   acceleration is below the threshold; both sides are nonnegative, so the
   test is made on squares (see MagnitudeBelowThreshold).
   */
  predicate IsStationary(filtered: Vec3)
  {
    SquaredNorm(filtered) < ZeroVelocityThreshold * ZeroVelocityThreshold
  }

  /** Any nonnegative square root of the squared norm passes the threshold test exactly when IsStationary holds. */
  lemma MagnitudeBelowThreshold(filtered: Vec3, magnitude: real)
    requires 0.0 <= magnitude && magnitude * magnitude == SquaredNorm(filtered)
    ensures magnitude < ZeroVelocityThreshold <==> IsStationary(filtered)
  {
    var t := ZeroVelocityThreshold;
    if magnitude < t {
      ScaleMonotonic(magnitude, magnitude, t);
      assert magnitude * t < t * t;
    } else {
      ScaleMonotonic(magnitude, t, magnitude);
      assert t * magnitude >= t * t;
    }
  }

  lemma ScaleMonotonic(a: real, b: real, c: real)
    requires 0.0 <= a && b <= c
    ensures a * b <= a * c
  {
  }

  /**
   One velocity component under the zero-velocity update: decayed by
   VelocityDecay, then set to zero when what is left is below SnapEpsilon.
   The component never grows, never changes sign, ends either at zero or at
   least SnapEpsilon away from it, and a nonzero result is at least
   MinShrink closer to zero than before.
   */
  function DecayComponent(v: real): (r: real)
    ensures Abs(r) <= Abs(v)
    ensures (r > 0.0 ==> v > 0.0) && (r < 0.0 ==> v < 0.0)
    ensures r == 0.0 || SnapEpsilon <= Abs(r)
    ensures r == 0.0 || Abs(r) <= Abs(v) - MinShrink
    ensures v == 0.0 ==> r == 0.0
  {
    var decayed := v * VelocityDecay;
    if Abs(decayed) < SnapEpsilon then 0.0 else decayed
  }

  /**
   The zero-velocity update of a whole velocity: no component grows, and a
   velocity at rest stays at rest.
   */
  function Zupt(v: Vec3): (r: Vec3)
    ensures Abs(r.x) <= Abs(v.x) && Abs(r.y) <= Abs(v.y) && Abs(r.z) <= Abs(v.z)
    ensures v == Zero ==> r == Zero
  {
    Vec3(DecayComponent(v.x), DecayComponent(v.y), DecayComponent(v.z))
  }

  /** The zero-velocity update never increases the magnitude of the velocity. */
  lemma ZuptShrinksMagnitude(v: Vec3)
    ensures SquaredNorm(Zupt(v)) <= SquaredNorm(v)
  {
    SquaredNormBelow(Zupt(v), v);
  }

  /** A vector no component of which is larger in magnitude has no larger squared norm. */
  lemma SquaredNormBelow(r: Vec3, v: Vec3)
    requires Abs(r.x) <= Abs(v.x) && Abs(r.y) <= Abs(v.y) && Abs(r.z) <= Abs(v.z)
    ensures SquaredNorm(r) <= SquaredNorm(v)
  {
    SquareOfSmaller(r.x, v.x);
    SquareOfSmaller(r.y, v.y);
    SquareOfSmaller(r.z, v.z);
  }

  lemma SquareOfSmaller(a: real, b: real)
    requires Abs(a) <= Abs(b)
    ensures a * a <= b * b
  {
    ScaleMonotonic(Abs(a), Abs(a), Abs(b));
    ScaleMonotonic(Abs(b), Abs(a), Abs(b));
    assert a * a == Abs(a) * Abs(a) && b * b == Abs(b) * Abs(b);
  }

  /** The vector v stretched by the factor c. */
  function Scale(c: real, v: Vec3): Vec3
  {
    Vec3(c * v.x, c * v.y, c * v.z)
  }

  lemma SquaredNormOfScale(c: real, v: Vec3)
    ensures SquaredNorm(Scale(c, v)) == (c * c) * SquaredNorm(v)
  {
  }

  /** Stretching v by a larger nonnegative factor gives no smaller squared norm. */
  lemma ScaledNormMonotone(v: Vec3, c: real, d: real)
    requires 0.0 <= c <= d
    ensures SquaredNorm(Scale(c, v)) <= SquaredNorm(Scale(d, v))
  {
    SquaredNormOfScale(c, v);
    SquaredNormOfScale(d, v);
    SquareOfSmaller(c, d);
    var norm, cc, dd := SquaredNorm(v), c * c, d * d;
    ScaleMonotonic(norm, cc, dd);
    assert cc * norm <= dd * norm;
    assert SquaredNorm(Scale(c, v)) == cc * norm;
    assert SquaredNorm(Scale(d, v)) == dd * norm;
  }

  /**
   Rectangular (Euler) integration of acceleration over dt seconds: the
   velocity changes by exactly dt times the acceleration.
   */
  function Integrate(v: Vec3, accel: Vec3, dt: real): (r: Vec3)
    ensures Sub(r, v) == Scale(dt, accel)
    ensures dt == 0.0 || accel == Zero ==> r == v
  {
    Vec3(v.x + accel.x * dt, v.y + accel.y * dt, v.z + accel.z * dt)
  }

  /** A component after n consecutive zero-velocity updates. */
  function DecayTimes(v: real, n: nat): real
    decreases n
  {
    if n == 0 then v else DecayTimes(DecayComponent(v), n - 1)
  }

  /**
   Drift is bled off in bounded time: a component of magnitude at most
   n * MinShrink is exactly zero after n stationary updates.
   */
  lemma {:induction false} DecaySnapsWithinSteps(v: real, n: nat)
    requires Abs(v) <= n as real * MinShrink
    ensures DecayTimes(v, n) == 0.0
    decreases n
  {
    if n > 0 {
      var r := DecayComponent(v);
      assert Abs(r) <= (n - 1) as real * MinShrink;
      DecaySnapsWithinSteps(r, n - 1);
    }
  }

  // ---------------------------------------------------------------------
  // Clamp
  // ---------------------------------------------------------------------

  /**
   Kotlin's `coerceIn(lo, hi)` (which rejects lo > hi): the point of
   [lo, hi] nearest to the value.
   */
  function CoerceIn(value: real, lo: real, hi: real): (r: real)
    requires lo <= hi
    ensures lo <= r <= hi
    ensures forall w :: lo <= w <= hi ==> Distance(r, value) <= Distance(w, value)
  {
    if value < lo then lo else if value > hi then hi else value
  }

  // ---------------------------------------------------------------------
  // Arithmetic mean
  // ---------------------------------------------------------------------

  function Sum(xs: seq<real>): real
  {
    if xs == [] then 0.0 else xs[0] + Sum(xs[1..])
  }

  /**
   Kotlin's `average()` of a nonempty list: the value that, taken |xs| times,
   gives the sum of the list.
   */
  function Mean(xs: seq<real>): (m: real)
    requires xs != []
    ensures m * |xs| as real == Sum(xs)
    ensures |xs| == 1 ==> m == xs[0]
  {
    Sum(xs) / |xs| as real
  }

  /** The values of one axis across a list of samples, in order. */
  function Column(samples: seq<Vec3>, axis: Axis): (col: seq<real>)
    ensures |col| == |samples|
  {
    seq(|samples|, i requires 0 <= i < |samples| => Component(samples[i], axis))
  }

  lemma {:induction false} SumOfConstant(xs: seq<real>, c: real)
    requires forall i :: 0 <= i < |xs| ==> xs[i] == c
    ensures Sum(xs) == |xs| as real * c
  {
    if xs != [] {
      SumOfConstant(xs[1..], c);
    }
  }

  /** The mean of a list whose every entry is c is exactly c. */
  lemma MeanOfConstant(xs: seq<real>, c: real)
    requires xs != []
    requires forall i :: 0 <= i < |xs| ==> xs[i] == c
    ensures Mean(xs) == c
  {
    SumOfConstant(xs, c);
  }

  lemma {:induction false} SumWithinBounds(xs: seq<real>, lo: real, hi: real)
    requires forall i :: 0 <= i < |xs| ==> lo <= xs[i] <= hi
    ensures |xs| as real * lo <= Sum(xs) <= |xs| as real * hi
  {
    if xs != [] {
      SumWithinBounds(xs[1..], lo, hi);
    }
  }

  /** The mean lies within any bounds that hold for every entry. */
  lemma MeanWithinBounds(xs: seq<real>, lo: real, hi: real)
    requires xs != []
    requires forall i :: 0 <= i < |xs| ==> lo <= xs[i] <= hi
    ensures lo <= Mean(xs) <= hi
  {
    SumWithinBounds(xs, lo, hi);
    var n := |xs| as real;
    assert Mean(xs) * n == Sum(xs);
  }
}
