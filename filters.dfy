/** The two angle filters of the view model and the gyroscope time step, over reals. */
module Filters {

  /** `ewmaAlpha`: weight of the newest raw angle in the EWMA filter. */
  const EwmaAlpha: real := 0.1

  /** `complementaryFilterAlpha`: weight of the smoothed tilt in the fusion. */
  const ComplementaryFilterAlpha: real := 0.98

  function Abs(v: real): real {
    if v < 0.0 then -v else v
  }

  function Min(a: real, b: real): real {
    if a <= b then a else b
  }

  function Max(a: real, b: real): real {
    if a <= b then b else a
  }

  /** `ewmaFilter`: one exponentially weighted moving-average step. The output lies
      between the previous output and the new input, and closes exactly a tenth of
      the gap between them. */
  function EwmaFilter(input: real, previousOutput: real): (r: real)
    ensures Min(input, previousOutput) <= r <= Max(input, previousOutput)
    ensures r - input == 0.9 * (previousOutput - input)
  {
    EwmaAlpha * input + (1.0 - EwmaAlpha) * previousOutput
  }

  /** `complementaryFilter`: blends the smoothed tilt with the integrated gyroscope
      angle. The output lies between the two, 2% of the way from the tilt to the
      gyroscope angle. */
  function ComplementaryFilter(linearAngle: real, gyroAngle: real): (r: real)
    ensures Min(linearAngle, gyroAngle) <= r <= Max(linearAngle, gyroAngle)
    ensures r - linearAngle == 0.02 * (gyroAngle - linearAngle)
  {
    ComplementaryFilterAlpha * linearAngle + (1.0 - ComplementaryFilterAlpha) * gyroAngle
  }

  /** The gyroscope time step as the source computes it: the nanosecond difference
      DIVIDED by 1e-9. This is a defect of the source: converting nanoseconds to
      seconds needs a multiplication by 1e-9, so the step is 10^18 times too large
      (see GyroStepIsScaledElapsedSeconds). It is reproduced here as written. */
  function GyroStep(timestamp: int, lastTimestamp: int): (dt: real)
    ensures dt == (timestamp - lastTimestamp) as real * 1000000000.0
  {
    (timestamp - lastTimestamp) as real / 0.000000001
  }

  /** The elapsed time in seconds between two nanosecond timestamps. */
  function ElapsedSeconds(timestamp: int, lastTimestamp: int): real {
    (timestamp - lastTimestamp) as real * 0.000000001
  }

  lemma GyroStepIsScaledElapsedSeconds(timestamp: int, lastTimestamp: int)
    ensures GyroStep(timestamp, lastTimestamp) == 1000000000000000000.0 * ElapsedSeconds(timestamp, lastTimestamp)
  {
  }

  /** 0.9 raised to the n-th power: the factor by which n EWMA steps shrink the gap. */
  function Decay(n: nat): (r: real)
    ensures 0.0 < r <= 1.0
  {
    if n == 0 then 1.0 else 0.9 * Decay(n - 1)
  }

  /** The EWMA output after n steps that all see the same raw angle `input`,
      starting from the previous output `start`. */
  function EwmaIterate(input: real, start: real, n: nat): real {
    if n == 0 then start else EwmaFilter(input, EwmaIterate(input, start, n - 1))
  }

  /** With a constant input the distance to that input shrinks by the factor 0.9
      at every step. */
  lemma {:induction false} EwmaIterateGap(input: real, start: real, n: nat)
    ensures EwmaIterate(input, start, n) - input == Decay(n) * (start - input)
  {
    if n > 0 {
      EwmaIterateGap(input, start, n - 1);
      var previous, d, gap := EwmaIterate(input, start, n - 1), Decay(n - 1), start - input;
      assert EwmaIterate(input, start, n) - input == 0.9 * (previous - input);
      assert 0.9 * (d * gap) == (0.9 * d) * gap;
    }
  }

  /** Scaling a gap by a factor in (0, 1] keeps it between zero and the gap. */
  lemma ScaledGapBetween(d: real, gap: real)
    requires 0.0 < d <= 1.0
    ensures Min(0.0, gap) <= d * gap <= Max(0.0, gap)
    ensures Abs(0.9 * d * gap) <= Abs(d * gap)
  {
    if gap >= 0.0 {
      assert d * gap <= 1.0 * gap;
    } else {
      assert d * (-gap) <= 1.0 * (-gap);
    }
  }

  /** The output approaches the constant input monotonically, never overshooting it:
      every output lies between the start value and the input, and each step is
      at least as close to the input as the one before. */
  lemma EwmaIterateMonotone(input: real, start: real, n: nat)
    ensures Min(input, start) <= EwmaIterate(input, start, n) <= Max(input, start)
    ensures Abs(EwmaIterate(input, start, n + 1) - input) <= Abs(EwmaIterate(input, start, n) - input)
  {
    EwmaIterateGap(input, start, n);
    EwmaIterateGap(input, start, n + 1);
    ScaledGapBetween(Decay(n), start - input);
  }

  /** Bernoulli's bound for the decay factor: 0.9^n * (1 + n/9) <= 1. */
  lemma {:induction false} DecayBound(n: nat)
    ensures Decay(n) * (1.0 + n as real / 9.0) <= 1.0
  {
    if n > 0 {
      DecayBound(n - 1);
      var d := Decay(n - 1);
      var m := (n - 1) as real;
      calc {
        Decay(n) * (1.0 + n as real / 9.0);
        0.9 * d * (1.0 + (m + 1.0) / 9.0);
        d * (1.0 + 0.1 * m);
      <=  { assert 0.1 * m <= m / 9.0; assert d > 0.0; }
        d * (1.0 + m / 9.0);
      }
    }
  }

  /** Multiplying out a strict bound by a positive tolerance. */
  lemma MultiplyOutBound(m: real, gap: real, tolerance: real)
    requires tolerance > 0.0 && m > 9.0 * gap / tolerance
    ensures m * tolerance > 9.0 * gap
  {
    var q := 9.0 * gap / tolerance;
    assert q * tolerance == 9.0 * gap;
    assert m * tolerance > q * tolerance;
  }

  /** A decayed gap is below the tolerance once d * k <= 1 and k * tolerance > gap. */
  lemma DecayedGapBelow(d: real, k: real, gap: real, tolerance: real)
    requires 0.0 < d && d * k <= 1.0 && k * tolerance > gap && gap >= 0.0 && tolerance > 0.0
    ensures Abs(d * gap) < tolerance
  {
    assert d * gap >= 0.0;
    assert d * gap < d * (k * tolerance);
    assert d * (k * tolerance) == (d * k) * tolerance;
    assert (d * k) * tolerance <= 1.0 * tolerance;
  }

  /** Scaling by a positive factor scales the absolute value. */
  lemma AbsScaled(d: real, v: real)
    requires d > 0.0
    ensures Abs(d * v) == d * Abs(v)
  {
    if v < 0.0 {
      assert d * v == -(d * -v);
    }
  }

  /** The distance to a constant input after m steps is 0.9^m times the initial distance. */
  lemma EwmaIterateDistance(input: real, start: real, m: nat)
    ensures Abs(EwmaIterate(input, start, m) - input) == Decay(m) * Abs(start - input)
  {
    EwmaIterateGap(input, start, m);
    AbsScaled(Decay(m), start - input);
  }

  /** After m steps with m * tolerance > 9 * |start - input| the output is within the tolerance. */
  lemma EwmaWithinAfter(input: real, start: real, tolerance: real, m: nat)
    requires tolerance > 0.0 && m as real * tolerance > 9.0 * Abs(start - input)
    ensures Abs(EwmaIterate(input, start, m) - input) < tolerance
  {
    var gap, d, k := Abs(start - input), Decay(m), 1.0 + m as real / 9.0;
    EwmaIterateDistance(input, start, m);
    DecayBound(m);
    assert k * tolerance == tolerance + (m as real * tolerance) / 9.0;
    DecayedGapBelow(d, k, gap, tolerance);
    AbsScaled(d, gap);
  }

  /** Convergence: for every tolerance there is a step count from which on the
      EWMA output stays within that tolerance of the constant input. */
  lemma EwmaConverges(input: real, start: real, tolerance: real) returns (n: nat)
    requires tolerance > 0.0
    ensures forall m: nat :: n <= m ==> Abs(EwmaIterate(input, start, m) - input) < tolerance
  {
    var bound := 9.0 * Abs(start - input) / tolerance;
    assert bound >= 0.0;
    n := bound.Floor + 1;
    forall m: nat | n <= m
      ensures Abs(EwmaIterate(input, start, m) - input) < tolerance
    {
      MultiplyOutBound(m as real, Abs(start - input), tolerance);
      EwmaWithinAfter(input, start, tolerance, m);
    }
  }
}
