/** Online mean and variance (Welford's recurrence), against the two-pass definitions. */
module Baseline {
  function Sum(xs: seq<real>): real {
    if xs == [] then 0.0 else Sum(xs[..|xs| - 1]) + xs[|xs| - 1]
  }

  function SumSq(xs: seq<real>): real {
    if xs == [] then 0.0 else SumSq(xs[..|xs| - 1]) + xs[|xs| - 1] * xs[|xs| - 1]
  }

  /** The sum of squared deviations from `c`. */
  function SqDev(xs: seq<real>, c: real): real {
    if xs == [] then 0.0
    else SqDev(xs[..|xs| - 1], c) + (xs[|xs| - 1] - c) * (xs[|xs| - 1] - c)
  }

  function Mean(xs: seq<real>): real {
    if xs == [] then 0.0 else Sum(xs) / |xs| as real
  }

  /** Population variance, in two passes; zero below two observations. */
  function Variance(xs: seq<real>): real {
    if |xs| < 2 then 0.0 else SqDev(xs, Mean(xs)) / |xs| as real
  }

  /** Bessel-corrected variance; zero below two observations. */
  function SampleVariance(xs: seq<real>): real {
    if |xs| < 2 then 0.0 else SqDev(xs, Mean(xs)) / (|xs| - 1) as real
  }

  /** What the accumulator keeps, from the two power sums; TwoPass: the squared deviations. */
  function Dispersion(xs: seq<real>): real { SumSq(xs) - Mean(xs) * Sum(xs) }

  lemma SumAppend(xs: seq<real>, v: real)
    ensures Sum(xs + [v]) == Sum(xs) + v
    ensures SumSq(xs + [v]) == SumSq(xs) + v * v
  {
    assert (xs + [v])[..|xs|] == xs;
  }

  lemma {:induction false} SqDevExpand(xs: seq<real>, n: real, c: real)
    requires n == |xs| as real
    ensures SqDev(xs, c) == SumSq(xs) - 2.0 * (c * Sum(xs)) + n * (c * c)
  {
    if xs != [] {
      var init, x := xs[..|xs| - 1], xs[|xs| - 1];
      SqDevExpand(init, n - 1.0, c);
      ExpandStep(n - 1.0, n, x, c, Sum(init), Sum(xs), SumSq(init), SumSq(xs), SqDev(init, c), SqDev(xs, c));
    }
  }

  lemma ExpandStep(n: real, n1: real, x: real, c: real, sum: real, sum1: real,
                   sq: real, sq1: real, dev: real, dev1: real)
    requires n1 == n + 1.0 && sum1 == sum + x && sq1 == sq + x * x && dev1 == dev + (x - c) * (x - c)
    requires dev == sq - 2.0 * (c * sum) + n * (c * c)
    ensures dev1 == sq1 - 2.0 * (c * sum1) + n1 * (c * c)
  {
    assert c * sum1 == c * sum + c * x;
    assert n1 * (c * c) == n * (c * c) + c * c;
    assert (x - c) * (x - c) == x * x - 2.0 * (c * x) + c * c;
  }

  lemma MeanTimesCount(xs: seq<real>)
    ensures |xs| as real * Mean(xs) == Sum(xs)
  {}

  lemma SqDevAtMean(xs: seq<real>, n: real, m: real)
    requires n == |xs| as real && n * m == Sum(xs)
    ensures SqDev(xs, m) == SumSq(xs) - m * Sum(xs)
  {
    SqDevExpand(xs, n, m);
    assert n * (m * m) == m * (n * m);
  }

  /** The one-pass dispersion is the sum of squared deviations from the mean. */
  lemma TwoPass(xs: seq<real>)
    ensures Dispersion(xs) == SqDev(xs, Mean(xs))
  {
    MeanTimesCount(xs);
    SqDevAtMean(xs, |xs| as real, Mean(xs));
  }

  lemma {:induction false} SqDevNonNegative(xs: seq<real>, c: real)
    ensures SqDev(xs, c) >= 0.0
  {
    if xs != [] {
      SqDevNonNegative(xs[..|xs| - 1], c);
      SquareNonNegative(xs[|xs| - 1] - c);
    }
  }

  lemma SquareNonNegative(x: real)
    ensures x * x >= 0.0
  {}

  lemma DispersionNonNegative(xs: seq<real>)
    ensures Dispersion(xs) >= 0.0
  {
    TwoPass(xs);
    SqDevNonNegative(xs, Mean(xs));
  }

  /** Welford's recurrence is exact: one observation moves mean and dispersion so. */
  lemma WelfordStep(xs: seq<real>, v: real)
    ensures Mean(xs + [v]) == Mean(xs) + (v - Mean(xs)) / (|xs| as real + 1.0)
    ensures Dispersion(xs + [v]) == Dispersion(xs) + (v - Mean(xs)) * (v - Mean(xs + [v]))
  {
    var n, m, sum, sq := |xs| as real, Mean(xs), Sum(xs), SumSq(xs);
    MeanTimesCount(xs);
    SumAppend(xs, v);
    StepIdentity(n, m, m + (v - m) / (n + 1.0), v, sum, sq);
    assert |xs + [v]| as real == n + 1.0;
  }

  lemma StepIdentity(n: real, m: real, m1: real, v: real, sum: real, sq: real)
    requires n >= 0.0 && n * m == sum && m1 == m + (v - m) / (n + 1.0)
    ensures m1 == (sum + v) / (n + 1.0)
    ensures sq + v * v - m1 * (sum + v) == sq - m * sum + (v - m) * (v - m1)
  {
    assert (n + 1.0) * m1 == (n + 1.0) * m + (v - m);
    assert m1 * (sum + v) == m1 * sum + m1 * v;
    assert m1 * sum == n * m * m1;
    assert m * ((n + 1.0) * m1) == m * (sum + v);
  }

  /** The running accumulator. `seen` is what it has been fed. */
  class WelfordStats {
    var count: nat
    var mean: real
    var m2: real
    ghost var seen: seq<real>

    ghost predicate Valid() reads this {
      count == |seen| && mean == Mean(seen) && m2 == Dispersion(seen)
    }

    constructor ()
      ensures Valid() && seen == []
    {
      count, mean, m2, seen := 0, 0.0, 0.0, [];
    }

    method Update(value: real)
      requires Valid()
      modifies this
      ensures Valid() && seen == old(seen) + [value]
      ensures count as real * mean == Sum(seen) && m2 == SqDev(seen, mean)
    {
      hide Sum, SumSq, SqDev, Mean, Dispersion;
      WelfordStep(seen, value);
      count := count + 1;
      var delta := value - mean;
      var n := count as real;
      mean := mean + delta / n;
      var delta2 := value - mean;
      m2 := m2 + delta * delta2;
      seen := seen + [value];
      MeanTimesCount(seen);
      TwoPass(seen);
    }

    function GetVariance(): (r: real)
      requires Valid()
      reads this
      ensures r == Variance(seen) && r >= 0.0
    {
      TwoPass(seen);
      DispersionNonNegative(seen);
      if count < 2 then 0.0 else m2 / count as real
    }

    function GetSampleVariance(): (r: real)
      requires Valid()
      reads this
      ensures r == SampleVariance(seen) && r >= GetVariance()
    {
      TwoPass(seen);
      DispersionNonNegative(seen);
      assert count >= 2 ==> m2 / count as real <= m2 / (count - 1) as real;
      if count < 2 then 0.0 else m2 / (count - 1) as real
    }
  }
}
