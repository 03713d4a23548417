/** The per-variable reductions of the feature extractor: population mean, population variance and
    rate of change (last minus first). */
module Statistics {

  function Sum(xs: seq<real>): real
    decreases xs
  {
    if xs == [] then 0.0 else xs[0] + Sum(xs[1..])
  }

  /** Arithmetic mean. */
  function Mean(xs: seq<real>): real
    requires |xs| > 0
  {
    Sum(xs) / (|xs| as real)
  }

  /** The sum of the squared distances of the values from `m`. */
  function SumSquaredDeviations(xs: seq<real>, m: real): (s: real)
    ensures s >= 0.0
    decreases xs
  {
    if xs == [] then 0.0
    else
      SquareNonNegative(xs[0] - m);
      (xs[0] - m) * (xs[0] - m) + SumSquaredDeviations(xs[1..], m)
  }

  lemma SquareNonNegative(x: real)
    ensures x * x >= 0.0
  {
    if x < 0.0 {
      assert x * x == (-x) * (-x);
    }
  }

  /** Population variance: the mean squared deviation from the mean, dividing by N and not N - 1. */
  function PopulationVariance(xs: seq<real>): (v: real)
    requires |xs| > 0
    ensures v >= 0.0
  {
    SumSquaredDeviations(xs, Mean(xs)) / (|xs| as real)
  }

  /** The last value minus the first. */
  function RateOfChange(xs: seq<real>): real
    requires |xs| > 0
  {
    xs[|xs| - 1] - xs[0]
  }

  /** Values within [lo, hi] sum to within [N lo, N hi]. */
  lemma {:induction false} SumWithin(xs: seq<real>, lo: real, hi: real)
    requires forall i :: 0 <= i < |xs| ==> lo <= xs[i] <= hi
    ensures lo * (|xs| as real) <= Sum(xs) <= hi * (|xs| as real)
    decreases xs
  {
    if xs != [] {
      SumWithin(xs[1..], lo, hi);
      assert lo * (|xs| as real) == lo + lo * (|xs[1..]| as real);
      assert hi * (|xs| as real) == hi + hi * (|xs[1..]| as real);
    }
  }

  /** The mean of values within [lo, hi] lies within [lo, hi]. */
  lemma MeanWithin(xs: seq<real>, lo: real, hi: real)
    requires |xs| > 0
    requires forall i :: 0 <= i < |xs| ==> lo <= xs[i] <= hi
    ensures lo <= Mean(xs) <= hi
  {
    SumWithin(xs, lo, hi);
    var n := |xs| as real;
    assert lo * n / n == lo && hi * n / n == hi;
  }

  lemma {:induction false} SumOfConstant(xs: seq<real>, c: real)
    requires forall i :: 0 <= i < |xs| ==> xs[i] == c
    ensures Sum(xs) == c * (|xs| as real)
    ensures SumSquaredDeviations(xs, c) == 0.0
    decreases xs
  {
    if xs != [] {
      SumOfConstant(xs[1..], c);
      assert c * (|xs| as real) == c + c * (|xs[1..]| as real);
    }
  }

  /** A constant series has that constant as its mean, no variance and no change. */
  lemma ConstantSeries(xs: seq<real>, c: real)
    requires |xs| > 0
    requires forall i :: 0 <= i < |xs| ==> xs[i] == c
    ensures Mean(xs) == c
    ensures PopulationVariance(xs) == 0.0
    ensures RateOfChange(xs) == 0.0
  {
    SumOfConstant(xs, c);
    var n := |xs| as real;
    assert c * n / n == c;
  }

  /** Five evenly spaced values `a, a + d, ..., a + 4d`: mean `a + 2d`, population variance `2 d^2`,
      rate of change `4d`. */
  lemma EvenlySpacedFive(a: real, d: real)
    ensures var xs := [a, a + d, a + 2.0 * d, a + 3.0 * d, a + 4.0 * d];
      && Mean(xs) == a + 2.0 * d
      && PopulationVariance(xs) == 2.0 * d * d
      && RateOfChange(xs) == 4.0 * d
  {
    var xs := [a, a + d, a + 2.0 * d, a + 3.0 * d, a + 4.0 * d];
    var m := a + 2.0 * d;
    assert xs[1..] == [a + d, a + 2.0 * d, a + 3.0 * d, a + 4.0 * d];
    assert xs[2..] == [a + 2.0 * d, a + 3.0 * d, a + 4.0 * d] == xs[1..][1..];
    assert xs[3..] == [a + 3.0 * d, a + 4.0 * d] == xs[2..][1..];
    assert xs[4..] == [a + 4.0 * d] == xs[3..][1..];
    assert xs[4..][1..] == [];
    assert Sum(xs[4..]) == a + 4.0 * d;
    assert Sum(xs[3..]) == 2.0 * a + 7.0 * d;
    assert Sum(xs[2..]) == 3.0 * a + 9.0 * d;
    assert Sum(xs[1..]) == 4.0 * a + 10.0 * d;
    assert Sum(xs) == 5.0 * a + 10.0 * d;
    assert Mean(xs) == m;
    assert SumSquaredDeviations(xs[4..], m) == 4.0 * d * d;
    assert SumSquaredDeviations(xs[3..], m) == 5.0 * d * d;
    assert SumSquaredDeviations(xs[2..], m) == 5.0 * d * d;
    assert SumSquaredDeviations(xs[1..], m) == 6.0 * d * d;
    assert SumSquaredDeviations(xs, m) == 10.0 * d * d;
  }
}
