/** Sliding-window feature extraction: a bounded FIFO of the most recent telemetry readings, reduced on
    demand to a 12-slot vector (mean, population variance, rate of change of four variables). */
module FeatureExtraction {
  import opened Statistics

  /** The four tracked values of one telemetry reading. */
  datatype Reading = Reading(temperature: real, humidity: real, airflow: real, cpuLoad: real)

  datatype Variable = Temperature | Humidity | Airflow | CpuLoad

  /** Feature extraction fails, rather than returning a partial vector, when the window is not full. */
  datatype Result<T> = Ok(value: T) | ValueError(message: string)

  /** The tracked variables, in the order their features appear. */
  const TrackedVariables: seq<Variable> := [Temperature, Humidity, Airflow, CpuLoad]

  const FeatureCount: nat := 12

  function Value(r: Reading, v: Variable): real
  {
    match v
    case Temperature => r.temperature
    case Humidity => r.humidity
    case Airflow => r.airflow
    case CpuLoad => r.cpuLoad
  }

  /** The position of `v` in `TrackedVariables`. */
  function Slot(v: Variable): (k: nat)
    ensures k < |TrackedVariables| && TrackedVariables[k] == v
  {
    match v
    case Temperature => 0
    case Humidity => 1
    case Airflow => 2
    case CpuLoad => 3
  }

  /** The values of `v` across the window, oldest first. */
  function Values(w: seq<Reading>, v: Variable): seq<real>
  {
    seq(|w|, i requires 0 <= i < |w| => Value(w[i], v))
  }

  /** The feature triple of one variable. */
  function VariableFeatures(w: seq<Reading>, v: Variable): seq<real>
    requires |w| > 0
  {
    var values := Values(w, v);
    [Mean(values), PopulationVariance(values), RateOfChange(values)]
  }

  /** The feature triples of `vs`, concatenated in order. */
  function FeaturesOf(w: seq<Reading>, vs: seq<Variable>): seq<real>
    requires |w| > 0
    decreases |vs|
  {
    if vs == [] then [] else FeaturesOf(w, vs[..|vs| - 1]) + VariableFeatures(w, vs[|vs| - 1])
  }

  /** The feature vector of a window: one triple per tracked variable, twelve values in all. */
  function Features(w: seq<Reading>): (f: seq<real>)
    requires |w| > 0
    ensures |f| == FeatureCount
  {
    FeaturesOfLayout(w, TrackedVariables);
    FeaturesOf(w, TrackedVariables)
  }

  /** Triple `k` of `FeaturesOf(w, vs)` belongs to variable `vs[k]`. */
  lemma {:induction false} FeaturesOfLayout(w: seq<Reading>, vs: seq<Variable>)
    requires |w| > 0
    ensures |FeaturesOf(w, vs)| == 3 * |vs|
    ensures forall k :: 0 <= k < |vs| ==>
      FeaturesOf(w, vs)[3 * k..3 * k + 3] == VariableFeatures(w, vs[k])
    decreases |vs|
  {
    if vs != [] {
      var init := vs[..|vs| - 1];
      FeaturesOfLayout(w, init);
      var f := FeaturesOf(w, vs);
      assert f == FeaturesOf(w, init) + VariableFeatures(w, vs[|vs| - 1]);
      forall k | 0 <= k < |vs|
        ensures f[3 * k..3 * k + 3] == VariableFeatures(w, vs[k])
      {
        if k < |vs| - 1 {
          assert init[k] == vs[k];
          assert f[3 * k..3 * k + 3] == FeaturesOf(w, init)[3 * k..3 * k + 3];
        } else {
          assert f[3 * k..3 * k + 3] == VariableFeatures(w, vs[|vs| - 1]);
        }
      }
    }
  }

  /** The 12-slot layout: for the variable in slot `s`, feature `3s` is its mean, `3s + 1` its population
      variance and `3s + 2` its last value minus its first. */
  lemma FeatureVectorLayout(w: seq<Reading>)
    requires |w| > 0
    ensures forall v: Variable ::
      && Features(w)[3 * Slot(v)] == Mean(Values(w, v))
      && Features(w)[3 * Slot(v) + 1] == PopulationVariance(Values(w, v))
      && Features(w)[3 * Slot(v) + 2] == Values(w, v)[|w| - 1] - Values(w, v)[0]
  {
    FeaturesOfLayout(w, TrackedVariables);
    forall v: Variable
      ensures && Features(w)[3 * Slot(v)] == Mean(Values(w, v))
              && Features(w)[3 * Slot(v) + 1] == PopulationVariance(Values(w, v))
              && Features(w)[3 * Slot(v) + 2] == Values(w, v)[|w| - 1] - Values(w, v)[0]
    {
      var k := Slot(v);
      assert Features(w)[3 * k..3 * k + 3] == VariableFeatures(w, v);
    }
  }

  /** The window after `p` arrives at a buffer of capacity `n` holding `w`: the last `n` readings of
      `w + [p]`. */
  function Slide(w: seq<Reading>, p: Reading, n: nat): (r: seq<Reading>)
    requires 1 <= n && |w| <= n
    ensures |r| == if |w| < n then |w| + 1 else n
    ensures |w| < n ==> r == w + [p]
    ensures |w| == n ==> r == w[1..] + [p]
  {
    var s := w + [p];
    if |s| <= n then s else s[|s| - n..]
  }

  /** The window of an initially empty buffer of capacity `n` after the readings `ps` arrived in order. */
  function WindowAfter(n: nat, ps: seq<Reading>): (w: seq<Reading>)
    requires 1 <= n
    ensures |w| <= n
    decreases |ps|
  {
    if ps == [] then [] else Slide(WindowAfter(n, ps[..|ps| - 1]), ps[|ps| - 1], n)
  }

  /** The window holds exactly the last `min(n, |ps|)` readings in arrival order; so it is full exactly
      from the `n`-th reading on. */
  lemma {:induction false} WindowHoldsLatest(n: nat, ps: seq<Reading>)
    requires 1 <= n
    ensures |ps| <= n ==> WindowAfter(n, ps) == ps
    ensures n <= |ps| ==> WindowAfter(n, ps) == ps[|ps| - n..]
    ensures |WindowAfter(n, ps)| == n <==> n <= |ps|
    decreases |ps|
  {
    if ps != [] {
      var init := ps[..|ps| - 1];
      var p := ps[|ps| - 1];
      WindowHoldsLatest(n, init);
      assert init + [p] == ps;
      if n < |ps| {
        assert init[|init| - n..][1..] + [p] == ps[|ps| - n..];
      }
    }
  }

  class SlidingWindowFeatureExtractor {
    const windowSize: nat
    const variables: seq<Variable> := TrackedVariables
    var window: seq<Reading>

    ghost predicate Valid()
      reads this
    {
      1 <= windowSize && |window| <= windowSize
    }

    constructor (windowSize: nat)
      requires 1 <= windowSize
      ensures Valid()
      ensures this.windowSize == windowSize && window == []
    {
      this.windowSize := windowSize;
      window := [];
    }

    /** Appends `p`, first evicting the oldest reading when the window is full. */
    method AddPoint(p: Reading)
      requires Valid()
      modifies this`window
      ensures Valid()
      ensures window == Slide(old(window), p, windowSize)
    {
      if |window| == windowSize {
        window := window[1..];
      }
      window := window + [p];
    }

    predicate IsWindowReady()
      reads this
    {
      |window| == windowSize
    }

    /** The feature vector of the window, or a `ValueError` when the window is not full. */
    method ExtractFeatures() returns (r: Result<seq<real>>)
      requires Valid()
      ensures r.ValueError? <==> !IsWindowReady()
      ensures r.Ok? ==> |window| > 0 && r.value == Features(window)
      ensures r.Ok? ==> |r.value| == FeatureCount
    {
      if !IsWindowReady() {
        return ValueError("Window is not ready for feature extraction.");
      }
      var features: seq<real> := [];
      var i := 0;
      while i < |variables|
        invariant 0 <= i <= |variables|
        invariant features == FeaturesOf(window, variables[..i])
      {
        var values := Values(window, variables[i]);
        var mean := Mean(values);
        var variance := PopulationVariance(values);
        var rateOfChange := values[|values| - 1] - values[0];
        features := features + [mean, variance, rateOfChange];
        assert variables[..i + 1][..i] == variables[..i];
        i := i + 1;
      }
      assert variables[..i] == TrackedVariables;
      return Ok(features);
    }
  }
  /** A window of five readings in which every variable `v` moves by the same `Value(d, v)` at each
      step: each variable's mean is its middle value, its variance `2 Value(d, v)^2`, its change
      `4 Value(d, v)`. */
  lemma EvenlySpacedWindow(w: seq<Reading>, d: Reading)
    requires |w| == 5
    requires forall v: Variable, i :: 0 <= i < 5 ==> Value(w[i], v) == Value(w[0], v) + (i as real) * Value(d, v)
    ensures forall v: Variable ::
      && Features(w)[3 * Slot(v)] == Value(w[0], v) + 2.0 * Value(d, v)
      && Features(w)[3 * Slot(v) + 1] == 2.0 * Value(d, v) * Value(d, v)
      && Features(w)[3 * Slot(v) + 2] == 4.0 * Value(d, v)
  {
    FeatureVectorLayout(w);
    forall v: Variable
      ensures && Features(w)[3 * Slot(v)] == Value(w[0], v) + 2.0 * Value(d, v)
              && Features(w)[3 * Slot(v) + 1] == 2.0 * Value(d, v) * Value(d, v)
              && Features(w)[3 * Slot(v) + 2] == 4.0 * Value(d, v)
    {
      var a, step := Value(w[0], v), Value(d, v);
      assert Value(w[1], v) == a + 1.0 * step;
      assert Value(w[2], v) == a + 2.0 * step;
      assert Value(w[3], v) == a + 3.0 * step;
      assert Value(w[4], v) == a + 4.0 * step;
      assert Values(w, v) == [a, a + step, a + 2.0 * step, a + 3.0 * step, a + 4.0 * step];
      EvenlySpacedFive(a, step);
    }
  }

  /** The readings of the reference series: temperature 20 + k, humidity 50 + k, airflow 100 + k,
      CPU load 30 + 2k. */
  function ReferenceReading(k: nat): Reading
  {
    Reading(20.0 + k as real, 50.0 + k as real, 100.0 + k as real, 30.0 + 2.0 * k as real)
  }

  lemma ReferenceWindow(w: seq<Reading>, first: nat)
    requires |w| == 5 && forall i :: 0 <= i < 5 ==> w[i] == ReferenceReading(first + i)
    ensures Features(w) == [
      20.0 + first as real + 2.0, 2.0, 4.0,
      50.0 + first as real + 2.0, 2.0, 4.0,
      100.0 + first as real + 2.0, 2.0, 4.0,
      30.0 + 2.0 * first as real + 4.0, 8.0, 8.0]
  {
    var d := Reading(1.0, 1.0, 1.0, 2.0);
    forall v: Variable, i | 0 <= i < 5
      ensures Value(w[i], v) == Value(w[0], v) + (i as real) * Value(d, v)
    {
      assert w[i] == ReferenceReading(first + i) && w[0] == ReferenceReading(first);
    }
    EvenlySpacedWindow(w, d);
    FeatureVectorLayout(w);
    assert Slot(Temperature) == 0 && Slot(Humidity) == 1 && Slot(Airflow) == 2 && Slot(CpuLoad) == 3;
    assert Value(w[0], Temperature) == 20.0 + first as real;
    assert Value(w[0], Humidity) == 50.0 + first as real;
    assert Value(w[0], Airflow) == 100.0 + first as real;
    assert Value(w[0], CpuLoad) == 30.0 + 2.0 * first as real;
  }

  /** The window is not ready after 0, 1, 2, 3 or 4 of 5 readings, and ready after the fifth. */
  method ReadinessScenario() returns (readiness: seq<bool>)
    ensures readiness == [false, false, false, false, false, true]
  {
    var e := new SlidingWindowFeatureExtractor(5);
    var r0 := e.IsWindowReady();
    e.AddPoint(ReferenceReading(0));
    var r1 := e.IsWindowReady();
    e.AddPoint(ReferenceReading(1));
    var r2 := e.IsWindowReady();
    e.AddPoint(ReferenceReading(2));
    var r3 := e.IsWindowReady();
    e.AddPoint(ReferenceReading(3));
    var r4 := e.IsWindowReady();
    e.AddPoint(ReferenceReading(4));
    var r5 := e.IsWindowReady();
    readiness := [r0, r1, r2, r3, r4, r5];
  }

  /** An extractor of capacity 5 that has received the first five reference readings. */
  method FilledExtractor() returns (e: SlidingWindowFeatureExtractor)
    ensures fresh(e) && e.Valid() && e.windowSize == 5
    ensures e.window == [ReferenceReading(0), ReferenceReading(1), ReferenceReading(2),
                         ReferenceReading(3), ReferenceReading(4)]
  {
    e := new SlidingWindowFeatureExtractor(5);
    e.AddPoint(ReferenceReading(0));
    assert e.window == [ReferenceReading(0)];
    e.AddPoint(ReferenceReading(1));
    assert e.window == [ReferenceReading(0), ReferenceReading(1)];
    e.AddPoint(ReferenceReading(2));
    assert e.window == [ReferenceReading(0), ReferenceReading(1), ReferenceReading(2)];
    e.AddPoint(ReferenceReading(3));
    assert e.window == [ReferenceReading(0), ReferenceReading(1), ReferenceReading(2), ReferenceReading(3)];
    e.AddPoint(ReferenceReading(4));
  }

  /** Five reference readings give the 12-vector of a full window. */
  method FullWindowScenario() returns (features: seq<real>)
    ensures features == [22.0, 2.0, 4.0, 52.0, 2.0, 4.0, 102.0, 2.0, 4.0, 34.0, 8.0, 8.0]
  {
    var e := FilledExtractor();
    var r := e.ExtractFeatures();
    ReferenceWindow(e.window, 0);
    features := r.value;
  }

  /** A sixth reading evicts the oldest one, and the vector is recomputed on the new window only. */
  method SlidingScenario() returns (oldest: real, newest: real, features: seq<real>)
    ensures oldest == 21.0 && newest == 25.0
    ensures features == [23.0, 2.0, 4.0, 53.0, 2.0, 4.0, 103.0, 2.0, 4.0, 36.0, 8.0, 8.0]
  {
    var e := FilledExtractor();
    e.AddPoint(ReferenceReading(5));
    assert e.window == [ReferenceReading(1), ReferenceReading(2), ReferenceReading(3),
                        ReferenceReading(4), ReferenceReading(5)];
    oldest, newest := e.window[0].temperature, e.window[4].temperature;
    var r := e.ExtractFeatures();
    ReferenceWindow(e.window, 1);
    features := r.value;
  }
}
