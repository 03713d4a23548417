/** Humidity as a random walk with constant drift and bounded noise, kept within [0, 100]. */
module Humidity {
  import opened Clamping

  function Abs(x: real): real { if x < 0.0 then -x else x }

  /** A draw of `uniform(-amplitude, amplitude)`: it lies between the two bounds whatever their order. */
  predicate NoiseInRange(amplitude: real, noise: real) {
    -Abs(amplitude) <= noise <= Abs(amplitude)
  }

  /** The humidity one step after `humidity`: drift plus noise added, then clamped to [0, 100]. */
  function NextHumidity(humidity: real, drift: real, noise: real): (r: real)
    ensures 0.0 <= r <= 100.0
    ensures 0.0 <= humidity + drift + noise <= 100.0 ==> r == humidity + drift + noise
    ensures 100.0 < humidity + drift + noise ==> r == 100.0
    ensures humidity + drift + noise < 0.0 ==> r == 0.0
  {
    Clamp(humidity + drift + noise, 0.0, 100.0)
  }

  /** The values returned by successive steps from `humidity`, one per noise draw. */
  function HumidityTrace(humidity: real, drift: real, noises: seq<real>): (trace: seq<real>)
    ensures |trace| == |noises|
    ensures forall i :: 0 <= i < |trace| ==> 0.0 <= trace[i] <= 100.0
    decreases noises
  {
    if noises == [] then []
    else
      var next := NextHumidity(humidity, drift, noises[0]);
      [next] + HumidityTrace(next, drift, noises[1..])
  }

  class HumidityModel {
    var currentHumidity: real
    const drift: real
    const noiseAmplitude: real

    constructor (initialHumidity: real, drift: real, noiseAmplitude: real)
      ensures currentHumidity == initialHumidity
      ensures this.drift == drift && this.noiseAmplitude == noiseAmplitude
    {
      this.currentHumidity := initialHumidity;
      this.drift := drift;
      this.noiseAmplitude := noiseAmplitude;
    }

    /** Advances the humidity by one step under the drawn `noise` and returns it. */
    method Step(noise: real) returns (h: real)
      requires NoiseInRange(noiseAmplitude, noise)
      modifies this`currentHumidity
      ensures currentHumidity == NextHumidity(old(currentHumidity), drift, noise)
      ensures h == currentHumidity && 0.0 <= h <= 100.0
    {
      currentHumidity := currentHumidity + drift + noise;
      currentHumidity := Clamp(currentHumidity, 0.0, 100.0);
      return currentHumidity;
    }
  }

  /** Two models in the same state, fed the same noise draws, return the same history,
      which is the trace of their common initial state. */
  method SameNoiseSameHistory(m1: HumidityModel, m2: HumidityModel, noises: seq<real>)
    returns (history1: seq<real>, history2: seq<real>)
    requires m1 != m2
    requires m1.currentHumidity == m2.currentHumidity
    requires m1.drift == m2.drift && m1.noiseAmplitude == m2.noiseAmplitude
    requires forall i :: 0 <= i < |noises| ==> NoiseInRange(m1.noiseAmplitude, noises[i])
    modifies m1`currentHumidity, m2`currentHumidity
    ensures history1 == history2 == HumidityTrace(old(m1.currentHumidity), m1.drift, noises)
  {
    history1, history2 := [], [];
    var i := 0;
    while i < |noises|
      invariant 0 <= i <= |noises|
      invariant m1.currentHumidity == m2.currentHumidity
      invariant history1 == history2
      invariant history1 + HumidityTrace(m1.currentHumidity, m1.drift, noises[i..])
             == HumidityTrace(old(m1.currentHumidity), m1.drift, noises)
    {
      assert noises[i..][1..] == noises[i + 1..];
      var h1 := m1.Step(noises[i]);
      var h2 := m2.Step(noises[i]);
      history1, history2 := history1 + [h1], history2 + [h2];
      i := i + 1;
    }
    assert noises[i..] == [];
  }

  /** Without clamping, what a step added beyond the drift is the noise, so it lies within the amplitude. */
  lemma NoiseRecoverable(humidity: real, drift: real, amplitude: real, noise: real)
    requires NoiseInRange(amplitude, noise)
    requires 0.0 < NextHumidity(humidity, drift, noise) < 100.0
    ensures NextHumidity(humidity, drift, noise) - humidity - drift == noise
    ensures -Abs(amplitude) <= NextHumidity(humidity, drift, noise) - humidity - drift <= Abs(amplitude)
  {
  }

  /** Without noise, a step from 99 with drift 5 stops at exactly 100, and from 1 with drift -5 at exactly 0. */
  lemma ClampExamples()
    ensures NextHumidity(99.0, 5.0, 0.0) == 100.0
    ensures NextHumidity(1.0, -5.0, 0.0) == 0.0
  {
  }

  /** Without noise and with a positive drift, humidity never falls below its start, and rises above any
      start below 100. */
  lemma {:induction false} PositiveDriftRaises(humidity: real, drift: real, noises: seq<real>)
    requires 0.0 <= humidity <= 100.0 && drift > 0.0
    requires forall i :: 0 <= i < |noises| ==> noises[i] == 0.0
    decreases noises
    ensures forall i :: 0 <= i < |noises| ==> HumidityTrace(humidity, drift, noises)[i] >= humidity
    ensures humidity < 100.0 ==>
      forall i :: 0 <= i < |noises| ==> HumidityTrace(humidity, drift, noises)[i] > humidity
  {
    if noises != [] {
      var next := NextHumidity(humidity, drift, noises[0]);
      assert next >= humidity && (humidity < 100.0 ==> next > humidity);
      PositiveDriftRaises(next, drift, noises[1..]);
      assert HumidityTrace(humidity, drift, noises) == [next] + HumidityTrace(next, drift, noises[1..]);
    }
  }

  /** Without noise and with a negative drift, humidity never rises above its start, and falls below any
      start above 0. */
  lemma {:induction false} NegativeDriftLowers(humidity: real, drift: real, noises: seq<real>)
    requires 0.0 <= humidity <= 100.0 && drift < 0.0
    requires forall i :: 0 <= i < |noises| ==> noises[i] == 0.0
    decreases noises
    ensures forall i :: 0 <= i < |noises| ==> HumidityTrace(humidity, drift, noises)[i] <= humidity
    ensures 0.0 < humidity ==>
      forall i :: 0 <= i < |noises| ==> HumidityTrace(humidity, drift, noises)[i] < humidity
  {
    if noises != [] {
      var next := NextHumidity(humidity, drift, noises[0]);
      assert next <= humidity && (0.0 < humidity ==> next < humidity);
      NegativeDriftLowers(next, drift, noises[1..]);
      assert HumidityTrace(humidity, drift, noises) == [next] + HumidityTrace(next, drift, noises[1..]);
    }
  }
}
