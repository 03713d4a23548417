# E-Habitat simulation back end, modelled in Dafny

This project models the simulation back end of the E-Habitat node simulator (csc400). It covers
three small physical models of one virtual compute node, the environment that composes them,
the node that produces telemetry, and the sliding-window feature extractor that turns a stream of
telemetry readings into the 12-value vector consumed by the anomaly detector.

- `clamping.dfy` (`Clamping`): `max(lo, min(hi, x))`, the clamp the models use for every
  out-of-range input.
- `thermal.dfy` (`Thermal`): `ThermalModel` has five configuration values and one mutable
  `temperature`. `Step(cpuLoad, dt)` clamps the load to [0, 1] and applies Newton cooling:
  `T + (k load - c (T - Tamb)) / (air_mass heat_capacity) dt`. A zero thermal mass leaves `T` as
  it is. The spec function `NextTemperature` states the update, and the lemmas beside it state
  clamping, the fixed points (both directions) and the direction of change.
- `airflow.dfy` (`Airflow`): `AirflowModel` holds an obstruction ratio that is clamped on every
  assignment, and a `currentFlow` that only `Step` recomputes as `nominal (1 - ratio)`. Fan
  failure and reset set the ratio to 1 and 0.
- `humidity.dfy` (`Humidity`): `HumidityModel` is a random walk with drift, clamped to [0, 100].
  The noise draw is a parameter of `Step`. `HumidityTrace` is the history of returned values for
  a given noise sequence.
- `environment.dfy` (`Environment`): `EnvironmentalModel.Step` advances its three sub-models
  once each and returns their three readings.
- `node.py` as written (`node.dfy`, `Node`): `VirtualNode` wraps a `ThermalModel` only. It
  generates the CPU load `clamp(0.5 + noise)` and returns a record with the node id, the
  timestamp, the temperature and the CPU load.
- `statistics.dfy` (`Statistics`) and `feature_extraction.dfy` (`FeatureExtraction`): the window
  is a `seq` field. `AddPoint` appends a reading and evicts the oldest one when the window is full,
  and `Slide` is the spec for that. `IsWindowReady` holds when the window is full.
  `ExtractFeatures` loops over the four tracked variables. For each one it emits the population
  mean, the population variance and last minus first. On a window that is not full it returns a
  `ValueError` result instead.

Python floats are modelled as `real`. The tests compare within 1e-6; here those comparisons
become exact equalities. Each random draw is a parameter, with a precondition giving the range
of the draw. "Same seed" in the determinism tests therefore becomes "same sequence of noise
values". Constructor arguments whose fields the source never reassigns are `const` fields, so
these models cannot change their configuration.

The unit tests appear as lemmas and as scenario methods. A scenario method builds fresh objects
and returns the values that the test checks.

## Model

| member | source | states |
|---|---|---|
| `Clamping.Clamp` | csc400/backend/simulation/thermal.py:67 | the clamped value lies in [lo, hi]; it equals x when x is in range, lo below the range and hi above it |
| `Thermal.ThermalModel.constructor` | csc400/backend/simulation/thermal.py:13-40 | stores the five configuration values and the initial temperature |
| `Thermal.ThermalModel.Step` | csc400/backend/simulation/thermal.py:42-81 | the new temperature is the clamped Newton-cooling update of the old one, or the old one when the thermal mass is 0; the returned value is the updated field; the configuration is const, so only `temperature` changes |
| `Thermal.LoadIsClamped` | csc400/backend/simulation/thermal.py:66-67 | a step under load l equals a step under clamp(l); any load <= 0 acts as 0 and any load >= 1 acts as 1 |
| `Thermal.UnchangedIffBalanced` | csc400/backend/simulation/thermal.py:69-79 | with nonzero thermal mass and nonzero dt, the temperature is unchanged if and only if heat power equals cooling power |
| `Thermal.FixedPoints` | csc400/backend/simulation/thermal.py:72-79 | zero thermal mass, or heat power equal to cooling power, leaves the temperature unchanged |
| `Thermal.Direction` | csc400/backend/simulation/thermal.py:69-79 | with positive thermal mass and dt > 0, the temperature rises iff heat power exceeds cooling power, and falls iff cooling power exceeds heat power |
| `Thermal.IdleHotNodeCools` | csc400/backend/tests/test_thermal.py:36-44 | at load 0, above ambient and with a positive cooling coefficient, the temperature falls |
| `Thermal.ReferenceNodeDirection` | csc400/backend/tests/test_thermal.py:15-44 | for the reference node, full load from 21 C raises the temperature and idling from 30 C lowers it |
| `Thermal.ReferenceNodeClamping` | csc400/backend/tests/test_thermal.py:46-66 | for the reference node at 21 C, load -1 gives the same result as load 0, and load 2 the same as load 1 |
| `Thermal.ReferenceNodeEquilibrium` | csc400/backend/tests/test_thermal.py:103-119 | 500 x 0.6 = 300 x (21 - 20), so the reference node stays at exactly 21 C |
| `Airflow.FlowFor` | csc400/backend/simulation/airflow.py:35 | ratio 0 gives the nominal flow and ratio 1 gives 0; with a non-negative nominal flow and a ratio in [0, 1], the flow lies in [0, nominal] |
| `Airflow.AirflowModel.ClampObstruction` | csc400/backend/simulation/airflow.py:24-26 | the ratio pulled into [0, 1]: unchanged inside the range, 0 below it, 1 above it |
| `Airflow.AirflowModel.constructor` | csc400/backend/simulation/airflow.py:10-22 | stores the clamped ratio, and a current flow of nominal x (1 - clamped ratio) |
| `Airflow.AirflowModel.Step` | csc400/backend/simulation/airflow.py:28-36 | sets the current flow to nominal x (1 - ratio), returns it, and changes nothing else |
| `Airflow.AirflowModel.SetObstruction` | csc400/backend/simulation/airflow.py:38-45 | stores clamp(ratio) and keeps the ratio invariant 0 <= ratio <= 1; the current flow stays as it was until the next step |
| `Airflow.AirflowModel.SimulateFanFailure` | csc400/backend/simulation/airflow.py:47-52 | the ratio becomes 1; the current flow is untouched |
| `Airflow.AirflowModel.Reset` | csc400/backend/simulation/airflow.py:54-58 | the ratio becomes 0; the current flow is untouched |
| `Airflow.StepTwice` | csc400/backend/simulation/airflow.py:35-36 | step is idempotent: two successive calls return the same flow, and the ratio does not change |
| `Airflow.LinearityScenario` | csc400/backend/tests/test_airflow_model.py:15-39 | with nominal flow 100, ratios 0, 0.5 and 1 give flows 100, 50 and 0 |
| `Airflow.ClampingScenario` | csc400/backend/tests/test_airflow_model.py:41-57 | ratios -0.5, 1.5 and 0.3 are stored as 0, 1 and 0.3, and give flows 100, 0 and 70 |
| `Airflow.FailureAndResetScenario` | csc400/backend/tests/test_airflow_model.py:59-77 | after a fan failure the ratio is 1 and the flow 0; after a reset the ratio is 0 and the flow 100 |
| `Humidity.NextHumidity` | csc400/backend/simulation/humidity.py:43-44 | the new humidity always lies in [0, 100]; it equals h + drift + noise when that is in range, 100 above the range and 0 below it |
| `Humidity.HumidityTrace` | csc400/backend/simulation/humidity.py:26-46 | over any number of steps there is one value per noise draw, and every value lies in [0, 100] |
| `Humidity.HumidityModel.constructor` | csc400/backend/simulation/humidity.py:9-24 | stores the initial humidity unclamped, plus drift and amplitude |
| `Humidity.HumidityModel.Step` | csc400/backend/simulation/humidity.py:26-46 | for a noise within the amplitude, the new humidity is clamp(h + drift + noise, 0, 100); it is returned and lies in [0, 100] |
| `Humidity.SameNoiseSameHistory` | csc400/backend/tests/test_humidity_model.py:4-12 | two distinct models in the same state, given the same noise draws, return identical histories; both equal the trace of their common start |
| `Humidity.NoiseRecoverable` | csc400/backend/tests/test_humidity_model.py:63-84 | when a step is not clamped, new - old - drift is the noise, so it lies within the amplitude |
| `Humidity.ClampExamples` | csc400/backend/tests/test_humidity_model.py:36-61 | with no noise, drift 5 from 99 gives exactly 100 and drift -5 from 1 gives exactly 0 |
| `Humidity.PositiveDriftRaises` | csc400/backend/tests/test_humidity_model.py:14-23 | with no noise and a positive drift, no step falls below the start, and every step rises above a start below 100 |
| `Humidity.NegativeDriftLowers` | csc400/backend/tests/test_humidity_model.py:25-34 | with no noise and a negative drift, no step rises above the start, and every step falls below a start above 0 |
| `Environment.EnvironmentalModel.constructor` | csc400/backend/simulation/environment.py:11-22 | stores the three sub-models |
| `Environment.EnvironmentalModel.Step` | csc400/backend/simulation/environment.py:24-43 | each sub-model advances by exactly one step: thermal under the unchanged load for dt = 1, airflow recomputed, humidity under the drawn noise; the reading is the three new values; airflow and humidity do not depend on the load; humidity lies in [0, 100]; only the three owned sub-models change |
| `Environment.SameInputsSameHistory` | csc400/backend/tests/test_environment_model.py:43-68 | two environments whose six sub-models are distinct and start in the same state, given the same loads and noise draws, produce identical histories and end in the same state |
| `Node.VirtualNode.constructor` | csc400/backend/simulation/node.py:17-33 | stores the node id and the thermal model |
| `Node.VirtualNode.GenerateCpuLoad` | csc400/backend/simulation/node.py:37-49 | for noise in [-0.05, 0.05], the load is 0.5 + noise, so the clamp never acts, and the load lies in [0.45, 0.55] |
| `Node.VirtualNode.Step` | csc400/backend/simulation/node.py:51-67 | the thermal model advances once (dt = 1) under the generated load; the record carries the node id, the given timestamp, that step's temperature and the same load |
| `Node.GeneratedLoadNeedsNoClamp` | csc400/backend/simulation/node.py:46-59 | the thermal model's clamp leaves a generated load unchanged: heat power is k x (0.5 + noise) |
| `Node.TemperatureTrace` | csc400/backend/simulation/node.py:58-59 | the temperatures of successive node steps, one per noise draw |
| `Node.SameNoiseSameTrace` | csc400/backend/tests/test_thermal_model.py:65-95 | two nodes with distinct thermal models in the same state, given the same noise draws, report identical temperatures (the trace of the common start) and identical CPU loads, each in [0.45, 0.55]; each record carries its node's id |
| `Statistics.SumSquaredDeviations` | csc400/backend/ml/feature_extraction.py:59 | a sum of squared deviations is never negative |
| `Statistics.PopulationVariance` | csc400/backend/ml/feature_extraction.py:59 | the population variance (divide by N) is never negative |
| `Statistics.MeanWithin` | csc400/backend/ml/feature_extraction.py:58 | the mean of values within [lo, hi] lies within [lo, hi] |
| `Statistics.SumWithin` | csc400/backend/ml/feature_extraction.py:58 | N values within [lo, hi] sum to between N x lo and N x hi |
| `Statistics.SumOfConstant` | csc400/backend/ml/feature_extraction.py:58-59 | N copies of c sum to N x c and have no squared deviation from c |
| `Statistics.ConstantSeries` | csc400/backend/ml/feature_extraction.py:58-60 | a constant series has mean c, variance 0 and rate of change 0 |
| `Statistics.EvenlySpacedFive` | csc400/backend/tests/test_feature_extraction.py:41-93 | the values a, a+d, ..., a+4d have mean a+2d, population variance 2d^2 and rate of change 4d (for 20..24: 22, 2, 4) |
| `FeatureExtraction.Slot` | csc400/backend/ml/feature_extraction.py:19 | each variable has a fixed position in the tracked-variable list |
| `FeatureExtraction.Features` | csc400/backend/ml/feature_extraction.py:54-64 | the feature vector always has exactly 12 values |
| `FeatureExtraction.FeaturesOfLayout` | csc400/backend/ml/feature_extraction.py:55-62 | for any variable list, triple k of the concatenation is the triple of variable k, and the length is 3 x the number of variables |
| `FeatureExtraction.FeatureVectorLayout` | csc400/backend/ml/feature_extraction.py:44-62 | for the variable in slot s: feature 3s is the mean of its window values, 3s+1 their population variance, and 3s+2 the last minus the first |
| `FeatureExtraction.Slide` | csc400/backend/ml/feature_extraction.py:18-28 | appending to a window that is not full appends; appending to a full window drops exactly the oldest reading; the length is min(old + 1, window size) |
| `FeatureExtraction.WindowAfter` | csc400/backend/ml/feature_extraction.py:18 | whatever arrives, the window never holds more than window_size readings |
| `FeatureExtraction.WindowHoldsLatest` | csc400/backend/ml/feature_extraction.py:18-37 | after any sequence of additions, the window is the last min(n, count) readings in arrival order; it is full if and only if at least n readings have arrived |
| `FeatureExtraction.SlidingWindowFeatureExtractor.constructor` | csc400/backend/ml/feature_extraction.py:10-19 | stores the window size (at least 1) with an empty window; the const variable list is temperature, humidity, airflow, cpu_load |
| `FeatureExtraction.SlidingWindowFeatureExtractor.AddPoint` | csc400/backend/ml/feature_extraction.py:21-28 | the new window is the old one with the reading appended, truncated to its last window_size readings; the bound on the length is kept |
| `FeatureExtraction.SlidingWindowFeatureExtractor.ExtractFeatures` | csc400/backend/ml/feature_extraction.py:39-64 | fails with a ValueError if and only if the window is not full; otherwise it returns the 12-value feature vector of the current window |
| `FeatureExtraction.EvenlySpacedWindow` | csc400/backend/tests/test_feature_extraction.py:41-93 | for a five-reading window where each variable moves by a constant step d, its slots are the middle value, 2d^2 and 4d |
| `FeatureExtraction.ReferenceWindow` | csc400/backend/tests/test_feature_extraction.py:15-21 | the full 12-value vector of five consecutive readings of the test series |
| `FeatureExtraction.ReadinessScenario` | csc400/backend/tests/test_feature_extraction.py:23-31 | a size-5 window is not ready after 0 to 4 additions and is ready after the fifth |
| `FeatureExtraction.FilledExtractor` | csc400/backend/tests/test_feature_extraction.py:11-21 | a fresh size-5 extractor fed the five test readings holds exactly them, in order |
| `FeatureExtraction.FullWindowScenario` | csc400/backend/tests/test_feature_extraction.py:33-93 | the five test readings give [22, 2, 4, 52, 2, 4, 102, 2, 4, 34, 8, 8] |
| `FeatureExtraction.SlidingScenario` | csc400/backend/tests/test_feature_extraction.py:95-118 | a sixth reading evicts the oldest: the window runs from temperature 21 to 25, and the vector is recomputed on it as [23, 2, 4, 53, 2, 4, 103, 2, 4, 36, 8, 8] |

`IsWindowReady` (csc400/backend/ml/feature_extraction.py:30-37) is a predicate: the window is
full. Its behaviour over a run of additions is stated by `WindowHoldsLatest` and
`ReadinessScenario`.

## Left out

- Random number generation: `random.seed` (node.py:35), the per-model `random.Random`
  (humidity.py:22-24) and the global stream fallback (humidity.py:41). Each draw is a parameter
  instead. The optional `random_seed` constructor arguments are therefore not modelled.
- The wall-clock timestamp (`datetime.now`, node.py:63) is a `string` parameter of
  `VirtualNode.Step`.
- Floating-point rounding, NaN and the numpy internals are left out; every float is a `real`.
- `ThermalModel.Step`'s `dt` defaults to 1.0 in the source. The model passes `dt` explicitly,
  and the environment and the node pass 1.0 as the source does.
- The extractor's constructor requires `window_size >= 1`; the source does not check it. Size 0
  would make `extract_features` take the mean of an empty list and index it. A negative size
  makes the deque constructor raise.
- `extract_features` reads the four keys from each telemetry dictionary; a `Reading` is a record
  holding exactly those four values, and other keys (timestamp, node id) are not part of it.
  The records `VirtualNode.step` produces carry no humidity or airflow key, so the source's
  node records could not be fed to the extractor directly.
- `VirtualNode` is modelled as written: it takes a thermal model only. Some tests construct it
  with an `EnvironmentalModel` (tests/test_thermal.py:84, ml/generate_baseline_data.py:47-51);
  that duck-typed use is not modelled. No spike injection or anomaly scoring exists in this
  `node.py`, so none is modelled.
- The anomaly model (ml/model_loader.py) and its IsolationForest inference, training
  (ml/train_model.py), baseline data generation (ml/generate_baseline_data.py), the CLI runner
  (simulation/runner.py), the HTTP API (api.py) and the React front end (app/) are not part of
  this model: they are library calls, file I/O or rendering. `backend/simulation/thermal_model.py`,
  which the runner, the API and tests/test_thermal_model.py import, is not part of this model.
  The node determinism property is stated against `node.py` and `thermal.py` instead.
- Humidity: a noise draw of `uniform(-a, a)` lies between -|a| and |a| even for a negative
  amplitude, and the precondition of `HumidityModel.Step` says exactly that.
- The determinism tests also check that a different seed gives different results. Two different
  noise sequences can give equal results, so that half is a property of the random generator and
  is not stated.
- Aliasing: the twin determinism methods require their models to be distinct objects. If two
  environments or nodes shared a sub-model, stepping one would change the other.
