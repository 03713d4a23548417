/** The environment of one node: a thermal, an airflow and a humidity model advanced together. */
module Environment {
  import opened Thermal
  import opened Airflow
  import opened Humidity

  /** The combined reading of one step. */
  datatype EnvironmentReading = EnvironmentReading(temperature: real, airflow: real, humidity: real)

  class EnvironmentalModel {
    const thermalModel: ThermalModel
    const airflowModel: AirflowModel
    const humidityModel: HumidityModel

    constructor (thermalModel: ThermalModel, airflowModel: AirflowModel, humidityModel: HumidityModel)
      ensures this.thermalModel == thermalModel
      ensures this.airflowModel == airflowModel
      ensures this.humidityModel == humidityModel
    {
      this.thermalModel := thermalModel;
      this.airflowModel := airflowModel;
      this.humidityModel := humidityModel;
    }

    /** Advances each sub-model by one step (the thermal one under `cpuLoad` for 1 s, the humidity one
        under the drawn `humidityNoise`) and returns their three readings. */
    method Step(cpuLoad: real, humidityNoise: real) returns (reading: EnvironmentReading)
      requires NoiseInRange(humidityModel.noiseAmplitude, humidityNoise)
      modifies thermalModel`temperature, airflowModel`currentFlow, humidityModel`currentHumidity
      ensures thermalModel.temperature
           == NextTemperature(thermalModel.Config(), old(thermalModel.temperature), cpuLoad, 1.0)
      ensures airflowModel.currentFlow == FlowFor(airflowModel.nominalFlow, airflowModel.obstructionRatio)
      ensures airflowModel.obstructionRatio == old(airflowModel.obstructionRatio)
      ensures humidityModel.currentHumidity
           == NextHumidity(old(humidityModel.currentHumidity), humidityModel.drift, humidityNoise)
      ensures reading == EnvironmentReading(thermalModel.temperature, airflowModel.currentFlow,
                                            humidityModel.currentHumidity)
      ensures 0.0 <= reading.humidity <= 100.0
    {
      var temperature := thermalModel.Step(cpuLoad, 1.0);
      var airflow := airflowModel.Step();
      var humidity := humidityModel.Step(humidityNoise);
      return EnvironmentReading(temperature, airflow, humidity);
    }
  }

  /** The two environments own six distinct sub-models and agree on every configuration field and on
      every state field a step reads (the stored current flow is recomputed before it is read). */
  ghost predicate SameState(e1: EnvironmentalModel, e2: EnvironmentalModel)
    reads e1, e2, e1.thermalModel, e2.thermalModel, e1.airflowModel, e2.airflowModel,
          e1.humidityModel, e2.humidityModel
  {
    && e1.thermalModel != e2.thermalModel
    && e1.airflowModel != e2.airflowModel
    && e1.humidityModel != e2.humidityModel
    && e1.thermalModel.Config() == e2.thermalModel.Config()
    && e1.thermalModel.temperature == e2.thermalModel.temperature
    && e1.airflowModel.nominalFlow == e2.airflowModel.nominalFlow
    && e1.airflowModel.obstructionRatio == e2.airflowModel.obstructionRatio
    && e1.humidityModel.drift == e2.humidityModel.drift
    && e1.humidityModel.noiseAmplitude == e2.humidityModel.noiseAmplitude
    && e1.humidityModel.currentHumidity == e2.humidityModel.currentHumidity
  }

  /** Two environments in the same state, driven by the same loads and the same humidity noise draws,
      produce the same history of readings and end in the same state. */
  method SameInputsSameHistory(e1: EnvironmentalModel, e2: EnvironmentalModel,
                               loads: seq<real>, noises: seq<real>)
    returns (history1: seq<EnvironmentReading>, history2: seq<EnvironmentReading>)
    requires SameState(e1, e2)
    requires |loads| == |noises|
    requires forall i :: 0 <= i < |noises| ==> NoiseInRange(e1.humidityModel.noiseAmplitude, noises[i])
    modifies e1.thermalModel`temperature, e1.airflowModel`currentFlow, e1.humidityModel`currentHumidity
    modifies e2.thermalModel`temperature, e2.airflowModel`currentFlow, e2.humidityModel`currentHumidity
    ensures history1 == history2 && |history1| == |loads|
    ensures SameState(e1, e2)
  {
    history1, history2 := [], [];
    var i := 0;
    while i < |loads|
      invariant 0 <= i <= |loads|
      invariant SameState(e1, e2)
      invariant history1 == history2 && |history1| == i
    {
      var r1 := e1.Step(loads[i], noises[i]);
      var r2 := e2.Step(loads[i], noises[i]);
      history1, history2 := history1 + [r1], history2 + [r2];
      i := i + 1;
    }
  }
}
