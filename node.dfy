/** A virtual compute node: a generated CPU load drives its thermal model, one telemetry record per step. */
module Node {
  import opened Clamping
  import opened Thermal

  /** The telemetry record of one step; `timestamp` is the wall-clock time supplied by the caller. */
  datatype Telemetry = Telemetry(nodeId: string, timestamp: string, temperature: real, cpuLoad: real)

  const BaselineLoad: real := 0.5
  const LoadNoiseAmplitude: real := 0.05

  class VirtualNode {
    const nodeId: string
    const thermalModel: ThermalModel

    constructor (nodeId: string, thermalModel: ThermalModel)
      ensures this.nodeId == nodeId && this.thermalModel == thermalModel
    {
      this.nodeId := nodeId;
      this.thermalModel := thermalModel;
    }

    /** The load for a step: the baseline plus the drawn `noise`, clamped to [0, 1]. The clamp never
        bites, since the load always stays within [0.45, 0.55]. */
    static function GenerateCpuLoad(noise: real): (load: real)
      requires -LoadNoiseAmplitude <= noise <= LoadNoiseAmplitude
      ensures load == BaselineLoad + noise
      ensures 0.45 <= load <= 0.55
    {
      var cpuLoad := BaselineLoad + noise;
      Clamp(cpuLoad, 0.0, 1.0)
    }

    /** Advances the thermal model once (1 s) under the load generated from `noise`, and reports. */
    method Step(noise: real, timestamp: string) returns (telemetry: Telemetry)
      requires -LoadNoiseAmplitude <= noise <= LoadNoiseAmplitude
      modifies thermalModel`temperature
      ensures thermalModel.temperature
           == NextTemperature(thermalModel.Config(), old(thermalModel.temperature), GenerateCpuLoad(noise), 1.0)
      ensures telemetry == Telemetry(nodeId, timestamp, thermalModel.temperature, GenerateCpuLoad(noise))
    {
      var cpuLoad := GenerateCpuLoad(noise);
      var temperature := thermalModel.Step(cpuLoad, 1.0);
      telemetry := Telemetry(nodeId, timestamp, temperature, cpuLoad);
    }
  }

  /** The thermal model's own clamp leaves every generated load as it is. */
  lemma GeneratedLoadNeedsNoClamp(c: ThermalConfig, temperature: real, noise: real, dt: real)
    requires -LoadNoiseAmplitude <= noise <= LoadNoiseAmplitude
    ensures c.HeatPower(VirtualNode.GenerateCpuLoad(noise)) == c.heatCoefficient * (BaselineLoad + noise)
    ensures c.ThermalMass() != 0.0 ==>
      NextTemperature(c, temperature, VirtualNode.GenerateCpuLoad(noise), dt)
      == temperature + (c.heatCoefficient * (BaselineLoad + noise) - c.CoolingPower(temperature))
                       / c.ThermalMass() * dt
  {
  }

  /** The temperatures a node reports from `temperature` on, one per noise draw. */
  function TemperatureTrace(c: ThermalConfig, temperature: real, noises: seq<real>): (trace: seq<real>)
    requires forall i :: 0 <= i < |noises| ==> -LoadNoiseAmplitude <= noises[i] <= LoadNoiseAmplitude
    ensures |trace| == |noises|
    decreases noises
  {
    if noises == [] then []
    else
      var next := NextTemperature(c, temperature, VirtualNode.GenerateCpuLoad(noises[0]), 1.0);
      [next] + TemperatureTrace(c, next, noises[1..])
  }

  /** Two nodes whose separate thermal models start in the same state, fed the same noise draws, report
      the same temperatures and CPU loads: the temperatures are the trace of the common start, each load
      lies in [0.45, 0.55], and every record carries its node's id. */
  method SameNoiseSameTrace(n1: VirtualNode, n2: VirtualNode, noises: seq<real>, timestamps: seq<string>)
    returns (records1: seq<Telemetry>, records2: seq<Telemetry>)
    requires n1.thermalModel != n2.thermalModel
    requires n1.thermalModel.Config() == n2.thermalModel.Config()
    requires n1.thermalModel.temperature == n2.thermalModel.temperature
    requires |timestamps| == |noises|
    requires forall i :: 0 <= i < |noises| ==> -LoadNoiseAmplitude <= noises[i] <= LoadNoiseAmplitude
    modifies n1.thermalModel`temperature, n2.thermalModel`temperature
    ensures |records1| == |records2| == |noises|
    ensures forall k :: 0 <= k < |noises| ==>
      && records1[k].temperature == records2[k].temperature
      && records1[k].temperature == TemperatureTrace(n1.thermalModel.Config(), old(n1.thermalModel.temperature), noises)[k]
      && records1[k].cpuLoad == records2[k].cpuLoad == VirtualNode.GenerateCpuLoad(noises[k])
      && 0.45 <= records1[k].cpuLoad <= 0.55
      && records1[k].nodeId == n1.nodeId && records2[k].nodeId == n2.nodeId
  {
    ghost var trace := TemperatureTrace(n1.thermalModel.Config(), n1.thermalModel.temperature, noises);
    records1, records2 := [], [];
    var i := 0;
    while i < |noises|
      invariant 0 <= i <= |noises|
      invariant |records1| == |records2| == i
      invariant n1.thermalModel.temperature == n2.thermalModel.temperature
      invariant TemperatureTrace(n1.thermalModel.Config(), n1.thermalModel.temperature, noises[i..]) == trace[i..]
      invariant forall k :: 0 <= k < i ==>
        && records1[k].temperature == records2[k].temperature == trace[k]
        && records1[k].cpuLoad == records2[k].cpuLoad == VirtualNode.GenerateCpuLoad(noises[k])
        && records1[k].nodeId == n1.nodeId && records2[k].nodeId == n2.nodeId
    {
      assert noises[i..][1..] == noises[i + 1..];
      assert trace[i..][1..] == trace[i + 1..];
      var t1 := n1.Step(noises[i], timestamps[i]);
      var t2 := n2.Step(noises[i], timestamps[i]);
      records1, records2 := records1 + [t1], records2 + [t2];
      i := i + 1;
    }
  }
}
