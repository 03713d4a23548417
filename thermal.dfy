/** Heat-transfer model of one virtual node: CPU load heats the air, Newton's law cools it. */
module Thermal {
  import opened Clamping

  /** The five configuration values of a thermal model, fixed once it is built. */
  datatype ThermalConfig = ThermalConfig(
    airMass: real,
    heatCapacity: real,
    heatCoefficient: real,
    coolingCoefficient: real,
    ambientTemperature: real)
  {
    /** `air_mass * heat_capacity`, in J/C. */
    function ThermalMass(): real { airMass * heatCapacity }

    /** Heat generated under `cpuLoad`, the load first clamped to [0, 1]. */
    function HeatPower(cpuLoad: real): real { heatCoefficient * Clamp(cpuLoad, 0.0, 1.0) }

    /** Power lost to the surroundings at `temperature` (Newton's law of cooling). */
    function CoolingPower(temperature: real): real { coolingCoefficient * (temperature - ambientTemperature) }
  }

  /** The temperature one step of `dt` seconds after `temperature`; zero thermal mass freezes it. */
  function NextTemperature(c: ThermalConfig, temperature: real, cpuLoad: real, dt: real): real
  {
    if c.ThermalMass() == 0.0 then temperature
    else temperature + (c.HeatPower(cpuLoad) - c.CoolingPower(temperature)) / c.ThermalMass() * dt
  }

  class ThermalModel {
    const airMass: real
    const heatCapacity: real
    const heatCoefficient: real
    const coolingCoefficient: real
    const ambientTemperature: real
    var temperature: real

    /** The configuration fields, bundled. */
    function Config(): ThermalConfig {
      ThermalConfig(airMass, heatCapacity, heatCoefficient, coolingCoefficient, ambientTemperature)
    }

    constructor (airMass: real, heatCapacity: real, heatCoefficient: real,
                 coolingCoefficient: real, initialTemperature: real, ambientTemperature: real)
      ensures Config() == ThermalConfig(airMass, heatCapacity, heatCoefficient, coolingCoefficient, ambientTemperature)
      ensures temperature == initialTemperature
    {
      this.airMass := airMass;
      this.heatCapacity := heatCapacity;
      this.heatCoefficient := heatCoefficient;
      this.coolingCoefficient := coolingCoefficient;
      this.temperature := initialTemperature;
      this.ambientTemperature := ambientTemperature;
    }

    /** Advances the temperature by one step of `dt` seconds and returns it. */
    method Step(cpuLoad: real, dt: real) returns (t: real)
      modifies this`temperature
      ensures temperature == NextTemperature(Config(), old(temperature), cpuLoad, dt)
      ensures t == temperature
    {
      var clampedCpuLoad := Clamp(cpuLoad, 0.0, 1.0);
      var pHeat := heatCoefficient * clampedCpuLoad;
      var coolingPower := coolingCoefficient * (temperature - ambientTemperature);
      var thermalMass := airMass * heatCapacity;
      if thermalMass == 0.0 {
        return temperature;
      }
      var temperatureChange := (pHeat - coolingPower) / thermalMass * dt;
      temperature := temperature + temperatureChange;
      return temperature;
    }
  }

  /** A load is only ever used clamped: any load at or below 0 acts as 0, any at or above 1 as 1. */
  lemma LoadIsClamped(c: ThermalConfig, temperature: real, cpuLoad: real, dt: real)
    ensures NextTemperature(c, temperature, cpuLoad, dt)
         == NextTemperature(c, temperature, Clamp(cpuLoad, 0.0, 1.0), dt)
    ensures cpuLoad <= 0.0 ==> NextTemperature(c, temperature, cpuLoad, dt) == NextTemperature(c, temperature, 0.0, dt)
    ensures 1.0 <= cpuLoad ==> NextTemperature(c, temperature, cpuLoad, dt) == NextTemperature(c, temperature, 1.0, dt)
  {
  }

  /** With a nonzero thermal mass and a nonzero step, the temperature stays put exactly at equilibrium. */
  lemma UnchangedIffBalanced(c: ThermalConfig, temperature: real, cpuLoad: real, dt: real)
    requires c.ThermalMass() != 0.0 && dt != 0.0
    ensures NextTemperature(c, temperature, cpuLoad, dt) == temperature
        <==> c.HeatPower(cpuLoad) == c.CoolingPower(temperature)
  {
  }

  /** Zero thermal mass, or heat power balancing cooling power, leaves the temperature unchanged. */
  lemma FixedPoints(c: ThermalConfig, temperature: real, cpuLoad: real, dt: real)
    requires c.ThermalMass() == 0.0 || c.HeatPower(cpuLoad) == c.CoolingPower(temperature)
    ensures NextTemperature(c, temperature, cpuLoad, dt) == temperature
  {
  }

  /** With positive thermal mass and a forward step, temperature rises exactly when heating beats cooling
      and falls exactly when cooling beats heating. */
  lemma Direction(c: ThermalConfig, temperature: real, cpuLoad: real, dt: real)
    requires c.ThermalMass() > 0.0 && dt > 0.0
    ensures NextTemperature(c, temperature, cpuLoad, dt) > temperature
        <==> c.HeatPower(cpuLoad) > c.CoolingPower(temperature)
    ensures NextTemperature(c, temperature, cpuLoad, dt) < temperature
        <==> c.HeatPower(cpuLoad) < c.CoolingPower(temperature)
  {
  }

  /** An idle node hotter than its surroundings cools down whenever cooling is effective. */
  lemma IdleHotNodeCools(c: ThermalConfig, temperature: real, dt: real)
    requires c.ThermalMass() > 0.0 && dt > 0.0
    requires c.coolingCoefficient > 0.0 && temperature > c.ambientTemperature
    ensures NextTemperature(c, temperature, 0.0, dt) < temperature
  {
  }

  /** The configuration of the reference node: 50 kg of air, 1005 J/(kg C), 500 W, 300 W/C, ambient 20 C. */
  const ReferenceConfig: ThermalConfig := ThermalConfig(50.0, 1005.0, 500.0, 300.0, 20.0)

  /** At 21 C the reference node heats up under full load and, at 30 C, cools down when idle. */
  lemma ReferenceNodeDirection()
    ensures NextTemperature(ReferenceConfig, 21.0, 1.0, 1.0) > 21.0
    ensures NextTemperature(ReferenceConfig, 30.0, 0.0, 1.0) < 30.0
  {
  }

  /** For the reference node at 21 C, load -1 acts as load 0 and load 2 as load 1. */
  lemma ReferenceNodeClamping()
    ensures NextTemperature(ReferenceConfig, 21.0, -1.0, 1.0) == NextTemperature(ReferenceConfig, 21.0, 0.0, 1.0)
    ensures NextTemperature(ReferenceConfig, 21.0, 2.0, 1.0) == NextTemperature(ReferenceConfig, 21.0, 1.0, 1.0)
  {
  }

  /** At 21 C under load 0.6 the reference node is at equilibrium: 500 * 0.6 = 300 * (21 - 20). */
  lemma ReferenceNodeEquilibrium()
    ensures NextTemperature(ReferenceConfig, 21.0, 0.6, 1.0) == 21.0
  {
  }
}
