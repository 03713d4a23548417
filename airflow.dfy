/** Airflow through a node: the nominal flow reduced by an obstruction ratio kept in [0, 1]. */
module Airflow {
  import opened Clamping

  /** The flow that `obstructionRatio` leaves of `nominalFlow`. */
  function FlowFor(nominalFlow: real, obstructionRatio: real): (f: real)
    ensures obstructionRatio == 0.0 ==> f == nominalFlow
    ensures obstructionRatio == 1.0 ==> f == 0.0
    ensures 0.0 <= nominalFlow && 0.0 <= obstructionRatio <= 1.0 ==> 0.0 <= f <= nominalFlow
  {
    ScaledWithin(nominalFlow, 1.0 - obstructionRatio);
    nominalFlow * (1.0 - obstructionRatio)
  }

  /** Scaling a non-negative amount by a fraction in [0, 1] cannot leave [0, amount]. */
  lemma ScaledWithin(amount: real, fraction: real)
    ensures 0.0 <= amount && 0.0 <= fraction <= 1.0 ==> 0.0 <= amount * fraction <= amount
  {
    if 0.0 <= amount && 0.0 <= fraction <= 1.0 {
      assert amount * fraction <= amount * 1.0;
    }
  }

  class AirflowModel {
    const nominalFlow: real
    var obstructionRatio: real
    var currentFlow: real

    /** The obstruction ratio is clamped on every assignment. */
    ghost predicate Valid()
      reads this
    {
      0.0 <= obstructionRatio <= 1.0
    }

    /** The ratio pulled into [0, 1]. */
    static function ClampObstruction(ratio: real): (r: real)
      ensures 0.0 <= r <= 1.0
      ensures 0.0 <= ratio <= 1.0 ==> r == ratio
      ensures ratio < 0.0 ==> r == 0.0
      ensures 1.0 < ratio ==> r == 1.0
    {
      Clamp(ratio, 0.0, 1.0)
    }

    constructor (nominalFlow: real, obstructionRatio: real)
      ensures Valid()
      ensures this.nominalFlow == nominalFlow
      ensures this.obstructionRatio == ClampObstruction(obstructionRatio)
      ensures currentFlow == FlowFor(nominalFlow, this.obstructionRatio)
    {
      this.nominalFlow := nominalFlow;
      this.currentFlow := nominalFlow * (1.0 - ClampObstruction(obstructionRatio));
      this.obstructionRatio := ClampObstruction(obstructionRatio);
    }

    /** Recomputes the current flow from the obstruction ratio and returns it. */
    method Step() returns (flow: real)
      modifies this`currentFlow
      ensures currentFlow == FlowFor(nominalFlow, obstructionRatio)
      ensures flow == currentFlow
    {
      currentFlow := nominalFlow * (1.0 - obstructionRatio);
      return currentFlow;
    }

    /** Stores the clamped ratio; the current flow stays as it was until the next `Step`. */
    method SetObstruction(ratio: real)
      modifies this`obstructionRatio
      ensures Valid()
      ensures obstructionRatio == ClampObstruction(ratio)
      ensures currentFlow == old(currentFlow)
    {
      obstructionRatio := ClampObstruction(ratio);
    }

    /** A failed fan blocks the flow completely. */
    method SimulateFanFailure()
      modifies this`obstructionRatio
      ensures Valid()
      ensures obstructionRatio == 1.0
      ensures currentFlow == old(currentFlow)
    {
      SetObstruction(1.0);
    }

    /** Removes every obstruction. */
    method Reset()
      modifies this`obstructionRatio
      ensures Valid()
      ensures obstructionRatio == 0.0
      ensures currentFlow == old(currentFlow)
    {
      SetObstruction(0.0);
    }
  }

  /** `Step` is idempotent: a second call returns the same flow and leaves the same state. */
  method StepTwice(m: AirflowModel) returns (first: real, second: real)
    modifies m`currentFlow
    ensures first == second == m.currentFlow == FlowFor(m.nominalFlow, m.obstructionRatio)
    ensures m.obstructionRatio == old(m.obstructionRatio)
  {
    first := m.Step();
    second := m.Step();
  }

  /** With nominal flow 100: no obstruction gives 100, half gives 50, full gives 0. */
  method LinearityScenario() returns (flows: seq<real>)
    ensures flows == [100.0, 50.0, 0.0]
  {
    var m := new AirflowModel(100.0, 0.0);
    var f0 := m.Step();
    m.SetObstruction(0.5);
    var f1 := m.Step();
    m.SetObstruction(1.0);
    var f2 := m.Step();
    flows := [f0, f1, f2];
  }

  /** Ratios -0.5, 1.5 and 0.3 are stored as 0, 1 and 0.3, giving flows 100, 0 and 70. */
  method ClampingScenario() returns (ratios: seq<real>, flows: seq<real>)
    ensures ratios == [0.0, 1.0, 0.3]
    ensures flows == [100.0, 0.0, 70.0]
  {
    var m := new AirflowModel(100.0, 0.0);
    m.SetObstruction(-0.5);
    var r0 := m.obstructionRatio;
    var f0 := m.Step();
    m.SetObstruction(1.5);
    var r1 := m.obstructionRatio;
    var f1 := m.Step();
    m.SetObstruction(0.3);
    var r2 := m.obstructionRatio;
    var f2 := m.Step();
    ratios, flows := [r0, r1, r2], [f0, f1, f2];
  }

  /** A fan failure after a partial obstruction stops the flow; a reset restores the nominal flow. */
  method FailureAndResetScenario() returns (failedRatio: real, failedFlow: real, resetRatio: real, resetFlow: real)
    ensures failedRatio == 1.0 && failedFlow == 0.0
    ensures resetRatio == 0.0 && resetFlow == 100.0
  {
    var m := new AirflowModel(100.0, 0.0);
    m.SetObstruction(0.2);
    m.SimulateFanFailure();
    failedRatio := m.obstructionRatio;
    failedFlow := m.Step();
    m.SetObstruction(0.7);
    m.Reset();
    resetRatio := m.obstructionRatio;
    resetFlow := m.Step();
  }
}
