/** The single-pair gear model: an input speed in rpm and a gear ratio
    (output teeth over input teeth), from which the output speed and the
    loss-adjusted effective speed are derived. Speeds, ratios and loss are
    exact reals. */
module GearPhysics {

  class GearSystem {
    /** Rotational speed of the driving shaft, in rpm. */
    var inputSpeed: real
    /** Output teeth divided by input teeth. */
    var gearRatio: real

    /** Stores both values as given: neither sign nor zero is checked. */
    constructor (inputSpeed: real, gearRatio: real)
      ensures this.inputSpeed == inputSpeed && this.gearRatio == gearRatio
    {
      this.inputSpeed := inputSpeed;
      this.gearRatio := gearRatio;
    }

    /** Output speed in rpm. Undefined for a zero ratio, where the division
        raises; a negative ratio is accepted and gives a speed of the
        opposite sign. The ratio is what turns output speed back into input
        speed. */
    function OutputSpeed(): (r: real)
      reads this
      requires gearRatio != 0.0
      ensures r * gearRatio == inputSpeed
      ensures inputSpeed > 0.0 && gearRatio > 0.0 ==> r > 0.0
    {
      inputSpeed / gearRatio
    }

    /** Output speed after a flat percentage loss: the speed lost is exactly
        `lossPercentage` percent of the output speed. The percentage is not
        checked against [0, 100]. */
    function Efficiency(lossPercentage: real): (r: real)
      reads this
      requires gearRatio != 0.0
      ensures OutputSpeed() - r == OutputSpeed() * lossPercentage / 100.0
    {
      var actualOutputSpeed := OutputSpeed();
      actualOutputSpeed * (1.0 - lossPercentage / 100.0)
    }
  }

  /** Zero loss leaves the output speed as it is. */
  lemma EfficiencyNoLoss(g: GearSystem)
    requires g.gearRatio != 0.0
    ensures g.Efficiency(0.0) == g.OutputSpeed()
  {
  }

  /** A loss of 100 percent stops the output. */
  lemma EfficiencyTotalLoss(g: GearSystem)
    requires g.gearRatio != 0.0
    ensures g.Efficiency(100.0) == 0.0
  {
  }

  /** For a loss in [0, 100] and a non-negative output speed, the effective
      speed lies between zero and the output speed. */
  lemma EfficiencyBounds(g: GearSystem, lossPercentage: real)
    requires g.gearRatio != 0.0
    requires 0.0 <= lossPercentage <= 100.0
    requires g.OutputSpeed() >= 0.0
    ensures 0.0 <= g.Efficiency(lossPercentage) <= g.OutputSpeed()
  {
    var out := g.OutputSpeed();
    var keep := 1.0 - lossPercentage / 100.0;
    assert 0.0 <= keep <= 1.0;
    assert g.Efficiency(lossPercentage) == out * keep;
    assert out * keep <= out * 1.0 by {
      assert out * (1.0 - keep) >= 0.0;
    }
  }

  /** Outside [0, 100] the formula still applies: for a positive output
      speed a negative loss amplifies it and a loss above 100 reverses it. */
  lemma EfficiencyOutsideRange(g: GearSystem, lossPercentage: real)
    requires g.gearRatio != 0.0
    requires g.OutputSpeed() > 0.0
    ensures lossPercentage < 0.0 ==> g.Efficiency(lossPercentage) > g.OutputSpeed()
    ensures lossPercentage > 100.0 ==> g.Efficiency(lossPercentage) < 0.0
  {
  }

  /** The documented example: 1500 rpm through a ratio of 2 gives 750 rpm,
      and 675 rpm after a 10 percent loss. Evaluating either speed leaves
      both stored fields as they were. */
  method ExampleUsage() returns (outputSpeed: real, effectiveSpeed: real)
    ensures outputSpeed == 750.0
    ensures effectiveSpeed == 675.0
  {
    var gearSystem := new GearSystem(1500.0, 2.0);
    outputSpeed := gearSystem.OutputSpeed();
    effectiveSpeed := gearSystem.Efficiency(10.0);
    assert gearSystem.inputSpeed == 1500.0 && gearSystem.gearRatio == 2.0;
  }
}
