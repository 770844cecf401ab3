/** The auto-shift rule of the SpeedX entry point and the loop that feeds it
    a sequence of gear-ratio readings. Ratios are exact reals; gears are
    unbounded integers, as Python's `int` is. */
module ShiftController {

  /** A reading strictly above this asks for the next higher gear. */
  const UpThreshold: real := 1.2

  /** A reading strictly below this asks for the next lower gear. */
  const DownThreshold: real := 0.8

  /** The lowest gear; the rule never shifts down from it. */
  const MinGear: int := 1

  /** One auto-shift decision: up one gear when the reading is above the
      upper threshold and the ceiling is not reached, down one gear when it
      is below the lower threshold and the floor is not reached, otherwise
      hold. The two reading conditions exclude each other, so the order of
      the first two branches never matters. Nothing is checked about the
      inputs: a gear outside [MinGear, maxGear] is moved or kept by the same
      table. */
  function AutoShift(gearRatio: real, currentGear: int, maxGear: int): (r: int)
    ensures currentGear - 1 <= r <= currentGear + 1
    ensures r > currentGear <==> gearRatio > UpThreshold && currentGear < maxGear
    ensures r < currentGear <==> gearRatio < DownThreshold && currentGear > MinGear
    ensures MinGear <= currentGear <= maxGear ==> MinGear <= r <= maxGear
  {
    if gearRatio > UpThreshold && currentGear < maxGear then
      currentGear + 1
    else if gearRatio < DownThreshold && currentGear > MinGear then
      currentGear - 1
    else
      currentGear
  }

  /** A reading inside the closed band [DownThreshold, UpThreshold] always
      holds the gear: both thresholds are exclusive. */
  lemma HoldInsideBand(gearRatio: real, currentGear: int, maxGear: int)
    requires DownThreshold <= gearRatio <= UpThreshold
    ensures AutoShift(gearRatio, currentGear, maxGear) == currentGear
  {
  }

  /** At the ceiling the gear holds whatever the reading, so no reading lifts
      it past maxGear; at the floor no reading lowers it below MinGear. */
  lemma HoldAtBounds(gearRatio: real, maxGear: int)
    ensures AutoShift(gearRatio, maxGear, maxGear) <= maxGear
    ensures gearRatio >= DownThreshold || maxGear <= MinGear ==> AutoShift(gearRatio, maxGear, maxGear) == maxGear
    ensures AutoShift(gearRatio, MinGear, maxGear) >= MinGear
    ensures gearRatio <= UpThreshold || maxGear <= MinGear ==> AutoShift(gearRatio, MinGear, maxGear) == MinGear
  {
  }

  /** The three facts of AutoShift's contract pin its result down: any gear
      that moves by at most one, rises exactly when the up-branch fires and
      falls exactly when the down-branch fires is the one the rule returns. */
  lemma AutoShiftDetermined(gearRatio: real, currentGear: int, maxGear: int, g: int)
    requires currentGear - 1 <= g <= currentGear + 1
    requires g > currentGear <==> gearRatio > UpThreshold && currentGear < maxGear
    requires g < currentGear <==> gearRatio < DownThreshold && currentGear > MinGear
    ensures g == AutoShift(gearRatio, currentGear, maxGear)
  {
  }

  /** The decision table on the concrete readings the system documents. */
  lemma ShiftTableCases()
    ensures AutoShift(1.3, 3, 5) == 4
    ensures AutoShift(0.9, 3, 5) == 3
    ensures AutoShift(0.7, 3, 5) == 2
    ensures AutoShift(1.5, 5, 5) == 5
    ensures AutoShift(0.5, 1, 5) == 1
    ensures AutoShift(1.2, 3, 5) == 3
    ensures AutoShift(0.8, 3, 5) == 3
  {
  }

  /** The gear after feeding `ratios`, in order, through AutoShift from
      `startGear`. Defined on the last reading, the way the loop extends its
      prefix. */
  function FinalGear(ratios: seq<real>, startGear: int, maxGear: int): int
  {
    if ratios == [] then startGear
    else AutoShift(ratios[|ratios| - 1], FinalGear(ratios[..|ratios| - 1], startGear, maxGear), maxGear)
  }

  /** The gear after each reading, in order: the "New Gear" the loop reports
      at the end of every iteration. */
  function GearTrace(ratios: seq<real>, startGear: int, maxGear: int): (t: seq<int>)
    ensures |t| == |ratios|
    ensures ratios != [] ==> t[|ratios| - 1] == FinalGear(ratios, startGear, maxGear)
  {
    if ratios == [] then []
    else GearTrace(ratios[..|ratios| - 1], startGear, maxGear) + [FinalGear(ratios, startGear, maxGear)]
  }

  /** Entry k of the trace is the gear after the first k + 1 readings. */
  lemma {:induction false} GearTraceAt(ratios: seq<real>, startGear: int, maxGear: int, k: nat)
    requires k < |ratios|
    ensures GearTrace(ratios, startGear, maxGear)[k] == FinalGear(ratios[..k + 1], startGear, maxGear)
  {
    if k < |ratios| - 1 {
      var front := ratios[..|ratios| - 1];
      GearTraceAt(front, startGear, maxGear, k);
      assert front[..k + 1] == ratios[..k + 1];
    } else {
      assert ratios[..k + 1] == ratios;
    }
  }

  /** Starting inside [MinGear, maxGear], the gear stays inside it after any
      sequence of readings. */
  lemma {:induction false} FinalGearInRange(ratios: seq<real>, startGear: int, maxGear: int)
    requires MinGear <= startGear <= maxGear
    ensures MinGear <= FinalGear(ratios, startGear, maxGear) <= maxGear
  {
    if ratios != [] {
      FinalGearInRange(ratios[..|ratios| - 1], startGear, maxGear);
    }
  }

  /** Starting inside [MinGear, maxGear], every gear the loop reports lies
      inside it. */
  lemma {:induction false} GearTraceInRange(ratios: seq<real>, startGear: int, maxGear: int)
    requires MinGear <= startGear <= maxGear
    ensures forall k :: 0 <= k < |ratios| ==>
      MinGear <= GearTrace(ratios, startGear, maxGear)[k] <= maxGear
  {
    forall k | 0 <= k < |ratios|
      ensures MinGear <= GearTrace(ratios, startGear, maxGear)[k] <= maxGear
    {
      GearTraceAt(ratios, startGear, maxGear, k);
      FinalGearInRange(ratios[..k + 1], startGear, maxGear);
    }
  }

  /** Each reading moves the gear by at most one: the first reported gear is
      within one of the start, and each later one within one of the gear
      before it, rising or falling exactly as that reading's AutoShift says. */
  lemma {:induction false} GearTraceSteps(ratios: seq<real>, startGear: int, maxGear: int)
    ensures var t := GearTrace(ratios, startGear, maxGear);
      ratios != [] ==> t[0] == AutoShift(ratios[0], startGear, maxGear)
    ensures var t := GearTrace(ratios, startGear, maxGear);
      forall k :: 0 < k < |ratios| ==>
        t[k] == AutoShift(ratios[k], t[k - 1], maxGear) && t[k - 1] - 1 <= t[k] <= t[k - 1] + 1
  {
    var t := GearTrace(ratios, startGear, maxGear);
    if ratios != [] {
      GearTraceAt(ratios, startGear, maxGear, 0);
      assert ratios[..1][..0] == [];
    }
    forall k | 0 < k < |ratios|
      ensures t[k] == AutoShift(ratios[k], t[k - 1], maxGear)
    {
      GearTraceAt(ratios, startGear, maxGear, k);
      GearTraceAt(ratios, startGear, maxGear, k - 1);
      assert ratios[..k + 1][..k] == ratios[..k];
    }
  }

  /** The gear-update loop of the entry point, over any readings and any
      starting and maximum gear: each iteration replaces the current gear by
      AutoShift of the reading. Returns the final gear and the gear after
      each iteration. */
  method RunAutoShift(ratios: seq<real>, startGear: int, maxGear: int) returns (gear: int, trace: seq<int>)
    ensures gear == FinalGear(ratios, startGear, maxGear)
    ensures trace == GearTrace(ratios, startGear, maxGear)
    ensures MinGear <= startGear <= maxGear ==> MinGear <= gear <= maxGear
    ensures MinGear <= startGear <= maxGear ==>
      forall k :: 0 <= k < |trace| ==> MinGear <= trace[k] <= maxGear
  {
    gear, trace := startGear, [];
    for i := 0 to |ratios|
      invariant gear == FinalGear(ratios[..i], startGear, maxGear)
      invariant trace == GearTrace(ratios[..i], startGear, maxGear)
      invariant MinGear <= startGear <= maxGear ==> MinGear <= gear <= maxGear
      invariant MinGear <= startGear <= maxGear ==>
        forall k :: 0 <= k < |trace| ==> MinGear <= trace[k] <= maxGear
    {
      assert ratios[..i + 1][..i] == ratios[..i];
      gear := AutoShift(ratios[i], gear, maxGear);
      trace := trace + [gear];
    }
    assert ratios[..|ratios|] == ratios;
  }

  /** The entry point's own run: gear 3 of 5, readings 1.3, 0.9, 0.7, 1.5. */
  method MainScenario() returns (gear: int, trace: seq<int>)
    ensures trace == [4, 4, 3, 4]
    ensures gear == 4
  {
    gear, trace := RunAutoShift([1.3, 0.9, 0.7, 1.5], 3, 5);
    GearTraceSteps([1.3, 0.9, 0.7, 1.5], 3, 5);
  }
}
