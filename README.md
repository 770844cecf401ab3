# SpeedX gear model and auto-shift rule, in Dafny

This project models the domain logic of SpeedX, a toy gear-ratio calculator
with an auto-shift heuristic, and proves its properties.

- `shift_controller.dfy` (module `ShiftController`) models `main.py`: the
  auto-shift decision table `auto_shift` as the function `AutoShift`, and the
  gear-update loop of `main` as the method `RunAutoShift`, specified against
  the functions `FinalGear` (the gear after a sequence of readings) and
  `GearTrace` (the gear after each reading). `MainScenario` is `main` itself,
  with its hard-coded gear 3, ceiling 5 and readings 1.3, 0.9, 0.7, 1.5.
- `gear_physics.dfy` (module `GearPhysics`) models `gear_physics.py`: the
  class `GearSystem` with its two stored fields, its output speed
  (`OutputSpeed`, the source's `calculate_output_speed`) and its
  loss-adjusted speed (`Efficiency`). `ExampleUsage` is the example at the
  end of that file.

Speeds, ratios, thresholds and loss percentages are Dafny `real`s, so every
formula is exact: 1500 / 2 is 750 and 750 * (1 - 10/100) is 675 exactly.
Gears are unbounded `int`s, as in Python.

The shift rule checks nothing about its inputs: a gear outside
[1, max_gear] is processed by the same table. The range results therefore
take `1 <= start <= max_gear` as a hypothesis. Likewise `GearSystem` stores
any speed and ratio; the only demand is a non-zero ratio when a speed is
computed, because Python's division raises `ZeroDivisionError` on zero and
nothing in the source catches it. That raise is modelled as the precondition
`gearRatio != 0.0` of `OutputSpeed` and `Efficiency`. Negative ratios and
loss percentages outside [0, 100] are accepted, as in the source, and
`EfficiencyOutsideRange` states what the formula then gives.

`OutputSpeed` and `Efficiency` are Dafny functions with a `reads this`
frame and no `modifies` clause. Dafny therefore guarantees that evaluating
them leaves `inputSpeed` and `gearRatio` unchanged, just as the source
methods never assign `self`.

## Model

| member | source | states |
|---|---|---|
| ShiftController.AutoShift | main.py:23-31 | the gear moves by at most one; it rises exactly when the ratio is above 1.2 and the gear is below max_gear; it falls exactly when the ratio is below 0.8 and the gear is above 1; from a gear in [1, max_gear] the result stays in [1, max_gear] |
| ShiftController.HoldInsideBand | main.py:23-31 | a ratio in the closed band [0.8, 1.2] always holds the gear, so both thresholds are exclusive |
| ShiftController.HoldAtBounds | main.py:23-31 | at gear max_gear no reading shifts up; at gear 1 no reading shifts down |
| ShiftController.AutoShiftDetermined | main.py:23-31 | AutoShift's contract fixes its result: any gear meeting those three conditions equals the rule's result |
| ShiftController.ShiftTableCases | main.py:23-31 | the decision table on the documented readings: up, hold, down, ceiling hold, floor hold, and hold at exactly 1.2 and 0.8 |
| ShiftController.GearTrace | main.py:48-51 | one gear per reading, and the last gear reported is the final gear |
| ShiftController.GearTraceAt | main.py:48-51 | the gear reported after reading k is the gear obtained by folding the first k + 1 readings |
| ShiftController.FinalGearInRange | main.py:48-51 | starting in [1, max_gear], the gear after any sequence of readings is in [1, max_gear] |
| ShiftController.GearTraceInRange | main.py:48-51 | starting in [1, max_gear], every gear reported along the way is in [1, max_gear] |
| ShiftController.GearTraceSteps | main.py:48-51 | each reported gear is AutoShift of its reading applied to the previous gear (the start gear for the first) and differs from it by at most one |
| ShiftController.RunAutoShift | main.py:48-51 | the loop's final gear and per-iteration gears are FinalGear and GearTrace of the readings; starting in [1, max_gear], the gear stays in range after every iteration (a loop invariant) |
| ShiftController.MainScenario | main.py:41-51 | the entry point's run from gear 3 of 5 over 1.3, 0.9, 0.7, 1.5 reports gears 4, 4, 3, 4 and ends in gear 4 |
| GearPhysics.GearSystem.constructor | gear_physics.py:7-15 | stores input speed and gear ratio exactly as given, with no validation |
| GearPhysics.GearSystem.OutputSpeed | gear_physics.py:17-23 | defined only for a non-zero ratio; output speed times the ratio gives back the input speed; positive for positive speed and ratio |
| GearPhysics.GearSystem.Efficiency | gear_physics.py:25-33 | the speed lost is exactly loss_percentage percent of the output speed |
| GearPhysics.EfficiencyNoLoss | gear_physics.py:32-33 | zero loss gives the output speed itself |
| GearPhysics.EfficiencyTotalLoss | gear_physics.py:32-33 | 100 percent loss gives zero |
| GearPhysics.EfficiencyBounds | gear_physics.py:32-33 | for a loss in [0, 100] and a non-negative output speed, the effective speed lies between zero and the output speed |
| GearPhysics.EfficiencyOutsideRange | gear_physics.py:32-33 | unchecked loss values: for a positive output speed, a negative loss amplifies it and a loss above 100 makes it negative |
| GearPhysics.ExampleUsage | gear_physics.py:35-38 | GearSystem(1500, 2) gives output speed 750 and, after a 10 percent loss, 675 |

## Left out

- The console output of `auto_shift` and `main` (every `print`) and the
  `__main__` guard: they do not affect the gear. `RunAutoShift` returns, as
  `trace`, the gear each iteration reports.
- IEEE-754 rounding of Python floats: the thresholds 1.2 and 0.8 and all
  speeds are exact reals, so a reading that rounds to exactly a threshold in
  binary floating point is not modelled.
- The `ZeroDivisionError` raised for a zero ratio is a precondition, not an
  error value: the source never recovers from it.
- Assignment to the public fields of `GearSystem` from outside the class:
  the source has no setter; the class's fields are mutable `var`s, but no
  operation of the model changes them.
- The plotting and animation variant of the program and its duplicate of
  `auto_shift`; rendering is not domain logic.
