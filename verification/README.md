# Power plant control loop

A Dafny model of the supervisory loop of the PowerPlant cart (`power_plant.py`).
The cart has eight light sensors on a ring of radius 30, a proximity sensor
and a drive. On every pass through its endless loop it does the following:

1. It reads the light and raises the running peak to the reading's total when the total is larger.
2. It pairs every amplitude with its sensor's fixed position and asks the direction finder for the next move.
3. It reads the proximity clearances and issues the move only when every clearance is strictly beyond 30 mm.
4. It reads the light again. If the new total is below the peak, the cart rests for fifteen minutes and the peak goes back to 0.

The model states one pass as a pure function `PowerPlant.Step`. The function takes
the prior peak and the three readings. It returns the new peak, the move it
issued (if any) and whether the cart rested. `PlantRun.Run` chains passes over a
finite list of readings.

Modules:

- `Wrappers`: `Option` and `Result`.
- `SensorFrame`: the position table, frame formatting and the total of a reading.
- `SafetyGate`: the clearance check.
- `PowerPlant`: one pass of the loop.
- `PlantRun`: finite runs of the loop and what holds across passes.

Collaborators become parameters:

- The two light readings and the clearance list are inputs of each pass.
- The direction finder is an opaque function `find: Frame -> C` held in `PowerPlant.Plant`. `C` is whatever command type it returns.
- The square root of two over two (`sqrt(2) / 2` in the source) is a parameter `a` of `SensorFrame.SensorPositions`. Every property except `SensorFrame.SensorsOnCircle` holds whatever its value is. That lemma asks for `2·a·a = 1`.
- `Plant` holds the position table built before the loop and the direction finder. `PowerPlant.Startup(a, find)` is the plant the program builds. The loop properties are proved for every plant whose table has eight entries, so they hold for that one.
- Amplitudes, clearances and the peak are mathematical reals. No non-negativity is assumed.

Facts about the code that the model keeps:

- An empty clearance list lets the move through, because `all` over nothing is true.
- The code keeps one running peak and compares the second reading's total against it. There is no history window.
- A reading shorter than eight samples is formatted without complaint. Only a longer one fails: it fails at index 8 when the position table runs out. The model gives this as `SensorIndexOutOfRange(8)`. No exception handler is in sight, so the first such reading ends a run.

## Model

| member | source | states |
|---|---|---|
| `SensorFrame.SensorPositions` | power_plant.py:36-46 | the table has exactly eight entries; entry `i+4` is the exact negation of entry `i` for `i` in 0..3, whatever value stands for √2/2; the four axis-aligned sensors are at distance 30 |
| `SensorFrame.SensorsOnCircle` | power_plant.py:36-46 | when the constant squares to one half, all eight sensors lie on the circle of radius 30 |
| `SensorFrame.FormatFrame` | power_plant.py:65-69 | the frame succeeds exactly when the reading has at most as many samples as the table; then it has the reading's length and entry `i` carries `samples[i]` as amplitude and `table[i]` as location, in order; otherwise it fails at the first index past the table |
| `SensorFrame.Total` | power_plant.py:59-61 | the sum of an empty reading is 0; a reading with no negative sample has a non-negative total |
| `SensorFrame.TotalDominatesSamples` | power_plant.py:59-61 | for a reading with no negative sample, the total is at least every single sample |
| `SafetyGate.AllClear` | power_plant.py:76 | true exactly when every clearance is strictly greater than 30 |
| `SafetyGate.EmptyGateAllows` | power_plant.py:76 | an empty clearance list allows the move |
| `SafetyGate.GateBlocksAtMinimum` | power_plant.py:76 | one clearance of exactly 30 blocks the move |
| `PowerPlant.Startup` | power_plant.py:36-49 | the plant built before the loop: its table keeps the antipodal pairs of the position layout, and its finder answers every frame as the finder passed in does |
| `PowerPlant.RaisePeak` | power_plant.py:60-61 | the peak after the first reading is the larger of the old peak and the reading's total: at least both, and equal to one of them |
| `PowerPlant.Step` | power_plant.py:57-85 | a pass completes exactly when the first reading has at most eight samples; otherwise it fails at the missing table index 8 |
| `PowerPlant.StepGate` | power_plant.py:74-77 | in a completed pass a move is issued exactly when every clearance is strictly greater than 30 |
| `PowerPlant.StepCommand` | power_plant.py:65-77 | in a completed pass the frame is built, and an issued command is the finder's answer for that frame, unmodified |
| `PowerPlant.StepDwell` | power_plant.py:59-85 | the cart rests exactly when the second total is below the raised peak; after a rest the peak is 0, otherwise it is the raised peak; with no rest, second total ≥ new peak ≥ first total and the peak did not decrease |
| `PowerPlant.GateDoesNotTouchPeak` | power_plant.py:60-85 | the clearances and the direction finder have no effect on the new peak or on the rest decision |
| `PlantRun.Run` | power_plant.py:57-85 | a run records at most one outcome per input; every recorded pass had a first reading that fit the table, and a run stops early exactly at the first reading that does not, with the fault for the missing table index 8 |
| `PlantRun.RunFrom` | power_plant.py:57-85 | the loop entered at iteration `i` records at most one outcome per remaining input; every recorded pass had a first reading that fit, and it stops early exactly at the first reading from `i` on that does not, with the fault for the missing table index 8 |
| `PlantRun.RunFollowsStep` | power_plant.py:57-85 | every recorded outcome is the pass computed from the state the previous pass left |
| `PlantRun.MovesFollowGate` | power_plant.py:74-77 | in every pass of a run, a move is issued exactly when that pass's clearances all exceed 30 |
| `PlantRun.PeakNeverNegative` | power_plant.py:52-85 | from the initial peak of 0 (or any non-negative start), the peak is never negative |
| `PlantRun.PeakDominatesSinceRest` | power_plant.py:60-81 | across passes with no rest in between, the peak and each later second total are at least every earlier first total |
| `PlantRun.PeakIsObserved` | power_plant.py:60-85 | the peak is only ever 0, the starting peak, or the total of some first reading; a second reading is never written into it |

## Left out

- The A/D driver (`AD`, `AdMcp3008`) and the proximity driver (`ProxReader`): their code is not part of this model. Their readings are inputs of each pass.
- `DirectionFinder.FindDirection`: its code is not part of this model. It is an opaque function from frame to command. The program calls it on every pass before the gate, on one object built before the loop. The model applies it only when the gate allows. The two agree only if the finder keeps no state between calls and never fails.
- `cart.make_a_move`: the model records the issued command and treats the call as returning normally. In this file `cart` is never defined, so as written the first allowed move would stop the loop with a name error.
- `sleep(15 * 60)`: timing has no logical content here and is the `dwelt` flag.
- The endless `while True` loop: modelled as finite runs of passes.
- Floating-point `sqrt` and float addition: the constant is a parameter and all arithmetic is exact over the reals. Rounding in `sum` is not modelled.
- Errors raised by a sensor read: the loop does not catch them, and the model has no notion of a failed read.
- Heading computation: the code passes the finder's result to the cart unchanged. It computes no angle of its own.
