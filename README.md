# AI 2D racer: a Dafny model of the car, the drivers and the dense layer

This project models the simulation core of a small 2D racing game in which a
car is driven by a human, by random or momentum-biased scripts, or (in later
code) by a neural network. It covers three parts:

- the car's per-frame kinematics (`objects.py`):
  - acceleration and reverse thrust with no speed clamp;
  - turning linear in speed, with a single ±360 wrap of the heading;
  - friction that snaps the speed to 0;
  - the position update and teleporting;
- the drivers (`drivers.py` and the older copies in `main_ai.py`), which turn
  key state or random draws into a `(forward, turn_left)` command;
- the fully connected layer (`ann.py`), modelled as the code builds it: all
  weight rows are one shared list, the forward pass sums over `output_dim`
  inputs, and the biases are never read.

Finally, one iteration of `main_ai.py`'s loop is modelled: the momentum
driver's `drive()` produces the command (`LoopIteration`), and then one tick
(`Tick`, starting at the dispatch) does the following:

1. dispatch the command with strict ±0.5 thresholds;
2. apply friction;
3. update the position;
4. reset the car to its start pose at rest if it hit an obstacle or left
   the border rectangle.

Files and modules:

- `numeric.dfy`, module `Numeric`: Python's `abs`, `min` and `max` on reals, and
  the `max(min(x, hi), lo)` clamp.
- `objects.dfy`, module `Objects`:
  - `CarState`, with pure step functions that specify each `Car` method;
  - the class `Car`, whose methods update `x`, `y`, `angle` and `speed` in place;
  - lemmas about repeated friction and about the distance covered per frame.
- `drivers.dfy`, module `Drivers`:
  - the `Driver` binding;
  - the player and random commands as functions;
  - `MomentumDriver`, a class whose accumulators change on every call.
- `ann.dfy`, module `Ann`: the class `FCLayer`, whose weight rows are a sequence
  of references to a single array and whose biases are an array. Randomisation
  is nested loops over those arrays. The forward pass is a loop with an explicit
  `IndexError` result.
- `main_ai.dfy`, module `MainAi`:
  - the old random and momentum drivers;
  - the command dispatch;
  - the tick method and its specification `TickStep`.

Environment inputs are parameters:

- random draws are parameters with the ranges of their `random.uniform` calls;
- `sin(radians(a))` and `cos(radians(a))` are a `Trig` value of two functions;
- `math.exp` is a function parameter that the model assumes is only positive
  (and 1 at 0 where needed);
- the pygame overlap test behind `collide_rect` is a `Collider` function
  parameter over (x, y, heading, rectangle).

Facts about the code that the model keeps:

- `forward`/`reverse` do not clamp the speed;
- the heading changes by `rotation_coefficient * speed`, linear in speed;
- the heading band is closed at both ends, so both 360 and -360 are kept;
- the forward pass loops over `output_dim` (not `input_dim`) inputs;
- the forward pass adds no bias;
- every weight row is the same object.

## Model

| member | source | states |
|---|---|---|
| Objects.WrapAngle | objects.py:36-39 | the heading is corrected by at most one full turn: −360 above 360, +360 below −360; headings in [−360, 360] are kept, and headings in [−720, 720] end in [−360, 360] |
| Objects.TurnDelta | objects.py:32-35 | a left turn asks for exactly +coefficient·speed and a right turn for exactly −coefficient·speed; at speed 0 it asks for nothing |
| Objects.TurnStep | objects.py:31-39 | only the heading changes; the new heading is WrapAngle(old + coefficient·speed) for a left turn and WrapAngle(old − coefficient·speed) for a right turn, so it is shifted by at most ±360; standing still inside [−360, 360] the state is unchanged; the band [−360, 360] is kept when coefficient·|speed| ≤ 360 |
| Objects.ForwardStep | objects.py:41-42 | speed grows by exactly 0.05 with no clamp; x, y and heading unchanged |
| Objects.ReverseStep | objects.py:44-45 | speed shrinks by exactly 0.05 with no clamp; x, y and heading unchanged |
| Objects.ForwardReverseInverse | objects.py:41-45 | reverse undoes forward and forward undoes reverse |
| Objects.FrictionSpeed | objects.py:47-53 | one frame of friction: the magnitude becomes max(\|v\| − 0.02, 0) and the sign never flips |
| Objects.FrictionStep | objects.py:47-53 | friction changes only the speed, to FrictionSpeed of the old speed, and never increases its magnitude |
| Objects.FrictionIterMagnitude | objects.py:47-53 | after n frames of friction the magnitude is exactly max(\|v\| − 0.02·n, 0) and the sign is that of the initial speed |
| Objects.StopTime | objects.py:47-53 | the least frame count n with 0.02·n ≥ \|v\| |
| Objects.FrictionStops | objects.py:47-53 | repeated friction reaches exactly 0 after StopTime(v) frames, is non-zero before and stays 0 after |
| Objects.MoveStep | objects.py:55-58 | the position update changes only x and y; at speed 0 nothing changes; x takes the sine and y the cosine, so a heading with sine 0 and cosine 1 (0°) moves by +speed along y only, sine 1 and cosine 0 (90°) by +speed along x only, and the opposite headings move the opposite way |
| Objects.MoveDistance | objects.py:55-58 | where sin² + cos² = 1 at the heading, the squared displacement equals speed² |
| Objects.ResetState | main_ai.py:128 | the reset state is the start pose with speed 0 |
| Objects.Car.constructor | objects.py:13-23 | a new car sits at the given pose with speed 0 |
| Objects.Car.Turn | objects.py:31-39 | the car's new state is TurnStep of its old state; `left` defaults to false (a right turn) |
| Objects.Car.Forward | objects.py:41-42 | the car's new state is ForwardStep of its old state |
| Objects.Car.Reverse | objects.py:44-45 | the car's new state is ReverseStep of its old state |
| Objects.Car.SimulateFriction | objects.py:47-53 | the car's new state is FrictionStep of its old state |
| Objects.Car.PositionFrameUpdate | objects.py:55-58 | the car's new state is MoveStep of its old state |
| Objects.Car.ForcePosition | objects.py:60-64 | all four fields are set to the arguments, with speed 0 by default |
| Objects.Car.CollideRect | objects.py:66-70 | the overlap test reads x, y and the heading, never the speed: its result is the same for every speed |
| Objects.Car.OutOfRect | objects.py:72-73 | out_of_rect is exactly the negation of collide_rect |
| Drivers.Driver.constructor | drivers.py:11-13 | binds the given car and sets win to 0 |
| Drivers.PlayerDriveCommand | drivers.py:24-37 | each component is in {−1, 0, 1}; forward is 1 exactly when W alone is held and −1 exactly when S alone is held; turn_left is 1 exactly when A alone is held and −1 exactly when D alone is held; opposing keys cancel |
| Drivers.RandomDriveCommand | drivers.py:44-47 | returns the two draws, both in [−1, 1] |
| Drivers.MomentumStep | drivers.py:60-68 | the command is clamp(draw + momentum, −1, 1) on each axis; forward momentum becomes clamp(old + 0.2·forward, −1, 1) from the clamped forward; left momentum becomes clamp(old + 0.1·turn_left, −0.2, 0.2); command and momenta stay in their bands |
| Drivers.MomentumRunBounded | drivers.py:60-68 | over any sequence of calls, every command is in [−1, 1] and each turn command is within 0.2 of its draw |
| Drivers.MomentumDriver.constructor | drivers.py:51-57 | binds the car, win 0, both momenta 0 |
| Drivers.MomentumDriver.DriveCommand | drivers.py:60-68 | the command and new momenta are MomentumStep of the old momenta; the momenta stay in their bands |
| Ann.NormalizedSigmoid | ann.py:19-20 | 2/(1 + exp(−x)) − 1 lies strictly in (−1, 1); it is 0 exactly when exp(−x) = 1 and positive exactly when exp(−x) < 1 |
| Ann.DotZeroRow | ann.py:44-46 | the accumulated sum over an all-zero row is 0 |
| Ann.UnitOutput | ann.py:45-47 | each unit's output is strictly inside (−1, 1) |
| Ann.ZeroRowOutputsZero | ann.py:41-48 | a unit whose weights are all 0 outputs exactly 0 when exp(0) = 1 |
| Ann.FCLayer.constructor | ann.py:27-33 | output_dim zero biases and output_dim references to one fresh row of input_dim zeros |
| Ann.FCLayer.RandomizeWeightsBiases | ann.py:35-39 | each bias gets its own draw; because the rows are shared, every row ends up holding the draws of the last row, so all rows are identical; every entry is within the uniform range; the shape is unchanged |
| Ann.FCLayer.Forward | ann.py:41-48 | raises IndexError exactly when output_dim > 0 and the input or the rows are shorter than output_dim; otherwise returns output_dim values, each the sigmoid of the sum over i < output_dim of input[i]·weights[o][i], with no bias; all values are equal; weights and biases are not modified |
| Ann.FreshLayerForward | ann.py:41-48 | a freshly constructed layer's forward pass returns output_dim zeros, or the same IndexError |
| MainAi.RandomDrive | main_ai.py:27-30 | returns the two draws, both in [−1, 1] |
| MainAi.AiMomentumStep | main_ai.py:44-52 | the command is clamp(draw + momentum, −1, 1) on each axis, so it is in [−1, 1]; forward momentum becomes clamp(old + 0.2·forward, −1, 1); the left momentum is returned unchanged |
| MainAi.CorrectedAiMomentumStep | main_ai.py:50-51 | the same command and forward momentum, but the left momentum becomes clamp(old + 0.2·turn_left, −1, 1), so from rest it takes the sign of the turn draw |
| MainAi.AiLeftMomentumIgnored | main_ai.py:50-51 | from rest with turn draw 1, the left momentum stays 0 as written but becomes 0.2 when corrected |
| MainAi.AiTurnIsRawDraw | main_ai.py:44-52 | starting with left momentum 0, every turn command over any sequence of calls equals its raw draw, and every command is in [−1, 1] |
| MainAi.AiMomentumDriver.constructor | main_ai.py:34-41 | binds the car, win 0, both momenta 0 |
| MainAi.AiMomentumDriver.Drive | main_ai.py:44-52 | the command and new momenta are AiMomentumStep of the old ones; left_momentum is never assigned |
| MainAi.ApplyCommandStep | main_ai.py:101-109 | forward > 0.5 adds 0.05 to speed, forward < −0.5 subtracts it, and anything else (±0.5 included) keeps it; turn_left > 0.5 turns left and < −0.5 right, at the updated speed; anything else keeps the heading; x and y unchanged |
| MainAi.ApplyCommand | main_ai.py:101-109 | the car's new state is ApplyCommandStep of its old state |
| MainAi.ObstaclePass | main_ai.py:124-131 | the obstacle loop either leaves the car as it is or puts it on the start pose at rest |
| MainAi.ObstaclePassOutcome | main_ai.py:124-131 | the obstacle loop resets the car to the start pose at rest exactly when the pose it began with hits some obstacle, and otherwise leaves it unchanged |
| MainAi.ObstaclePassFixed | main_ai.py:124-131 | once reset, later obstacle tests keep the car on the start pose |
| MainAi.TickOutcome | main_ai.py:111-137 | a tick ends at the start pose with speed 0 if the moved car hits an obstacle or does not overlap the border rectangle; otherwise it ends at command, then friction, then position update of the old state |
| MainAi.TickStep | main_ai.py:101-137 | a tick ends either at the moved car (command, friction, position update) or at the start pose at rest; TickOutcome says exactly which |
| MainAi.CommandBeforeFriction | main_ai.py:101-112 | the order matters: a forward push from rest followed by friction leaves speed 0.03, while friction first would leave 0.05 |
| MainAi.Tick | main_ai.py:101-137 | the car's new state after dispatch, friction, position update, obstacle and border tests is TickStep of its old state |
| MainAi.LoopIteration | main_ai.py:99-137 | one iteration: the driver's momenta become AiMomentumStep of the old ones, and the driver's car ends at TickStep of its old state under that step's command |

## Findings

| source | as written | input that shows it | evidently intended | confidence | as-written member | corrected member |
|---|---|---|---|---|---|---|
| main_ai.py:50-51 | The new left momentum is bound to a local `left_momentum`. `self.left_momentum` therefore stays 0 forever, and turn commands are the raw draws. | A fresh driver drawing a turn of 1.0 keeps left momentum 0. The evident intent gives 0.2. | `self.left_momentum = …`, so the turn momentum follows the last turn. drivers.py:66-67 assigns the field. | not executed; high | MainAi.AiLeftMomentumIgnored | MainAi.CorrectedAiMomentumStep |

`MainAi.AiMomentumDriver.Drive` and `MainAi.AiTurnIsRawDraw` keep the as-written
behaviour, as the loop in main_ai.py runs it. The corrected step is the
specification the intent calls for.

## Left out

- Rendering is not modelled. This covers `Car.draw` (objects.py:25-29), the screen fill, the rectangle drawing, the display flip and the 60 fps clock. These are pygame I/O.
- Event polling and the `running` flag are not modelled. The loop itself is I/O-driven, so only one iteration (`Tick`) is modelled.
- Level loading from JSON (main_ai.py:71-83) is I/O. The start pose and the obstacles are parameters.
- The goal loop at main_ai.py:118-123 is not modelled. It only draws and changes no car state.
- The statements `random_driver = Random_Driver(ai_car)` are not modelled. They allocate a driver that is never used, so they have no effect on state.
- The geometry of `collide_rect` (objects.py:66-70) is an uninterpreted `Collider` parameter. It relies on `pygame.transform.rotate` and `Rect.colliderect`. The model keeps only what the code fixes: the test reads x, y and the heading, never the speed.
- `math.sin`, `math.cos`, `math.radians` (objects.py:55-58) and `math.exp` (ann.py:19-20) are transcendental. They are function parameters. `MoveDistance` assumes sin² + cos² = 1 at the heading. `ZeroRowOutputsZero` and `FreshLayerForward` assume exp(0) = 1.
- The distribution of `random.uniform` is not modelled. Each draw is a parameter constrained to the call's range.
- Ann.NormalizedSigmoid: over floats, `math.exp(-x)` overflows and raises OverflowError for x below about −709.78. The model has no such error, so `Ann.FCLayer.Forward` returns an `Output` where the program raises.
- Ann.FCLayer.Forward: over floats the sigmoid saturates at both ends. `1 + exp(-x)` rounds to 1.0 for x above about 37, so the output is exactly 1.0. For x below about −38.1, `2 / (1 + exp(-x)) - 1` rounds to exactly −1.0. The strict bound (−1, 1) of `Ann.NormalizedSigmoid` and `Ann.UnitOutput` holds over the reals only.
- Python floats are modelled as exact reals. IEEE rounding is not modelled (for example, 0.05 − 0.02 is exactly 0.03 here). Friction's snap to 0 does not depend on rounding.
- `Ann.FCLayer.constructor`: the dimensions are `nat`. In Python a negative dimension gives empty lists and empty loops, which is the same as 0.
- `Player_Driver.drive_command` returns Python ints. The model returns the same values as reals in `Command`.
- `Player_Driver` and `Random_Driver` add nothing to the `Driver` binding. They are modelled as `Driver` plus a pure command function. `Driver.drive_command` is abstract and has no body to model.
- The momentum coefficients (instance attributes never reassigned) are module constants.
- main.py is not part of this model. Its loop depends on `LiDAR_Car`, `apply_command`, beam registration and `One_Hidden_NN_Driver`, which are not defined in the files modelled.
- main_player.py's loop (main_player.py:42-91) is not modelled as a whole. It maps each held key directly to a `Car` method (`forward`, `reverse`, `turn`) inside the pygame loop, and then runs the same friction, position, obstacle and border steps as main_ai.py. Every `Car` method it calls is modelled.
- The neural drivers, LiDAR sensing, crossover, mutation and the generation and fitness loop are not modelled. None of them is implemented in the files modelled.
- The `Obstacle` and `Goal` classes (objects.py:76-87) are trivial holders. Obstacles are modelled by their rectangles.
