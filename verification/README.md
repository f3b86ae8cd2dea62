# radiocar: the car's kinematics in Dafny

This project models the `Car` class of radiocar, a top-down driving toy. The
car has fixed map and body dimensions, an integer speed, an integer heading
in degrees, and a position. Commands change these fields:

- `forward` adds 1 to the speed and `back` subtracts 1.
- `left` adds 45 degrees to the heading and `right` subtracts 45.
- `move` is one tick. It translates the position by the speed times an
  8-way movement vector.

The movement vector is the deadband quantisation (`clampMovement`) of the
cosine and sine of the heading.

The model is functional. `CarModel.Car` is an immutable record, and each
command is a pure function from car to car. The modules are:

- `Quantiser` holds `clampMovement`, exactly, over `real`.
- `Heading` holds the eight compass octants, a cos/sin table and `calcMovementXY`.
- `CarModel` holds the record, the constructor and the five commands.
- `Commands` holds command sequences and the invariants of every car
  reachable from construction.

Trigonometry is abstracted. The heading starts at 90 and only moves in steps
of 45, so it is always a multiple of 45 (`Commands.Run`, `Commands.Reachable`).
`Heading.Cos` and `Heading.Sin` therefore tabulate the exact cos and sin over
the eight octants of `angle % 360`. The diagonal entries use
0.7071067811865476, which is sqrt(2)/2 rounded. Dafny's `%` is Euclidean,
which agrees with the periodicity of cos and sin for negative angles. The
double results of `Math.cos` and `Math.sin` differ slightly from the table.
For example, cos(90 degrees) comes out as about 6.1e-17 rather than 0. Two
lemmas bound what such differences can do:

- `Heading.TrigTableSafe`: any value within 0.2 of a table entry quantises
  the same way as the entry. The double results for every multiple of 45
  degrees are that close, except for the huge angles listed under
  "## Left out".
- `Heading.HalfRootTwoQuantises`: the exact sqrt(2)/2 quantises to 1.

The resulting vectors are the compass steps (1,0), (1,1), (0,1), (-1,1),
(-1,0), (-1,-1), (0,-1) and (1,-1) for 0, 45, ..., 315 degrees
(`Heading.MovementXY`).

Some behaviour of `src/app/car.ts` is easy to assume wrongly:

- It never wraps the angle into [0, 360).
- It does not invert steering when the speed is negative.
- It does not scale diagonal steps by 1/sqrt(2).
- Its quantiser thresholds are strict, so exactly +-0.5 maps to 0.
- It defines no `stop`, `restart`, `hitWall`, `setMapSize` or `loadImages`.

## Model

| member | source | states |
|---|---|---|
| Quantiser.Clamp | src/app/car.ts:73-81 | the result is -1 exactly when the value is below -0.5, 1 exactly when it is above 0.5, and 0 exactly when it lies in [-0.5, 0.5]; it is always one of -1, 0, 1 |
| Quantiser.ClampAtThresholds | src/app/car.ts:74-80 | the thresholds are strict: exactly 0.5 and exactly -0.5 both quantise to 0 |
| Quantiser.ClampMonotone | src/app/car.ts:73-81 | a larger input never quantises to a smaller step |
| Quantiser.ClampOdd | src/app/car.ts:73-81 | quantising -v gives the negation of quantising v |
| Quantiser.ClampStable | src/app/car.ts:73-81 | any value closer to w than w's distance from both thresholds quantises exactly as w does |
| Heading.OctantOf | src/app/car.ts:65 | an angle that is a multiple of 45 names the octant whose degrees equal the angle modulo 360 |
| Heading.OctantPeriodic | src/app/car.ts:65-67 | adding any number of full turns to the angle leaves its octant, and so cos and sin, unchanged |
| Heading.Cos | src/app/car.ts:66 | the cosine of every octant lies in [-1, 1] and is zero exactly for North and South |
| Heading.Sin | src/app/car.ts:67 | the sine of every octant lies in [-1, 1] and is zero exactly for East and West |
| Heading.TrigTableOnUnitCircle | src/app/car.ts:66-67 | for every octant, cos squared plus sin squared is within 1e-15 of 1 |
| Heading.TrigTableSafe | src/app/car.ts:66-69 | a cosine or sine within 0.2 of the table entry quantises to the same movement component as the entry |
| Heading.HalfRootTwoQuantises | src/app/car.ts:66-69 | the exact positive square root of 1/2 quantises to 1 and its negation to -1 |
| Heading.MovementXY | src/app/car.ts:64-71 | the quantised (cos, sin) pair of every multiple of 45 degrees is the unit compass step of its octant: (1,0) at 0, (1,1) at 45, (0,1) at 90, and so on round to (1,-1) at 315 |
| Heading.MovementNeverStill | src/app/car.ts:64-71 | the movement vector is never (0, 0), and both components are non-zero exactly when the angle is 45 modulo 90 |
| Heading.MovementPeriodic | src/app/car.ts:64-71 | the movement vector depends only on the angle modulo 360 |
| Heading.MovementRotates | src/app/car.ts:64-71 | the vector for angle+45 is the vector for angle rotated one octant counter-clockwise, and angle-45 rotates it one octant clockwise |
| CarModel.NewCar | src/app/car.ts:15-29 | a new car stores the four dimensions unchanged, has speed 0 and angle 90, and sits at (mapWidth/2 - carWidth/2, mapHeight/2 - carHeight/2) |
| CarModel.NewCarCentred | src/app/car.ts:26-28 | a body drawn from the new position as its top-left corner leaves equal margins on both sides of each axis, and the new car heads North |
| CarModel.Forward | src/app/car.ts:31-33 | speed grows by exactly 1 and no other field changes |
| CarModel.Back | src/app/car.ts:35-37 | speed shrinks by exactly 1 and no other field changes |
| CarModel.Left | src/app/car.ts:39-41 | the angle grows by exactly 45 without wrapping, no other field changes, and the angle stays a multiple of 45 exactly when it was one |
| CarModel.Right | src/app/car.ts:43-45 | the angle shrinks by exactly 45 without wrapping, no other field changes, and the angle stays a multiple of 45 exactly when it was one |
| CarModel.ForwardBackInverse | src/app/car.ts:31-37 | forward then back, and back then forward, restore the car exactly |
| CarModel.LeftRightInverse | src/app/car.ts:39-45 | left then right, and right then left, restore the car exactly |
| CarModel.Move | src/app/car.ts:47-51 | x grows by speed times the compass step's x, y shrinks by speed times its y, and speed, angle and dimensions are unchanged |
| CarModel.MoveAtRest | src/app/car.ts:47-51 | with speed 0 a tick leaves the car unchanged |
| CarModel.MoveUp | src/app/car.ts:49-50 | heading 90 modulo 360 with positive speed keeps x and strictly decreases y (screen-up) |
| CarModel.MoveDiagonal | src/app/car.ts:49-50 | on a diagonal heading each axis moves by the full absolute speed, without sqrt(2) normalisation |
| CarModel.FullTurnMovesAlike | src/app/car.ts:39-51 | eight lefts add 360 to the angle, and the following tick moves the car exactly as without them |
| Commands.Step | src/app/car.ts:31-51 | every command keeps the angle a multiple of 45 and keeps all dimensions |
| Commands.Run | src/app/car.ts:31-51 | after any command sequence, speed is the start speed plus forwards minus backs, angle is the start angle plus 45 per net left, dimensions are unchanged, and without a move the position is unchanged |
| Commands.RunAppend | src/app/car.ts:31-51 | running a concatenation of sequences equals running them one after the other |
| Commands.Reachable | src/app/car.ts:21-45 | every car reached from construction by any commands has its angle a multiple of 45, its original dimensions, and a non-zero movement vector |
| Commands.InversePairs | src/app/car.ts:31-45 | appending forward-back, back-forward, left-right or right-left to any command sequence does not change the resulting car |

## Left out

- `Car.draw` (src/app/car.ts:53-62) issues Canvas 2D calls only. It treats (x, y) as the body's centre, while the constructor computes x and y as the top-left corner of a centred body. The rendering itself is not modelled.
- `src/app/app.component.ts` is not part of this model. It is the Angular shell: keyboard listeners, the 16 ms `setInterval` tick loop, `setTimeout` and `alert`. Its calls to `loadImages`, `hitWall` and `restart` name methods that `car.ts` does not define, so they are not modelled.
- `src/app/image-provider.service.ts` is not part of this model. It loads browser images asynchronously, which is I/O.
- Heading.MovementXY: requires the angle to be a multiple of 45. `calcMovementXY` computes cos/sin for any angle, but every reachable car satisfies this (`Commands.Reachable`). Other angles are not modelled.
- Floating point: positions and dimensions are exact reals and speed and angle are unbounded integers. IEEE-754 rounding and the loss of integer precision beyond 2^53 are not modelled. Nor is the precision lost converting a very large unwrapped angle to radians.
- `Math.cos`, `Math.sin` and `Math.PI` are replaced by the octant table. `Heading.TrigTableSafe` bounds the error this table may have.
