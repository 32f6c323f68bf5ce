# Newton's cradle scene builder

A Dafny model of the scene construction and rebuild step of a browser
Newton's-cradle toy. Three integer parameters (ball count `n`, spacing `s`,
rope length `L`) determine a fixed scene in an 800×600 view. Ball size is 40
and frame thickness is 15. The scene has:

- four static, non-colliding frame rectangles: top bar, left leg, right leg, base;
- `n` balls, evenly spaced and centred on x = 400;
- `n` ropes, each anchored on the top bar's lower edge directly above its ball;
- a first ball pulled aside by `(-2*(40+s), -40)` to start the swing.

Every change of a parameter rebuilds the scene. The current cradle
composite is removed from the world, a new one is assembled and added, and
the module-level `cradle` variable is pointed at it.

The model has three modules:

- `Geometry` (Geometry.dfy) holds the pure dimension arithmetic. Coordinates
  are `real`, because half the frame thickness is 7.5 and the left end of the
  ball row can be a half-integer. `Build` gives the whole layout as a
  `Scene` value. The lemmas state the layout's properties.
- `Engine` (Engine.dfy) is the slice of the physics engine's object model
  that the builder uses. A `Body` is a class whose position `Translate`
  changes in place. A `Link` is a rope or the drag spring. A `Composite` is a
  class with sequences of bodies, constraints and child composites, and add
  and remove methods. The world is itself a `Composite`.
- `Cradle` (Cradle.dfy) holds the page state (`App`: the world and the
  current cradle), `CreateCradle`, and its three stages: the frame, the ball
  loop and the swing. The ball loop is a `while` loop with invariants. The
  `Shaped` and `Placed` predicates say what a built cradle is, and `Build`
  gives them their numbers.

Parameter handling follows `createCradle` (script.js:62-167):

- It validates nothing, so the model has no error path and accepts any
  integers, including `n <= 0`.
- For `n <= 0` the loop body is skipped and no ball is translated. The frame
  is still built from the same formulas.
- For `n = 1` the frame width takes its 300 floor whatever the spacing.

## Model

| member | source | states |
|---|---|---|
| Geometry.FrameWidth | script.js:76-79 | the frame width is at least 300 and at least the ball row's width plus 100, and equals one of the two |
| Geometry.FrameWidthExamples | script.js:76-79 | five balls two apart: a 208-wide row in a 308-wide frame; one ball, any spacing: a 40-wide row in a 300-wide frame |
| Geometry.FrameShape | script.js:80-121 | legs are `L + 120` tall and 15 wide; the top bar is as wide as the frame; the base is 40 wider; the legs stand at `400 ∓ (frameWidth/2 − 7.5)` at equal height; the bar and base are centred on x = 400 |
| Geometry.FrameJoins | script.js:90-115 | each leg spans from the top bar's centre line to the base's centre line; the top bar's lower edge is the rope anchor line `startY` |
| Geometry.Build | script.js:84-154 | the scene has `n` ball centres and `n` rope anchors, paired by index; each anchor is at its ball's x and exactly `L` above it; the frame is top bar, left leg, right leg, base; the swing offset is `(-2*(40+s), -40)` |
| Geometry.Displaced | script.js:162-166 | after the swing only the first ball has moved, by the swing offset; all others are at rest; with no ball nothing moves |
| Geometry.EvenSpacing | script.js:127-129 | neighbouring balls are exactly `40 + s` apart horizontally, at the same height |
| Geometry.StrictlyIncreasing | script.js:127-128 | for `s >= 0`, ball x-positions strictly increase in creation order |
| Geometry.RowCentred | script.js:84-128 | the first and last rest centres average to x = 400, half the scene width |
| Geometry.RowWidth | script.js:76-84 | `totalBallWidth` equals the distance from the first ball's left edge to the last ball's right edge |
| Geometry.RopeUnderBar | script.js:146-149 | for `s >= 0`, each rope anchor is at its ball's x, `L` above the ball, on the top bar's lower edge and strictly within the bar's length |
| Geometry.BallsInsideFrame | script.js:100-129 | for `s >= 0`, every ball at rest lies strictly between the inner faces of the two legs |
| Engine.IndexOf | script.js:63-65 | gives the first position of a composite in a list, or -1 exactly when it is absent |
| Engine.Body.constructor | script.js:129-144 | a new body has the given label, shape, options and position |
| Engine.Body.Translate | script.js:165 | the body's position moves by the given offset, in place |
| Engine.Composite.constructor | script.js:67 | a new composite has the given label and holds nothing |
| Engine.Composite.AddBodies | script.js:123 | the bodies are appended in order; nothing else changes |
| Engine.Composite.AddBody | script.js:156 | the body is appended; nothing else changes |
| Engine.Composite.AddConstraint | script.js:157 | the constraint is appended; nothing else changes |
| Engine.Composite.AddComposite | script.js:160 | the composite is appended to the children; nothing else changes |
| Engine.Composite.RemoveComposite | script.js:63-65 | the first occurrence of the composite is removed, so the children lose exactly one copy of it; removing an absent one changes nothing |
| Cradle.BallsOf | script.js:163 | the filter keeps exactly the bodies labelled `Ball`, and is never longer than its input |
| Cradle.BallsOfAppend | script.js:163 | filtering a concatenation is the concatenation of the filtered parts |
| Cradle.CradleBalls | script.js:163-165 | in a built cradle the filter yields exactly the bodies after the four frame pieces, in creation order, so its first element is the first ball created |
| Cradle.AddFrame | script.js:89-123 | the empty cradle receives the four frame rectangles, distinct and fresh, at their built positions |
| Cradle.AddBalls | script.js:127-158 | the loop adds `max(n, 0)` balls after the frame and as many ropes; each ball is at its rest centre; rope `i` is anchored above ball `i` and attached to it; no body appears twice; the frame is untouched |
| Cradle.SwingFirstBall | script.js:162-166 | only the first ball moves, by `(-2*(40+s), -40)`; frame pieces and other balls stay where they were built |
| Cradle.App.Init | script.js:19-60 | the new world holds the drag spring and exactly one cradle, built for the initial parameters |
| Cradle.App.CreateCradle | script.js:62-167 | the old cradle leaves the world and the new, fresh one is its only composite; it is placed as the layout says; the world's bodies are exactly the new cradle's, and every one of them is new; the world then holds `4 + max(n, 0)` bodies and, with the drag spring, `1 + max(n, 0)` constraints, whatever it held before |
| Cradle.RebuildTwice | script.js:169-172 | rebuilding twice with the same parameters leaves one cradle, built and placed for those parameters, with `4 + max(n, 0)` bodies and `max(n, 0)` ropes, not twice as many |
| Cradle.RebuildDetachesOld | script.js:62-67 | after a rebuild no frame piece or ball of the previous cradle is among the world's bodies, and none of its ropes is among the world's or the new cradle's constraints |

## Left out

- The physics engine, renderer and runner, and the stepping of the world, are not modelled. These are foreign library code. Between rebuilds the engine moves the balls, so the app invariant `Cradle.App.Valid` fixes the cradle's structure and not its positions.
- The drag behaviour of the mouse constraint is not modelled; that state machine lives in the library. Only its spring is modelled: stiffness 0.2, not drawn, added to the world once at start-up.
- DOM wiring and the label text updates in the three `input` listeners are not modelled. `Cradle.RebuildTwice` stands for two listener calls in a row.
- `parseInt` text parsing and NaN propagation are not modelled. Parameters are already-parsed integers.
- JavaScript numbers are IEEE doubles; the model's `int` and `real` arithmetic is exact. Every coordinate here is a multiple of 0.5, which a double holds exactly for magnitudes below 2^52, so in that range the two agree; rounding beyond it is not modelled.
- Render styles and colours are not modelled. The physical options (restitution, friction, air friction, slop, infinite inertia, static flag, collision category and mask) are carried as constant tags and have no dynamics.
- The rope's rest length, which `Constraint.create` computes at creation time, is not modelled. The model states only the anchor point and the attached ball.
- A body's vertices, mass and velocity are not modelled; a body is its label, shape, options and position.
- Cradle.App.CreateCradle: the world's body list (`AllBodies`) follows nesting one level deep, which is all a world holding one cradle has; the library's walk of deeper nesting is not modelled.
