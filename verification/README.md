# Pong game logic in Dafny

A model of the game logic of a small raylib Pong game (`main.cpp`): a ball bouncing
between the player's paddle on the right and a computer-controlled paddle on the left, with
two score counters. Each object's per-frame update is a pure function over immutable
records, and the game loop is a function from one `GameState` to the next.

Every input that raylib supplies becomes an explicit parameter:

- `GetFrameTime()` is `dt`.
- `GetTime()` is `now`.
- `IsKeyDown(KEY_UP)` and `IsKeyDown(KEY_DOWN)` are the `Keys` record.
- The two `GetRandomValue(0, 1)` draws of a ball reset are `ResetDraw`. Each draw is an index into `SpeedChoices = [-1, 1]`.
- The CPU's `GetRandomValue(-20, 20)` draw is a `PredictionError`. This is a subset type of the integers in [-20, 20].
- `CheckCollisionCircleRec` is a function value `CollisionTest`. It is applied to the ball's centre, the ball's radius and the paddle's rectangle, exactly as the game calls it.

Modules:

- `Config` holds the constants at `main.cpp:4-12`. `Byte` stands for `uint8_t`.
- `Geometry` holds `Vec2`, `Rect`, `Abs` and the reference `Clamp`.
- `BallPhysics` models `Ball::update`, `Ball::reset` and the two global scores, as a `Score` record.
- `PaddleControl` models `Paddle::update`, `Paddle::bounds_check` and `Paddle::handle_ball_collision`.
- `CpuControl` models `CpuPaddle::update`, `moveTowardTarget` and its own `bounds_check`, with the AI constants at `main.cpp:185-192`.
- `Game` models the set-up in `main` and the loop body, in the program's order:
  1. both paddles handle the collision;
  2. the ball steps;
  3. the player's paddle steps;
  4. the CPU paddle steps against the moved ball.

Main results:

- Every state reachable from `Init` keeps both ball speed components at magnitude `BallSpeed`.
- Both paddles stay whole on screen, and each frame adds at most one point.
- The player's non-strict clamp and the CPU's strict clamp agree on every paddle, since both equal `Clamp`. Paddle heights are bytes, so the allowed range is never empty.
- A scoring frame leaves the ball exactly as `Ball::reset` made it, because the re-centred ball touches no edge.
- The vertical edge test looks at the position only, not at the direction of travel (`ReflectionIgnoresDirection`).

The comments at `main.cpp:189-190` mention 150 ms and 25 pixels. The code uses 0.05 s and 20 pixels, and the model follows the code.

## Model

| member | source | states |
|---|---|---|
| BallPhysics.NewBall | main.cpp:69-72 | a new ball starts at the given position with both speed components equal to +BallSpeed |
| BallPhysics.Integrate | main.cpp:32-33 | the position moves by velocity times frame time, and velocity and radius are kept |
| BallPhysics.Reset | main.cpp:52-57 | the ball is put exactly at the screen centre; each velocity component keeps or flips its sign, so its magnitude is kept |
| BallPhysics.ResetReachesEveryDirection | main.cpp:54-56 | every one of the four sign combinations is produced by some pair of random draws |
| BallPhysics.Reflect | main.cpp:46 | only the vertical velocity changes, and it is negated |
| BallPhysics.Update | main.cpp:31-48 | left edge touched: only the player's score goes up; otherwise right edge touched: only the CPU's score goes up; otherwise scores are unchanged; the ball is centred after a point and integrated otherwise; speed magnitudes and radius are kept |
| BallPhysics.AtMostOnePoint | main.cpp:35-42 | in one step neither counter decreases, each rises by at most one, and together they rise by at most one |
| BallPhysics.CentreTouchesNoEdge | main.cpp:44-53 | a ball at the reset position touches none of the four edges |
| BallPhysics.ScoringFrameIsReset | main.cpp:35-47 | on a scoring step the resulting ball is exactly the reset of the moved ball, with no vertical reflection |
| BallPhysics.RallyFrame | main.cpp:32-47 | without a point, the ball moves by velocity times frame time, keeps its horizontal velocity, and negates its vertical velocity exactly when it touches the top or bottom edge |
| BallPhysics.ReflectionIgnoresDirection | main.cpp:44-47 | for every ball, score and frame time: on a frame without a point, a ball moving down whose move leaves it touching the top edge has its vertical velocity turned upward again |
| PaddleControl.NewPaddle | main.cpp:124-129 | a new paddle has the given position and size and both speed components equal to PaddleSpeed |
| PaddleControl.Bounds | main.cpp:103-107 | the collision rectangle is centred on the paddle and has the paddle's size |
| PaddleControl.BoundsCheck | main.cpp:131-138 | the result's centre is the clamp of y to [h/2, ScreenHeight - h/2]; a paddle already on screen, bounds included, is unchanged; only y changes |
| PaddleControl.BoundsCheckIdempotent | main.cpp:131-138 | clamping twice is the same as clamping once |
| PaddleControl.Update | main.cpp:94-100 | the result is the clamp of y plus the net key travel (+speed·dt for down, -speed·dt for up); it is on screen; x, speed and size are kept |
| PaddleControl.UpdateMovesByTravel | main.cpp:95-96 | a move that stays on screen is taken exactly |
| PaddleControl.OpposingKeysCancel | main.cpp:95-96 | holding both keys gives the same result as holding neither, which is just the clamp |
| PaddleControl.HandleBallCollision | main.cpp:102-110 | on a reported contact only the ball's horizontal velocity changes, and it is negated; without contact the ball is unchanged |
| PaddleControl.CollisionIsInvolution | main.cpp:102-110 | handling the same contact twice restores the ball |
| CpuControl.NewCpuPaddle | main.cpp:143-149 | a new CPU paddle aims at the middle height and counts its reaction delay from the construction time |
| CpuControl.PredictionMeetsPaddleLine | main.cpp:162-163 | for an approaching ball in front of the paddle, the time to the paddle is non-negative, and the prediction is the ball's height where its straight path reaches the paddle's x |
| CpuControl.MoveTowardTarget | main.cpp:194-205 | within the dead zone of 8 nothing moves; otherwise y moves by exactly speed·dt, down if the target is below and up if it is above; nothing but y changes |
| CpuControl.MoveApproachesTarget | main.cpp:194-205 | outside the dead zone, a step no longer than the distance brings the paddle that much closer to the target |
| CpuControl.BoundsCheck | main.cpp:207-214 | the same clamp with strict comparisons; a paddle on screen, exactly on a bound included, is unchanged |
| CpuControl.BoundsChecksAgree | main.cpp:207-214 | the CPU clamp and the player clamp give the same paddle on every input |
| CpuControl.Retarget | main.cpp:158-176 | approaching ball with the delay elapsed: the target is the prediction plus the drawn error, within ±20, and the last reaction time becomes now; approaching ball before the delay: nothing changes; receding ball: the target is the middle height and the last reaction time is kept |
| CpuControl.Update | main.cpp:153-182 | target and last reaction time are those of Retarget; the last reaction time changes only when the ball approaches and the delay has elapsed; the paddle ends on screen and only its y changes |
| CpuControl.UpdateMovesTowardTarget | main.cpp:172-180 | the new height is the clamp of one move toward the new target at the paddle's speed, in both ball directions |
| CpuControl.RestsInDeadZone | main.cpp:158-205 | an on-screen paddle within the dead zone of its target does not move while it is waiting out its reaction delay |
| Game.Init | main.cpp:219-228 | the initial state satisfies the invariant, has zero scores, the ball at the centre and both paddles at the middle height |
| Game.Frame | main.cpp:229-246 | one loop iteration keeps the invariant, never lowers a score, and adds at most one point |
| Game.Run | main.cpp:229-254 | any sequence of frames keeps the invariant, never lowers a score, and adds at most one point per frame |
| Game.ReachableStatesAreValid | main.cpp:219-246 | every state reachable from the start has both ball speed components of magnitude BallSpeed, both paddles on screen at their fixed x, and no more points than frames |

## Left out

- Drawing is left out: `draw()`, the court, the score text, the FPS counter and colours. They have no effect on the game state.
- The raylib window and the loop's termination are left out: `InitWindow`, `WindowShouldClose` and `CloseWindow`. The loop is modelled as `Run` over a finite sequence of frame inputs.
- The geometry of `CheckCollisionCircleRec` is left out, because its body is not part of this model. Its result is given by the `CollisionTest` parameter.
- IEEE single-precision rounding is left out. Positions, speeds and times are reals, and the constant 0.05f is taken as exactly 0.05.
- Score overflow is left out. The 32-bit score counters are unbounded naturals, since a 32-bit overflow would need over two billion points.
- The float `abs` calls at `main.cpp:162` and `main.cpp:198` are unqualified. The model uses the real absolute value. With a standard library that declares only C's `int abs(int)` at global scope (libstdc++ reached through `<iostream>`), both calls convert their argument to an integer, and the behaviour changes:
  - at `main.cpp:162` the time to the paddle becomes an integer division, so it can only be 0, 1 or 2 seconds. For a ball less than 420 pixels from the paddle it is 0, and the prediction is just the ball's current height;
  - at `main.cpp:198` the dead-zone test becomes `|trunc(difference)| > 8`, which widens the dead zone to distances below 9 pixels.
- The setters and getters of `Ball` and `Paddle` are not modelled as separate members. The records' fields and updates stand in for them.
