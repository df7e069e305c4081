/** The game loop: the initial state, one frame in the program's fixed order (both paddles
    test for contact with the ball, the ball steps, the player's paddle steps, the CPU
    paddle steps against the moved ball), and a run of frames. Every input the graphics
    library supplies during a frame is a field of FrameInput. */
module Game {
  import opened Config
  import opened Geometry
  import opened BallPhysics
  import opened PaddleControl
  import opened CpuControl

  datatype GameState = GameState(ball: Ball, player: Paddle, cpu: CpuPaddle, score: Score)

  /** The frame time, the clock, the keys held, the contact test, the two sign draws of a
      possible ball reset and the CPU's prediction error draw. */
  datatype FrameInput = FrameInput(
    dt: real, now: real, keys: Keys, collides: CollisionTest, resetDraw: ResetDraw, error: PredictionError)

  /** The player's paddle sits 10 pixels from the right edge and the CPU's 10 pixels from
      the left one; half the width is computed in integer arithmetic. */
  const PlayerX: real := (ScreenWidth - PaddleWidth / 2 - 10) as real
  const CpuX: real := (PaddleWidth / 2 + 10) as real

  /** What every reachable state satisfies: the ball's speed components keep their initial
      magnitude, both paddles are whole on screen, and everything the frame never changes
      keeps its initial value. */
  predicate Invariant(g: GameState) {
    && Abs(g.ball.vel.x) == BallSpeed && Abs(g.ball.vel.y) == BallSpeed
    && g.ball.radius == BallRadius
    && OnScreen(g.player) && OnScreen(g.cpu.body)
    && g.player.pos.x == PlayerX && g.cpu.body.pos.x == CpuX
    && g.player.height == PaddleHeight && g.cpu.body.height == PaddleHeight
    && g.player.width == PaddleWidth && g.cpu.body.width == PaddleWidth
  }

  function TotalPoints(s: Score): nat {
    s.player + s.cpu
  }

  /** The state before the first frame: objects built at the middle height, the ball reset
      once, no points. */
  function Init(now: real, d: ResetDraw): (g: GameState)
    ensures Invariant(g)
    ensures g.score == Score(0, 0)
    ensures g.ball.pos == Centre()
    ensures g.player.pos.y == g.cpu.body.pos.y == ScreenHeight as real / 2.0
  {
    var middle := ScreenHeight as real / 2.0;
    var ball := Reset(NewBall(Centre(), BallRadius), d);
    var player := NewPaddle(Vec2(PlayerX, middle), PaddleWidth, PaddleHeight);
    var cpu := NewCpuPaddle(Vec2(CpuX, middle), PaddleWidth, PaddleHeight, now);
    GameState(ball, player, cpu, Score(0, 0))
  }

  /** One iteration of the game loop, drawing left out. */
  function Frame(g: GameState, input: FrameInput): (r: GameState)
    ensures Invariant(g) ==> Invariant(r)
    ensures g.score.player <= r.score.player && g.score.cpu <= r.score.cpu
    ensures TotalPoints(r.score) <= TotalPoints(g.score) + 1
  {
    var afterPlayerHit := HandleBallCollision(g.player, g.ball, input.collides);
    var afterCpuHit := HandleBallCollision(g.cpu.body, afterPlayerHit, input.collides);
    var step := BallPhysics.Update(afterCpuHit, g.score, input.dt, input.resetDraw);
    var player := PaddleControl.Update(g.player, input.keys, input.dt);
    var cpu := CpuControl.Update(g.cpu, step.ball, input.now, input.dt, input.error);
    GameState(step.ball, player, cpu, step.score)
  }

  /** The state after the given frames, in order. */
  function Run(g: GameState, inputs: seq<FrameInput>): (r: GameState)
    ensures Invariant(g) ==> Invariant(r)
    ensures g.score.player <= r.score.player && g.score.cpu <= r.score.cpu
    ensures TotalPoints(r.score) <= TotalPoints(g.score) + |inputs|
    decreases |inputs|
  {
    if |inputs| == 0 then g else Run(Frame(g, inputs[0]), inputs[1..])
  }

  /** Every state the game can reach from its start satisfies the invariant, and no more
      points have been scored than frames have passed. */
  lemma {:induction false} ReachableStatesAreValid(now: real, d: ResetDraw, inputs: seq<FrameInput>)
    ensures Invariant(Run(Init(now, d), inputs))
    ensures TotalPoints(Run(Init(now, d), inputs).score) <= |inputs|
  {
  }
}
