/** The computer's paddle: a paddle plus a target height and the time of its last reaction.
    While the ball approaches it re-predicts the target at most once per reaction delay;
    while the ball moves away it aims for the middle of the screen. It moves at a fixed
    speed toward the target unless it is already within the dead zone. */
module CpuControl {
  import opened Config
  import opened Geometry
  import opened BallPhysics
  import opened PaddleControl

  datatype CpuPaddle = CpuPaddle(body: Paddle, targetY: real, lastReactionTime: real)

  /** Seconds that must pass between two predictions. */
  const ReactionDelay: real := 0.05
  /** Largest random error, in pixels, added to a prediction. */
  const MaxPredictionError: int := 20
  /** Distance to the target, in pixels, within which the paddle does not move. */
  const DeadZone: real := 8.0
  /** Factor applied to the paddle speed while returning to the centre. */
  const ReturnToCentreMultiplier: real := 1.0

  /** A random prediction error, drawn from [-MaxPredictionError, MaxPredictionError]. */
  type PredictionError = e: int | -MaxPredictionError <= e <= MaxPredictionError

  /** A freshly constructed CPU paddle aims at the middle of the screen and counts its
      reaction delay from the construction time. */
  function NewCpuPaddle(pos: Vec2, width: Byte, height: Byte, now: real): (c: CpuPaddle)
    ensures c.body == NewPaddle(pos, width, height)
    ensures c.targetY == ScreenHeight as real / 2.0 && c.lastReactionTime == now
  {
    CpuPaddle(NewPaddle(pos, width, height), ScreenHeight as real / 2.0, now)
  }

  /** The time the approaching ball needs to cover the horizontal distance to the paddle. */
  function TimeToPaddle(c: CpuPaddle, ball: Ball): real
    requires ball.vel.x < 0.0
  {
    Abs(ball.pos.x - c.body.pos.x) / Abs(ball.vel.x)
  }

  /** The ball's height extrapolated linearly over TimeToPaddle. */
  function PredictedY(c: CpuPaddle, ball: Ball): real
    requires ball.vel.x < 0.0
  {
    ball.pos.y + ball.vel.y * TimeToPaddle(c, ball)
  }

  /** For a ball still in front of the paddle, the prediction is where the ball's straight
      path crosses the paddle's vertical line. */
  lemma PredictionMeetsPaddleLine(c: CpuPaddle, ball: Ball)
    requires ball.vel.x < 0.0 && ball.pos.x >= c.body.pos.x
    ensures var t := TimeToPaddle(c, ball);
      && t >= 0.0
      && ball.pos.x + ball.vel.x * t == c.body.pos.x
      && PredictedY(c, ball) == ball.pos.y + ball.vel.y * t
  {
    var dx := ball.pos.x - c.body.pos.x;
    var t := TimeToPaddle(c, ball);
    assert t == dx / -ball.vel.x;
    assert ball.vel.x * t == -dx;
  }

  /** Moves by speed * dt toward the target when it lies outside the dead zone. */
  function MoveTowardTarget(c: CpuPaddle, speed: real, dt: real): (r: CpuPaddle)
    ensures r == c.(body := c.body.(pos := Vec2(c.body.pos.x, r.body.pos.y)))
    ensures Abs(c.targetY - c.body.pos.y) <= DeadZone ==> r == c
    ensures c.targetY > c.body.pos.y + DeadZone ==> r.body.pos.y == c.body.pos.y + speed * dt
    ensures c.targetY < c.body.pos.y - DeadZone ==> r.body.pos.y == c.body.pos.y - speed * dt
  {
    var difference := c.targetY - c.body.pos.y;
    if Abs(difference) > DeadZone then
      if difference > 0.0 then
        c.(body := c.body.(pos := Vec2(c.body.pos.x, c.body.pos.y + speed * dt)))
      else
        c.(body := c.body.(pos := Vec2(c.body.pos.x, c.body.pos.y - speed * dt)))
    else
      c
  }

  /** Outside the dead zone, a step no longer than the distance brings the paddle closer to
      the target by exactly that step. */
  lemma MoveApproachesTarget(c: CpuPaddle, speed: real, dt: real)
    requires Abs(c.targetY - c.body.pos.y) > DeadZone
    requires 0.0 <= speed * dt <= Abs(c.targetY - c.body.pos.y)
    ensures var r := MoveTowardTarget(c, speed, dt);
      Abs(c.targetY - r.body.pos.y) == Abs(c.targetY - c.body.pos.y) - speed * dt
  {
    var r := MoveTowardTarget(c, speed, dt);
    if c.targetY > c.body.pos.y {
      assert r.body.pos.y == c.body.pos.y + speed * dt;
    } else {
      assert r.body.pos.y == c.body.pos.y - speed * dt;
    }
  }

  /** The CPU paddle's own clamp, with strict comparisons: a paddle exactly on a bound is
      left where it is. */
  function BoundsCheck(c: CpuPaddle): (r: CpuPaddle)
    ensures r.body.pos.y == Clamp(c.body.pos.y, MinY(c.body), MaxY(c.body))
    ensures OnScreen(r.body)
    ensures OnScreen(c.body) ==> r == c
    ensures r == c.(body := c.body.(pos := Vec2(c.body.pos.x, r.body.pos.y)))
  {
    var halfHeight := c.body.height as real / 2.0;
    if c.body.pos.y - halfHeight < 0.0 then
      c.(body := c.body.(pos := Vec2(c.body.pos.x, halfHeight)))
    else if c.body.pos.y + halfHeight > ScreenHeight as real then
      c.(body := c.body.(pos := Vec2(c.body.pos.x, ScreenHeight as real - halfHeight)))
    else
      c
  }

  /** The strict clamp of the CPU paddle and the non-strict clamp of the player's paddle
      give the same result on every paddle. */
  lemma BoundsChecksAgree(c: CpuPaddle)
    ensures BoundsCheck(c).body == PaddleControl.BoundsCheck(c.body)
  {
  }

  /** The target the paddle aims for in this frame, before it moves. */
  function Retarget(c: CpuPaddle, ball: Ball, now: real, err: PredictionError): (r: CpuPaddle)
    ensures r.body == c.body
    ensures ball.vel.x < 0.0 && now - c.lastReactionTime > ReactionDelay ==>
              && r.lastReactionTime == now
              && r.targetY - PredictedY(c, ball) == err as real
              && PredictedY(c, ball) - MaxPredictionError as real <= r.targetY
              && r.targetY <= PredictedY(c, ball) + MaxPredictionError as real
    ensures ball.vel.x < 0.0 && now - c.lastReactionTime <= ReactionDelay ==> r == c
    ensures ball.vel.x >= 0.0 ==>
              r.targetY == ScreenHeight as real / 2.0 && r.lastReactionTime == c.lastReactionTime
  {
    if ball.vel.x < 0.0 then
      if now - c.lastReactionTime > ReactionDelay then
        c.(targetY := PredictedY(c, ball) + err as real, lastReactionTime := now)
      else
        c
    else
      c.(targetY := ScreenHeight as real / 2.0)
  }

  /** One frame of the CPU paddle: retarget, move toward the target at full speed while the
      ball approaches and at ReturnToCentreMultiplier times that while it recedes, then clamp. */
  function Update(c: CpuPaddle, ball: Ball, now: real, dt: real, err: PredictionError): (r: CpuPaddle)
    ensures r.targetY == Retarget(c, ball, now, err).targetY
    ensures r.lastReactionTime == Retarget(c, ball, now, err).lastReactionTime
    ensures OnScreen(r.body)
    ensures r.body == c.body.(pos := Vec2(c.body.pos.x, r.body.pos.y))
    ensures r.lastReactionTime != c.lastReactionTime ==>
              ball.vel.x < 0.0 && now - c.lastReactionTime > ReactionDelay && r.lastReactionTime == now
  {
    var aimed := Retarget(c, ball, now, err);
    var speed := if ball.vel.x < 0.0 then c.body.speed.y
                 else c.body.speed.y * ReturnToCentreMultiplier;
    BoundsCheck(MoveTowardTarget(aimed, speed, dt))
  }

  /** The paddle's height after a frame is its height moved toward the new target and
      clamped; the speed is the same in both directions since the multiplier is one. */
  lemma UpdateMovesTowardTarget(c: CpuPaddle, ball: Ball, now: real, dt: real, err: PredictionError)
    ensures var aimed := Retarget(c, ball, now, err);
      Update(c, ball, now, dt, err).body.pos.y
        == Clamp(MoveTowardTarget(aimed, c.body.speed.y, dt).body.pos.y, MinY(c.body), MaxY(c.body))
  {
  }

  /** A paddle on screen that is within the dead zone of its unchanged target stays put. */
  lemma RestsInDeadZone(c: CpuPaddle, ball: Ball, now: real, dt: real, err: PredictionError)
    requires OnScreen(c.body)
    requires ball.vel.x < 0.0 && now - c.lastReactionTime <= ReactionDelay
    requires Abs(c.targetY - c.body.pos.y) <= DeadZone
    ensures Update(c, ball, now, dt, err) == c
  {
  }
}
