/** The ball: frame-time integration, scoring at the left and right edges, re-centring with
    a random diagonal direction, and reflection at the top and bottom edges. The two global
    score counters the ball step increments are threaded through it as a Score record. */
module BallPhysics {
  import opened Config
  import opened Geometry

  datatype Ball = Ball(pos: Vec2, vel: Vec2, radius: Byte)

  /** The two score counters: the player scores when the ball reaches the left edge,
      the CPU when it reaches the right edge. */
  datatype Score = Score(player: nat, cpu: nat)

  /** An index into SpeedChoices, as drawn by the random number generator. */
  type Choice = i: int | 0 <= i <= 1

  /** The sign factors a reset may apply to each velocity component. */
  const SpeedChoices: seq<int> := [-1, 1]

  /** The two random draws a reset consumes, one per velocity component. */
  datatype ResetDraw = ResetDraw(xChoice: Choice, yChoice: Choice)

  /** The result of one ball step: the new ball and the updated scores. */
  datatype BallStep = BallStep(ball: Ball, score: Score)

  function Centre(): Vec2 {
    Vec2(ScreenWidth as real / 2.0, ScreenHeight as real / 2.0)
  }

  /** A freshly constructed ball: it starts moving down and to the right at BallSpeed. */
  function NewBall(pos: Vec2, radius: Byte): (b: Ball)
    ensures b.pos == pos && b.radius == radius
    ensures b.vel.x > 0.0 && b.vel.y > 0.0
    ensures Abs(b.vel.x) == BallSpeed && Abs(b.vel.y) == BallSpeed
  {
    Ball(pos, Vec2(BallSpeed, BallSpeed), radius)
  }

  predicate TouchesLeft(b: Ball) {
    b.pos.x - b.radius as real <= 0.0
  }

  predicate TouchesRight(b: Ball) {
    b.pos.x + b.radius as real >= ScreenWidth as real
  }

  predicate TouchesTopOrBottom(b: Ball) {
    b.pos.y - b.radius as real <= 0.0 || b.pos.y + b.radius as real >= ScreenHeight as real
  }

  /** Moves the ball by its velocity over a frame of dt seconds. */
  function Integrate(b: Ball, dt: real): (r: Ball)
    ensures r.vel == b.vel && r.radius == b.radius
    ensures r.pos.x - b.pos.x == b.vel.x * dt
    ensures r.pos.y - b.pos.y == b.vel.y * dt
  {
    b.(pos := Vec2(b.pos.x + b.vel.x * dt, b.pos.y + b.vel.y * dt))
  }

  /** Re-centres the ball and multiplies each velocity component by a randomly chosen sign. */
  function Reset(b: Ball, d: ResetDraw): (r: Ball)
    ensures r.pos == Centre()
    ensures r.radius == b.radius
    ensures r.vel.x == b.vel.x || r.vel.x == -b.vel.x
    ensures r.vel.y == b.vel.y || r.vel.y == -b.vel.y
    ensures Abs(r.vel.x) == Abs(b.vel.x) && Abs(r.vel.y) == Abs(b.vel.y)
  {
    Ball(Centre(), Vec2(b.vel.x * SpeedChoices[d.xChoice] as real,
                        b.vel.y * SpeedChoices[d.yChoice] as real), b.radius)
  }

  /** Every one of the four diagonal directions is reachable by some draw. */
  lemma ResetReachesEveryDirection(b: Ball, sx: int, sy: int)
    requires sx == -1 || sx == 1
    requires sy == -1 || sy == 1
    ensures exists d: ResetDraw :: Reset(b, d).vel == Vec2(b.vel.x * sx as real, b.vel.y * sy as real)
  {
    var d := ResetDraw(if sx == -1 then 0 else 1, if sy == -1 then 0 else 1);
    assert Reset(b, d).vel == Vec2(b.vel.x * sx as real, b.vel.y * sy as real);
  }

  /** Negates the vertical velocity; nothing else changes. */
  function Reflect(b: Ball): (r: Ball)
    ensures r.pos == b.pos && r.radius == b.radius && r.vel.x == b.vel.x
    ensures r.vel.y + b.vel.y == 0.0
  {
    b.(vel := Vec2(b.vel.x, b.vel.y * -1.0))
  }

  /** One frame of the ball: integrate, score and reset at the left or right edge (the left
      edge wins when both are touched), then reflect at the top or bottom edge. The edge
      tests are made on the position after integration, and the vertical test after a
      possible reset. */
  function Update(b: Ball, s: Score, dt: real, d: ResetDraw): (r: BallStep)
    ensures TouchesLeft(Integrate(b, dt)) ==> r.score == s.(player := s.player + 1)
    ensures !TouchesLeft(Integrate(b, dt)) && TouchesRight(Integrate(b, dt)) ==>
              r.score == s.(cpu := s.cpu + 1)
    ensures !TouchesLeft(Integrate(b, dt)) && !TouchesRight(Integrate(b, dt)) ==> r.score == s
    ensures r.score != s ==> r.ball.pos == Centre()
    ensures r.score == s ==> r.ball.pos == Integrate(b, dt).pos
    ensures r.ball.radius == b.radius
    ensures Abs(r.ball.vel.x) == Abs(b.vel.x) && Abs(r.ball.vel.y) == Abs(b.vel.y)
  {
    var moved := Integrate(b, dt);
    var scored :=
      if TouchesLeft(moved) then BallStep(Reset(moved, d), s.(player := s.player + 1))
      else if TouchesRight(moved) then BallStep(Reset(moved, d), s.(cpu := s.cpu + 1))
      else BallStep(moved, s);
    if TouchesTopOrBottom(scored.ball) then scored.(ball := Reflect(scored.ball)) else scored
  }

  /** In one step at most one counter moves, and neither ever goes down. */
  lemma AtMostOnePoint(b: Ball, s: Score, dt: real, d: ResetDraw)
    ensures var r := Update(b, s, dt, d);
      && s.player <= r.score.player <= s.player + 1
      && s.cpu <= r.score.cpu <= s.cpu + 1
      && r.score.player + r.score.cpu <= s.player + s.cpu + 1
  {
  }

  /** A ball at the centre touches no edge, because its radius is below 256. */
  lemma CentreTouchesNoEdge(b: Ball)
    requires b.pos == Centre()
    ensures !TouchesLeft(b) && !TouchesRight(b) && !TouchesTopOrBottom(b)
  {
  }

  /** On a scoring frame the ball is re-centred and its only velocity change is the
      random sign choice of the reset: the vertical check does not fire at the centre. */
  lemma ScoringFrameIsReset(b: Ball, s: Score, dt: real, d: ResetDraw)
    requires TouchesLeft(Integrate(b, dt)) || TouchesRight(Integrate(b, dt))
    ensures Update(b, s, dt, d).ball == Reset(Integrate(b, dt), d)
  {
    CentreTouchesNoEdge(Reset(Integrate(b, dt), d));
  }

  /** On a frame without a point, the ball moves by vel * dt, and its vertical velocity is
      negated exactly when the moved ball touches the top or bottom edge. */
  lemma RallyFrame(b: Ball, s: Score, dt: real, d: ResetDraw)
    requires !TouchesLeft(Integrate(b, dt)) && !TouchesRight(Integrate(b, dt))
    ensures var r := Update(b, s, dt, d);
      && r.score == s
      && r.ball.pos == Vec2(b.pos.x + b.vel.x * dt, b.pos.y + b.vel.y * dt)
      && r.ball.vel.x == b.vel.x
      && r.ball.vel.y == (if TouchesTopOrBottom(Integrate(b, dt)) then -b.vel.y else b.vel.y)
  {
  }

  /** The vertical test looks at the position only, not the direction of travel: a ball
      whose move leaves it past the top edge while it is already moving down is turned
      round again. */
  lemma ReflectionIgnoresDirection(b: Ball, s: Score, dt: real, d: ResetDraw)
    requires !TouchesLeft(Integrate(b, dt)) && !TouchesRight(Integrate(b, dt))
    requires b.vel.y > 0.0 && Integrate(b, dt).pos.y - b.radius as real <= 0.0
    ensures Update(b, s, dt, d).ball.vel.y < 0.0
  {
  }
}
