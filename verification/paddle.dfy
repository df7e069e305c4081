/** The player's paddle: keyboard-driven vertical movement, clamping to the screen, and the
    effect of a detected ball contact on the ball. */
module PaddleControl {
  import opened Config
  import opened Geometry
  import opened BallPhysics

  /** A paddle, positioned by its centre. */
  datatype Paddle = Paddle(pos: Vec2, speed: Vec2, width: Byte, height: Byte)

  /** Which of the up and down keys are held during the frame. */
  datatype Keys = Keys(up: bool, down: bool)

  /** The ball-rectangle intersection test of the graphics library, whose geometry is not
      part of this model: ball centre, ball radius, paddle rectangle. */
  type CollisionTest = (Vec2, real, Rect) -> bool

  /** A freshly constructed paddle moves at PaddleSpeed. */
  function NewPaddle(pos: Vec2, width: Byte, height: Byte): (p: Paddle)
    ensures p.pos == pos && p.width == width && p.height == height
    ensures p.speed == Vec2(PaddleSpeed, PaddleSpeed)
  {
    Paddle(pos, Vec2(PaddleSpeed, PaddleSpeed), width, height)
  }

  function HalfHeight(p: Paddle): real {
    p.height as real / 2.0
  }

  /** The smallest and largest centre heights that keep the paddle on screen. */
  function MinY(p: Paddle): real {
    HalfHeight(p)
  }

  function MaxY(p: Paddle): real {
    ScreenHeight as real - HalfHeight(p)
  }

  /** The whole paddle is on screen. Heights are bytes, so the range is never empty. */
  predicate OnScreen(p: Paddle) {
    MinY(p) <= p.pos.y <= MaxY(p)
  }

  /** The rectangle the paddle occupies, centred on its position. */
  function Bounds(p: Paddle): (r: Rect)
    ensures r.x + r.width / 2.0 == p.pos.x && r.y + r.height / 2.0 == p.pos.y
    ensures r.width == p.width as real && r.height == p.height as real
  {
    Rect(p.pos.x - p.width as real / 2.0, p.pos.y - p.height as real / 2.0,
         p.width as real, p.height as real)
  }

  /** Snaps a paddle that reaches past the top or bottom edge back onto the screen.
      The comparisons are non-strict. */
  function BoundsCheck(p: Paddle): (r: Paddle)
    ensures r.pos.y == Clamp(p.pos.y, MinY(p), MaxY(p))
    ensures OnScreen(r)
    ensures OnScreen(p) ==> r == p
    ensures r == p.(pos := Vec2(p.pos.x, r.pos.y))
  {
    if p.pos.y - HalfHeight(p) <= 0.0 then
      p.(pos := Vec2(p.pos.x, HalfHeight(p)))
    else if p.pos.y + HalfHeight(p) >= ScreenHeight as real then
      p.(pos := Vec2(p.pos.x, ScreenHeight as real - HalfHeight(p)))
    else
      p
  }

  lemma BoundsCheckIdempotent(p: Paddle)
    ensures BoundsCheck(BoundsCheck(p)) == BoundsCheck(p)
  {
  }

  /** The net vertical travel the keys ask for: down adds, up subtracts, both cancel. */
  function Travel(keys: Keys, speed: real, dt: real): real {
    (if keys.down then speed * dt else 0.0) - (if keys.up then speed * dt else 0.0)
  }

  /** One frame of the player's paddle: move up and/or down, then clamp. */
  function Update(p: Paddle, keys: Keys, dt: real): (r: Paddle)
    ensures r == BoundsCheck(p.(pos := Vec2(p.pos.x, p.pos.y + Travel(keys, p.speed.y, dt))))
    ensures OnScreen(r)
    ensures r.pos.x == p.pos.x && r.speed == p.speed
    ensures r.width == p.width && r.height == p.height
  {
    var afterUp := if keys.up then p.pos.y - p.speed.y * dt else p.pos.y;
    var afterDown := if keys.down then afterUp + p.speed.y * dt else afterUp;
    BoundsCheck(p.(pos := Vec2(p.pos.x, afterDown)))
  }

  /** A move that stays on screen is taken exactly. */
  lemma UpdateMovesByTravel(p: Paddle, keys: Keys, dt: real)
    requires MinY(p) <= p.pos.y + Travel(keys, p.speed.y, dt) <= MaxY(p)
    ensures Update(p, keys, dt).pos.y == p.pos.y + Travel(keys, p.speed.y, dt)
  {
  }

  /** Holding both keys is the same as holding neither: the paddle is only clamped. */
  lemma OpposingKeysCancel(p: Paddle, dt: real)
    ensures Update(p, Keys(true, true), dt) == Update(p, Keys(false, false), dt) == BoundsCheck(p)
  {
    assert Travel(Keys(true, true), p.speed.y, dt) == 0.0;
    assert Travel(Keys(false, false), p.speed.y, dt) == 0.0;
    assert p.(pos := Vec2(p.pos.x, p.pos.y + 0.0)) == p;
  }

  /** When the library reports contact between the ball and this paddle, the ball's horizontal
      velocity is negated; its position, vertical velocity and radius never change. */
  function HandleBallCollision(p: Paddle, b: Ball, collides: CollisionTest): (r: Ball)
    ensures r.pos == b.pos && r.radius == b.radius && r.vel.y == b.vel.y
    ensures collides(b.pos, b.radius as real, Bounds(p)) ==> r.vel.x + b.vel.x == 0.0
    ensures !collides(b.pos, b.radius as real, Bounds(p)) ==> r == b
    ensures Abs(r.vel.x) == Abs(b.vel.x)
  {
    if collides(b.pos, b.radius as real, Bounds(p)) then
      b.(vel := Vec2(b.vel.x * -1.0, b.vel.y))
    else
      b
  }

  /** Handling the same contact twice restores the ball. */
  lemma CollisionIsInvolution(p: Paddle, b: Ball, collides: CollisionTest)
    ensures HandleBallCollision(p, HandleBallCollision(p, b, collides), collides) == b
  {
  }
}
