/** The fixed parameters of the Pong game: window size, ball and paddle dimensions and speeds.
    Speeds are in pixels per second, sizes in pixels. */
module Config {

  /** An unsigned 8-bit quantity: the type the game uses for the ball radius and the
      paddle width and height. */
  type Byte = b: int | 0 <= b < 256

  const BallSpeed: real := 420.0
  const PaddleSpeed: real := 360.0

  const BallRadius: Byte := 10
  const PaddleHeight: Byte := 120
  const PaddleWidth: Byte := 25

  const ScreenWidth: int := 1280
  const ScreenHeight: int := 800
}
