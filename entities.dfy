/**
 * Constants and entities of the arcade simulation: the field, the paddle,
 * balls, bricks and falling power-ups, and the values that stand for the
 * host's random draws and floating-point trigonometry.
 */
module Entities {
  import opened Geometry

  // The field and its inhabitants, in canvas pixels and milliseconds.
  const CANVAS_WIDTH: real := 480.0
  const CANVAS_HEIGHT: real := 640.0

  const PADDLE_WIDTH: real := 80.0
  const PADDLE_HEIGHT: real := 14.0
  const PADDLE_Y: real := 600.0
  const PADDLE_SPEED: real := 450.0

  const BALL_RADIUS: real := 8.0
  const BALL_SPEED: real := 380.0

  const BRICK_COLS: int := 10
  const BRICK_WIDTH: real := 44.0
  const BRICK_HEIGHT: real := 20.0
  const BRICK_PADDING: real := 4.0
  const BRICK_TOP_OFFSET: real := 60.0
  const BRICK_LEFT_OFFSET: real :=
    (CANVAS_WIDTH - (BRICK_COLS as real * (BRICK_WIDTH + BRICK_PADDING) - BRICK_PADDING)) / 2.0

  const POWERUP_FALL_SPEED: real := 150.0
  const POWERUP_WIDTH: real := 32.0
  const POWERUP_HEIGHT: real := 18.0

  const EXPAND_DURATION: real := 10000.0
  const EXPAND_FACTOR: real := 1.5
  const SLOWMO_DURATION: real := 8000.0
  const SLOWMO_FACTOR: real := 0.6

  /** The frame step is clamped to this many seconds. */
  const MAX_DT: real := 0.1
  const START_LIVES: int := 3
  /** Points per unit of a destroyed brick's original durability. */
  const POINTS_PER_DURABILITY: int := 10

  /** Width of the paddle while Expand is active. */
  const EXPANDED_WIDTH: real := PADDLE_WIDTH * EXPAND_FACTOR

  /** Height of an attached ball's centre: just above the paddle's top edge. */
  const REST_Y: real := PADDLE_Y - BALL_RADIUS - PADDLE_HEIGHT / 2.0 - 2.0

  datatype Option<T> = None | Some(value: T)

  datatype GameState = Idle | Playing | Paused | GameOver | Win

  datatype PowerUpKind = MultiBall | Expand | SlowMo

  datatype Ball = Ball(x: real, y: real, vx: real, vy: real, radius: real, speed: real, attached: bool)

  datatype Brick = Brick(x: real, y: real, width: real, height: real,
                         durability: int, maxDurability: int, alive: bool)

  datatype PowerUp = PowerUp(x: real, y: real, vy: real, kind: PowerUpKind, width: real, height: real)

  /** The held direction keys, sampled once per frame. */
  datatype Keys = Keys(left: bool, right: bool)

  /** The positive factor by which speed renormalisation scales a velocity (1 when no rescale is due). */
  type Factor = f: real | 0.0 < f witness 1.0

  /** sin and cos of a direction measured from straight up. */
  datatype Heading = Heading(sin: real, cos: real)

  /**
   * A heading at most 60 degrees away from straight up: every launch angle
   * (within 0.25 rad) and every paddle bounce angle (within MAX_BOUNCE_ANGLE) is one.
   */
  type SteepHeading = h: Heading | -1.0 <= h.sin <= 1.0 && 0.5 <= h.cos <= 1.0 witness Heading(0.0, 1.0)

  /**
   * The floating-point results the simulation takes from Math.sqrt, Math.sin and Math.cos:
   * `rescale(vx, vy, target)` is the factor speed renormalisation applies,
   * `bounce(hitPos)` the direction of a paddle bounce, and `sin30`, `cos30`
   * the values used to rotate MultiBall copies by 30 degrees.
   */
  datatype Trig = Trig(rescale: (real, real, real) -> Factor,
                       bounce: real -> SteepHeading,
                       sin30: real, cos30: real)

  /** The box of a ball, for the paddle test. */
  function BallBox(b: Ball): Box
  {
    CenteredBox(b.x, b.y, 2.0 * b.radius, 2.0 * b.radius)
  }

  /** The box of the paddle centred at x with the given width. */
  function PaddleBox(paddleX: real, paddleWidth: real): Box
  {
    CenteredBox(paddleX, PADDLE_Y, paddleWidth, PADDLE_HEIGHT)
  }

  /** The box of a falling power-up (centred on its position). */
  function PowerUpBox(p: PowerUp): Box
  {
    CenteredBox(p.x, p.y, p.width, p.height)
  }

  /**
   * `checkPaddleCollision`: the ball's box overlaps the paddle's box, that is,
   * on each axis the centres are closer than the two half-extents together.
   */
  function CheckPaddleCollision(b: Ball, paddleX: real, paddleWidth: real): (r: bool)
    ensures r <==> Abs(b.x - paddleX) < b.radius + paddleWidth / 2.0
                   && Abs(b.y - PADDLE_Y) < b.radius + PADDLE_HEIGHT / 2.0
  {
    Overlap(BallBox(b), PaddleBox(paddleX, paddleWidth))
  }

  /**
   * `createBall`: a motionless ball centred on the paddle, resting at the
   * rest height just above it (clear of it: see CreateBallClear), and so
   * above the bottom edge of the field, in play.
   */
  function CreateBall(paddleX: real, attached: bool): (b: Ball)
    ensures b.x == paddleX && b.attached == attached
    ensures b.vx == 0.0 && b.vy == 0.0
    ensures b.radius == BALL_RADIUS && b.speed == BALL_SPEED
    ensures b.y == REST_Y && b.y - b.radius < CANVAS_HEIGHT
  {
    Ball(paddleX, REST_Y, 0.0, 0.0, BALL_RADIUS, BALL_SPEED, attached)
  }

  /** A freshly created ball rests clear of the paddle, whatever the paddle's width. */
  lemma CreateBallClear(paddleX: real, attached: bool, w: real)
    ensures !CheckPaddleCollision(CreateBall(paddleX, attached), paddleX, w)
  {
  }
}
