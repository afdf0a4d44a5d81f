/**
 * Ball kinematics apart from bricks: riding on the paddle, speed
 * renormalisation, integration, wall and paddle bounces, launching,
 * MultiBall copies and the removal of lost balls.
 */
module Balls {
  import opened Geometry
  import opened Entities

  /** An attached ball follows the paddle, velocity untouched. */
  function Snap(b: Ball, paddleX: real): (r: Ball)
    ensures r.x == paddleX && r.y == REST_Y && r.y < PADDLE_Y
    ensures r.vx == b.vx && r.vy == b.vy && r.radius == b.radius && r.speed == b.speed && r.attached == b.attached
  {
    b.(x := paddleX, y := REST_Y)
  }

  /** A ball of at most the standard radius riding on the paddle never counts as colliding with it. */
  lemma SnapClear(b: Ball, paddleX: real, w: real)
    requires b.radius <= BALL_RADIUS
    ensures !CheckPaddleCollision(Snap(b, paddleX), paddleX, w)
  {
  }

  /** Speed renormalisation: both components scaled by the same positive factor. */
  function Rescaled(b: Ball, f: Factor): (r: Ball)
    ensures (r.vx < 0.0 <==> b.vx < 0.0) && (r.vy < 0.0 <==> b.vy < 0.0)
    ensures r.vx * b.vy == r.vy * b.vx
    ensures r.x == b.x && r.y == b.y && r.radius == b.radius && r.speed == b.speed && r.attached == b.attached
  {
    b.(vx := b.vx * f, vy := b.vy * f)
  }

  function Advanced(b: Ball, dt: real): Ball
  {
    b.(x := b.x + b.vx * dt, y := b.y + b.vy * dt)
  }

  /** The ball's radius allows it to fit between the side walls. */
  predicate FitsField(b: Ball)
  {
    0.0 <= b.radius && 2.0 * b.radius <= CANVAS_WIDTH
  }

  /**
   * Left, right and top wall checks in that order: clamp the position and
   * point the crossed wall's velocity component back into the field. The
   * bottom edge does not bounce.
   */
  function WallBounce(b: Ball): (r: Ball)
    ensures r.radius == b.radius && r.speed == b.speed && r.attached == b.attached
    ensures (r.vx == b.vx || r.vx == -b.vx) && (r.vy == b.vy || r.vy == -b.vy)
    ensures FitsField(b) ==> r.radius <= r.x <= CANVAS_WIDTH - r.radius && r.y >= r.radius
    ensures FitsField(b) && b.x - b.radius < 0.0 ==> r.vx >= 0.0
    ensures b.x + b.radius > CANVAS_WIDTH ==> r.vx <= 0.0
    ensures b.y - b.radius < 0.0 ==> r.vy >= 0.0
    ensures b.y - b.radius >= 0.0 ==> r.y == b.y && r.vy == b.vy
    ensures 0.0 <= b.x - b.radius && b.x + b.radius <= CANVAS_WIDTH && 0.0 <= b.y - b.radius ==> r == b
  {
    var b1 := if b.x - b.radius < 0.0 then b.(x := b.radius, vx := Abs(b.vx)) else b;
    var b2 := if b1.x + b1.radius > CANVAS_WIDTH then b1.(x := CANVAS_WIDTH - b1.radius, vx := -Abs(b1.vx)) else b1;
    if b2.y - b2.radius < 0.0 then b2.(y := b2.radius, vy := Abs(b2.vy)) else b2
  }

  /** Where the ball struck the paddle, from -1 (left end) to 1 (right end). */
  function HitPos(b: Ball, paddleX: real, paddleWidth: real): (h: real)
    requires paddleWidth > 0.0
    ensures -1.0 <= h <= 1.0
    ensures b.x == paddleX ==> h == 0.0
    ensures (h < 0.0 <==> b.x < paddleX) && (h > 0.0 <==> b.x > paddleX)
  {
    Max(-1.0, Min(1.0, (b.x - paddleX) / (paddleWidth / 2.0)))
  }

  /**
   * A downward ball overlapping the paddle leaves it upwards, at the target
   * speed in the direction the bounce angle gives, placed just above the
   * paddle so that it no longer overlaps it; otherwise nothing changes.
   */
  function PaddleBounce(b: Ball, paddleX: real, paddleWidth: real, speed: real, trig: Trig): (r: Ball)
    requires paddleWidth > 0.0
    ensures b.vy > 0.0 && CheckPaddleCollision(b, paddleX, paddleWidth) && speed > 0.0 ==>
              r.vy < 0.0 && !CheckPaddleCollision(r, paddleX, paddleWidth)
    ensures !(b.vy > 0.0 && CheckPaddleCollision(b, paddleX, paddleWidth)) ==> r == b
    ensures r.x == b.x && r.radius == b.radius && r.speed == b.speed && r.attached == b.attached
  {
    if b.vy > 0.0 && CheckPaddleCollision(b, paddleX, paddleWidth) then
      var h := trig.bounce(HitPos(b, paddleX, paddleWidth));
      b.(vx := speed * h.sin, vy := -speed * h.cos, y := PADDLE_Y - PADDLE_HEIGHT / 2.0 - b.radius - 1.0)
    else b
  }

  /**
   * One frame of a free ball before the brick check: renormalise, move,
   * bounce off the walls, then off the paddle. The ball ends between the side
   * walls and below the top, and never heads down while touching the paddle.
   */
  function Fly(b: Ball, paddleX: real, paddleWidth: real, speed: real, trig: Trig, dt: real): (r: Ball)
    requires paddleWidth > 0.0
    ensures r.radius == b.radius && r.speed == b.speed && r.attached == b.attached
    ensures FitsField(b) ==> r.radius <= r.x <= CANVAS_WIDTH - r.radius && r.y >= r.radius
    ensures r.vy > 0.0 ==> !CheckPaddleCollision(r, paddleX, paddleWidth)
  {
    var moved := Advanced(Rescaled(b, trig.rescale(b.vx, b.vy, speed)), dt);
    PaddleBounce(WallBounce(moved), paddleX, paddleWidth, speed, trig)
  }

  /** The launch of an attached ball: upwards at its (possibly slowed) speed, detached. */
  function Launched(b: Ball, h: SteepHeading, slowMo: bool): (r: Ball)
    ensures b.speed > 0.0 ==> r.vy < 0.0
    ensures var v := if slowMo then b.speed * SLOWMO_FACTOR else b.speed;
            SpeedSq(r) == v * v * (h.sin * h.sin + h.cos * h.cos)
    ensures !r.attached
    ensures r.x == b.x && r.y == b.y && r.radius == b.radius && r.speed == b.speed
  {
    var speed := if slowMo then b.speed * SLOWMO_FACTOR else b.speed;
    b.(vx := h.sin * speed, vy := -h.cos * speed, attached := false)
  }

  function SpeedSq(b: Ball): real { b.vx * b.vx + b.vy * b.vy }

  /** A free copy of b whose velocity is rotated by the angle whose sine and cosine are given. */
  function Rotated(b: Ball, sin: real, cos: real): (r: Ball)
    ensures SpeedSq(r) == SpeedSq(b) * (sin * sin + cos * cos)
    ensures r.x == b.x && r.y == b.y && r.radius == b.radius && r.speed == b.speed && !r.attached
  {
    var r := Ball(b.x, b.y, b.vx * cos - b.vy * sin, b.vx * sin + b.vy * cos, b.radius, b.speed, false);
    assert SpeedSq(r) == SpeedSq(b) * (sin * sin + cos * cos) by {
      calc {
        SpeedSq(r);
        (b.vx * cos - b.vy * sin) * (b.vx * cos - b.vy * sin) + (b.vx * sin + b.vy * cos) * (b.vx * sin + b.vy * cos);
        b.vx * b.vx * (cos * cos + sin * sin) + b.vy * b.vy * (sin * sin + cos * cos);
      }
    }
    r
  }

  /** The two MultiBall copies of a ball: none for an attached ball. */
  function Twins(b: Ball, trig: Trig): seq<Ball>
  {
    if b.attached then [] else [Rotated(b, trig.sin30, trig.cos30), Rotated(b, -trig.sin30, trig.cos30)]
  }

  /** The balls MultiBall adds: the twins of every ball, in order. */
  function Spawned(bs: seq<Ball>, trig: Trig): seq<Ball>
  {
    if bs == [] then [] else Spawned(bs[..|bs| - 1], trig) + Twins(bs[|bs| - 1], trig)
  }

  function FreeCount(bs: seq<Ball>): nat
  {
    if bs == [] then 0 else FreeCount(bs[..|bs| - 1]) + (if bs[|bs| - 1].attached then 0 else 1)
  }

  /**
   * MultiBall adds two free copies per free ball, each at the position,
   * radius and nominal speed of a free ball it copies.
   */
  lemma {:induction false} SpawnedShape(bs: seq<Ball>, trig: Trig)
    ensures |Spawned(bs, trig)| == 2 * FreeCount(bs)
    ensures forall k :: 0 <= k < |Spawned(bs, trig)| ==>
              !Spawned(bs, trig)[k].attached &&
              exists j :: 0 <= j < |bs| && !bs[j].attached &&
                Spawned(bs, trig)[k].x == bs[j].x && Spawned(bs, trig)[k].y == bs[j].y &&
                Spawned(bs, trig)[k].radius == bs[j].radius && Spawned(bs, trig)[k].speed == bs[j].speed
  {
    if bs != [] {
      var n := |bs| - 1;
      SpawnedShape(bs[..n], trig);
      var s := Spawned(bs, trig);
      forall k | 0 <= k < |s|
        ensures !s[k].attached &&
                exists j :: 0 <= j < |bs| && !bs[j].attached &&
                  s[k].x == bs[j].x && s[k].y == bs[j].y && s[k].radius == bs[j].radius && s[k].speed == bs[j].speed
      {
        if k < |Spawned(bs[..n], trig)| {
          var j :| 0 <= j < n && !bs[..n][j].attached &&
                   s[k].x == bs[..n][j].x && s[k].y == bs[..n][j].y &&
                   s[k].radius == bs[..n][j].radius && s[k].speed == bs[..n][j].speed;
          assert bs[..n][j] == bs[j];
        } else {
          assert !bs[n].attached;
        }
      }
    }
  }

  /** When every ball is attached, MultiBall adds nothing; when none is, it triples the count. */
  lemma {:induction false} FreeCountUniform(bs: seq<Ball>, attached: bool)
    requires forall i :: 0 <= i < |bs| ==> bs[i].attached == attached
    ensures FreeCount(bs) == if attached then 0 else |bs|
  {
    if bs != [] { FreeCountUniform(bs[..|bs| - 1], attached); }
  }

  /** A ball still in play: its top edge has not passed the bottom of the field. */
  predicate InPlay(b: Ball)
  {
    b.y - b.radius < CANVAS_HEIGHT
  }

  /** The balls still in play, in their original order. */
  function Survivors(bs: seq<Ball>): seq<Ball>
  {
    if bs == [] then []
    else Survivors(bs[..|bs| - 1]) + (if InPlay(bs[|bs| - 1]) then [bs[|bs| - 1]] else [])
  }

  /** The survivors are exactly the balls in play, never more than there were. */
  lemma {:induction false} SurvivorsMembers(bs: seq<Ball>)
    ensures forall b :: b in Survivors(bs) <==> b in bs && InPlay(b)
    ensures |Survivors(bs)| <= |bs|
    ensures |Survivors(bs)| == |bs| <==> forall i :: 0 <= i < |bs| ==> InPlay(bs[i])
  {
    if bs != [] {
      var n := |bs| - 1;
      SurvivorsMembers(bs[..n]);
      assert bs == bs[..n] + [bs[n]];
      if |Survivors(bs)| == |bs| {
        assert |Survivors(bs[..n])| == n;
      }
    }
  }

  /** Filtering keeps relative order: it distributes over concatenation. */
  lemma {:induction false} SurvivorsAppend(a: seq<Ball>, c: seq<Ball>)
    ensures Survivors(a + c) == Survivors(a) + Survivors(c)
  {
    if c == [] {
      assert a + c == a;
    } else {
      var n := |c| - 1;
      assert (a + c)[..|a + c| - 1] == a + c[..n];
      SurvivorsAppend(a, c[..n]);
    }
  }
}
