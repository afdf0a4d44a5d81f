/**
 * Brick collisions: which brick a ball hits, how the ball bounces off it,
 * how the brick wears down and what its destruction is worth.
 */
module Bricks {
  import opened Geometry
  import opened Entities

  /** The circle-rectangle test of a ball against a brick. */
  predicate CircleHitsBrick(ball: Ball, brick: Brick)
  {
    CircleHitsRect(ball.x, ball.y, ball.radius, brick.x, brick.y, brick.width, brick.height)
  }

  /** A live brick the ball touches. */
  predicate Struck(ball: Ball, brick: Brick)
  {
    brick.alive && CircleHitsBrick(ball, brick)
  }

  /**
   * The brick a ball hits among bricks[..n]: scanning from the highest index
   * down, the first live brick it overlaps, if any.
   */
  function HitIndex(bricks: seq<Brick>, ball: Ball, n: nat): (k: Option<nat>)
    requires n <= |bricks|
    ensures k.Some? ==> k.value < n && Struck(ball, bricks[k.value])
    ensures k.Some? ==> forall j :: k.value < j < n ==> !Struck(ball, bricks[j])
    ensures k.None? ==> forall j :: 0 <= j < n ==> !Struck(ball, bricks[j])
    decreases n
  {
    if n == 0 then None
    else if Struck(ball, bricks[n - 1]) then Some(n - 1)
    else HitIndex(bricks, ball, n - 1)
  }

  /** The ball's offset from the nearest point of the brick, along x and y. */
  function OffsetX(ball: Ball, brick: Brick): real { ball.x - Clamp(ball.x, brick.x, brick.x + brick.width) }

  function OffsetY(ball: Ball, brick: Brick): real { ball.y - Clamp(ball.y, brick.y, brick.y + brick.height) }

  /**
   * The bounce off a brick: along the axis of smaller penetration, negate that
   * velocity component and push the ball out along that axis.
   */
  function Deflect(ball: Ball, brick: Brick): (r: Ball)
    ensures var overlapX := ball.radius - Abs(OffsetX(ball, brick));
            var overlapY := ball.radius - Abs(OffsetY(ball, brick));
            if overlapX < overlapY then r.vx == -ball.vx && r.vy == ball.vy && r.y == ball.y
            else r.vy == -ball.vy && r.vx == ball.vx && r.x == ball.x
    ensures r.radius == ball.radius && r.speed == ball.speed && r.attached == ball.attached
    // The push leaves the centre exactly one radius from the brick's nearest point on that axis.
    ensures CircleHitsBrick(ball, brick) && 0.0 <= ball.radius ==>
              if ball.radius - Abs(OffsetX(ball, brick)) < ball.radius - Abs(OffsetY(ball, brick))
              then Abs(r.x - Clamp(ball.x, brick.x, brick.x + brick.width)) == ball.radius
              else Abs(r.y - Clamp(ball.y, brick.y, brick.y + brick.height)) == ball.radius
  {
    var dx := OffsetX(ball, brick);
    var dy := OffsetY(ball, brick);
    var overlapX := ball.radius - Abs(dx);
    var overlapY := ball.radius - Abs(dy);
    if overlapX < overlapY then
      ball.(vx := -ball.vx, x := ball.x + (if dx > 0.0 then overlapX else -overlapX))
    else
      ball.(vy := -ball.vy, y := ball.y + (if dy > 0.0 then overlapY else -overlapY))
  }

  /** The ball after the brick check against `bricks`: deflected off the brick HitIndex picks, if any. */
  function Rebound(bricks: seq<Brick>, ball: Ball): Ball
  {
    match HitIndex(bricks, ball, |bricks|)
    case None => ball
    case Some(k) => Deflect(ball, bricks[k])
  }

  /** The field after the brick check: the brick HitIndex picks takes one hit, every other brick is unchanged. */
  function Strike(bricks: seq<Brick>, ball: Ball): seq<Brick>
  {
    match HitIndex(bricks, ball, |bricks|)
    case None => bricks
    case Some(k) => bricks[k := Hit(bricks[k])]
  }

  /** A brick in a consistent state: alive exactly while durability is positive. */
  predicate WellFormed(b: Brick)
  {
    1 <= b.maxDurability && 0 <= b.durability <= b.maxDurability && (b.alive <==> b.durability > 0)
  }

  predicate AllWellFormed(bricks: seq<Brick>)
  {
    forall i :: 0 <= i < |bricks| ==> WellFormed(bricks[i])
  }

  /**
   * `after` is `before` worn down by play: same place, size and maximum,
   * durability never higher, a dead brick untouched and never revived.
   */
  predicate Worn(before: Brick, after: Brick)
  {
    && after.x == before.x && after.y == before.y
    && after.width == before.width && after.height == before.height
    && after.maxDurability == before.maxDurability
    && after.durability <= before.durability
    && (!before.alive ==> after == before)
    && (after.alive ==> before.alive)
  }

  predicate AllWorn(before: seq<Brick>, after: seq<Brick>)
  {
    |before| == |after| && forall i :: 0 <= i < |before| ==> Worn(before[i], after[i])
  }

  /** One hit on a live brick: durability drops by one and it dies when that reaches zero. */
  function Hit(b: Brick): (r: Brick)
    ensures r.durability == b.durability - 1
    ensures !r.alive <==> (!b.alive || r.durability <= 0)
    ensures b.alive ==> Worn(b, r)
    ensures WellFormed(b) && b.alive ==> WellFormed(r)
  {
    var d := b.durability - 1;
    b.(durability := d, alive := if d <= 0 then false else b.alive)
  }

  /** Points earned when brick `before` has become `after`. */
  function Gain(before: Brick, after: Brick): int
  {
    if before.alive && !after.alive then before.maxDurability * POINTS_PER_DURABILITY else 0
  }

  /** Points earned by all bricks destroyed between two states of the field. */
  function Award(before: seq<Brick>, after: seq<Brick>): int
    requires |before| == |after|
  {
    if before == [] then 0
    else
      var n := |before| - 1;
      Award(before[..n], after[..n]) + Gain(before[n], after[n])
  }

  /** Nothing destroyed, nothing earned. */
  lemma {:induction false} AwardNone(bricks: seq<Brick>)
    ensures Award(bricks, bricks) == 0
  {
    if bricks != [] { AwardNone(bricks[..|bricks| - 1]); }
  }

  /** Destruction never costs points. */
  lemma {:induction false} AwardNonNegative(before: seq<Brick>, after: seq<Brick>)
    requires |before| == |after| && AllWellFormed(before)
    ensures Award(before, after) >= 0
  {
    if before != [] {
      var n := |before| - 1;
      AwardNonNegative(before[..n], after[..n]);
    }
  }

  /** Changing one brick of the field changes the award by that brick's gain only. */
  lemma {:induction false} AwardUpdate(before: seq<Brick>, after: seq<Brick>, i: nat, b: Brick)
    requires |before| == |after| && i < |after|
    ensures Award(before, after[i := b]) == Award(before, after) - Gain(before[i], after[i]) + Gain(before[i], b)
  {
    var n := |before| - 1;
    if i < n {
      assert after[i := b][..n] == after[..n][i := b];
      AwardUpdate(before[..n], after[..n], i, b);
    } else {
      assert after[i := b][..n] == after[..n];
    }
  }

  /** Hitting the brick the ball struck keeps the field worn-down and pays exactly its gain. */
  lemma HitKeepsWorn(before: seq<Brick>, bricks: seq<Brick>, k: nat)
    requires AllWorn(before, bricks) && k < |bricks| && bricks[k].alive
    ensures AllWorn(before, bricks[k := Hit(bricks[k])])
    ensures Award(before, bricks[k := Hit(bricks[k])]) ==
            Award(before, bricks) + (if Hit(bricks[k]).alive then 0 else bricks[k].maxDurability * POINTS_PER_DURABILITY)
  {
    AwardUpdate(before, bricks, k, Hit(bricks[k]));
  }

  /** The number of live bricks (the length of the source's filtered list). */
  function LiveCount(bricks: seq<Brick>): nat
  {
    if bricks == [] then 0 else LiveCount(bricks[..|bricks| - 1]) + (if bricks[|bricks| - 1].alive then 1 else 0)
  }

  /** No live brick is counted exactly when every brick is dead. */
  lemma {:induction false} LiveCountZero(bricks: seq<Brick>)
    ensures LiveCount(bricks) == 0 <==> forall i :: 0 <= i < |bricks| ==> !bricks[i].alive
  {
    if bricks != [] {
      var n := |bricks| - 1;
      LiveCountZero(bricks[..n]);
      assert forall i :: 0 <= i < n ==> bricks[..n][i] == bricks[i];
    }
  }
}
