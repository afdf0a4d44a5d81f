/**
 * Geometry shared by every collision check of the simulation: clamping,
 * axis-aligned boxes and the circle-rectangle test.
 */
module Geometry {

  function Min(a: real, b: real): real { if a <= b then a else b }

  function Max(a: real, b: real): real { if a >= b then a else b }

  function Abs(a: real): real { if a < 0.0 then -a else a }

  /** `Math.max(lo, Math.min(hi, v))`: the point of [lo, hi] nearest to v. */
  function Clamp(v: real, lo: real, hi: real): (r: real)
    ensures lo <= hi ==> lo <= r <= hi
    ensures lo <= v <= hi ==> r == v
    ensures lo <= hi && v < lo ==> r == lo
    ensures lo <= hi && hi < v ==> r == hi
  {
    Max(lo, Min(v, hi))
  }

  lemma {:induction false} SquareMonotone(a: real, b: real)
    requires Abs(a) <= Abs(b)
    ensures a * a <= b * b
  {
    var x, y := Abs(a), Abs(b);
    assert a * a == x * x && b * b == y * y;
    assert x * x <= x * y by { assert 0.0 <= x; }
    assert x * y <= y * y by { assert 0.0 <= y; }
  }

  /** The clamped point is, along one axis, at least as close to v as any point of [lo, hi]. */
  lemma {:induction false} ClampIsNearest(v: real, lo: real, hi: real, q: real)
    requires lo <= q <= hi
    ensures (v - Clamp(v, lo, hi)) * (v - Clamp(v, lo, hi)) <= (v - q) * (v - q)
  {
    var c := Clamp(v, lo, hi);
    assert Abs(v - c) <= Abs(v - q);
    SquareMonotone(v - c, v - q);
  }

  /** An axis-aligned box given by its four edges (y grows downwards). */
  datatype Box = Box(left: real, top: real, right: real, bottom: real)

  /** The box of width w and height h centred on (cx, cy). */
  function CenteredBox(cx: real, cy: real, w: real, h: real): Box
  {
    Box(cx - w / 2.0, cy - h / 2.0, cx + w / 2.0, cy + h / 2.0)
  }

  /** Strict overlap on both axes, as every box test of the game writes it. */
  predicate Overlap(a: Box, b: Box)
  {
    a.bottom > b.top && a.top < b.bottom && a.right > b.left && a.left < b.right
  }

  /** (px, py) lies strictly inside the box. */
  predicate Inside(px: real, py: real, a: Box)
  {
    a.left < px < a.right && a.top < py < a.bottom
  }

  /**
   * Two boxes overlap exactly when some point lies strictly inside both;
   * this direction names the point (the centre of the intersection).
   */
  lemma OverlapHasCommonPoint(a: Box, b: Box)
    requires Overlap(a, b)
    requires a.left < a.right && a.top < a.bottom && b.left < b.right && b.top < b.bottom
    ensures var px := (Max(a.left, b.left) + Min(a.right, b.right)) / 2.0;
            var py := (Max(a.top, b.top) + Min(a.bottom, b.bottom)) / 2.0;
            Inside(px, py, a) && Inside(px, py, b)
  {
  }

  /** The other direction: a common interior point makes the boxes overlap. */
  lemma CommonPointOverlap(a: Box, b: Box, px: real, py: real)
    requires Inside(px, py, a) && Inside(px, py, b)
    ensures Overlap(a, b) && Overlap(b, a)
  {
  }

  /** Squared distance from (cx, cy) to the nearest point of the rectangle at (rx, ry) of size rw x rh. */
  function NearestDistSq(cx: real, cy: real, rx: real, ry: real, rw: real, rh: real): real
  {
    var dx := cx - Clamp(cx, rx, rx + rw);
    var dy := cy - Clamp(cy, ry, ry + rh);
    dx * dx + dy * dy
  }

  /**
   * The circle of radius `radius` centred on (cx, cy) hits the rectangle:
   * the squared distance to the clamped centre is below the squared radius,
   * so no square root is needed.
   */
  predicate CircleHitsRect(cx: real, cy: real, radius: real, rx: real, ry: real, rw: real, rh: real)
  {
    NearestDistSq(cx, cy, rx, ry, rw, rh) < radius * radius
  }

  /** A hit is witnessed by a point of the rectangle closer to the centre than the radius. */
  lemma CircleHitsRectSound(cx: real, cy: real, radius: real, rx: real, ry: real, rw: real, rh: real)
    requires 0.0 <= rw && 0.0 <= rh
    requires CircleHitsRect(cx, cy, radius, rx, ry, rw, rh)
    ensures var px := Clamp(cx, rx, rx + rw);
            var py := Clamp(cy, ry, ry + rh);
            rx <= px <= rx + rw && ry <= py <= ry + rh
            && (cx - px) * (cx - px) + (cy - py) * (cy - py) < radius * radius
  {
  }

  /** Any point of the rectangle closer to the centre than the radius makes the test succeed. */
  lemma {:induction false} CircleHitsRectComplete(cx: real, cy: real, radius: real, rx: real, ry: real, rw: real, rh: real, px: real, py: real)
    requires rx <= px <= rx + rw && ry <= py <= ry + rh
    requires (cx - px) * (cx - px) + (cy - py) * (cy - py) < radius * radius
    ensures CircleHitsRect(cx, cy, radius, rx, ry, rw, rh)
  {
    ClampIsNearest(cx, rx, rx + rw, px);
    ClampIsNearest(cy, ry, ry + rh, py);
  }
}
