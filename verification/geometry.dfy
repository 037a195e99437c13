/**
 Plane geometry over the reals used by the collision predictor: points and
 vectors, dot products, and headings given as unit vectors (cos θ, sin θ).
 */
module Geometry {
  import opened Reals

  /** A point or a vector of the plane. */
  datatype Point = Point(x: real, y: real)

  const Origin: Point := Point(0.0, 0.0)

  function Add(p: Point, q: Point): Point {
    Point(p.x + q.x, p.y + q.y)
  }

  function Sub(p: Point, q: Point): Point {
    Point(p.x - q.x, p.y - q.y)
  }

  function Scale(k: real, p: Point): Point {
    Point(k * p.x, k * p.y)
  }

  function Dot(p: Point, q: Point): real {
    p.x * q.x + p.y * q.y
  }

  lemma DotScale(p: Point, axis: Point, k: real)
    ensures Dot(p, Scale(k, axis)) == k * Dot(p, axis)
  {
  }

  /** A direction as the pair (cos θ, sin θ). */
  datatype Heading = Heading(c: real, s: real)

  /** The heading of angle 0, pointing along the positive x-axis. */
  const East: Heading := Heading(1.0, 0.0)

  predicate IsUnit(h: Heading) {
    h.c * h.c + h.s * h.s == 1.0
  }

  /** The unit vector pointing along the heading. */
  function Forward(h: Heading): Point {
    Point(h.c, h.s)
  }

  /** The unit vector a quarter turn clockwise from the heading. */
  function Side(h: Heading): Point {
    Point(h.s, -h.c)
  }

  /**
   `h` is (cos θ, sin θ) for θ = atan2(vel.y, vel.x): the unit vector
   pointing the way `vel` points, and the heading of angle 0 when `vel` is
   the zero vector, since atan2(0, 0) is 0.
   */
  predicate IsHeadingOf(h: Heading, vel: Point) {
    if vel == Origin then
      h == East
    else
      IsUnit(h) && h.c * vel.y == h.s * vel.x && 0.0 < h.c * vel.x + h.s * vel.y
  }

  /** A positive number whose square is 1 is 1. */
  lemma PositiveUnitRoot(c: real)
    requires 0.0 < c && c * c == 1.0
    ensures c == 1.0
  {
    assert (c - 1.0) * (c + 1.0) == 0.0;
    ZeroProduct(c - 1.0, c + 1.0);
  }

  /** Every heading of a body at rest or moving along the positive x-axis is East. */
  lemma HeadingOfEastward(h: Heading, vel: Point)
    requires IsHeadingOf(h, vel)
    requires vel.y == 0.0 && 0.0 <= vel.x
    ensures h == East
  {
    if vel != Origin {
      assert 0.0 < vel.x;
      assert h.s * vel.x == 0.0;
      ZeroProduct(h.s, vel.x);
      assert h.c * h.c == 1.0;
      assert 0.0 < h.c * vel.x;
      if h.c < 0.0 {
        PositiveProduct(-h.c, vel.x);
      }
      PositiveUnitRoot(h.c);
    }
  }

  /**
   A heading depends only on the direction of travel: whatever heads along
   `vel` heads along every positive multiple of it.
   */
  lemma HeadingScaleInvariant(h: Heading, vel: Point, k: real)
    requires IsHeadingOf(h, vel)
    requires 0.0 < k
    ensures IsHeadingOf(h, Scale(k, vel))
  {
    var kv := Scale(k, vel);
    if vel != Origin {
      assert kv != Origin by {
        if kv.x == 0.0 && kv.y == 0.0 {
          ZeroProduct(vel.x, k);
          ZeroProduct(vel.y, k);
        }
      }
      assert h.c * kv.y == k * (h.c * vel.y);
      assert h.s * kv.x == k * (h.s * vel.x);
      assert h.c * kv.x + h.s * kv.y == k * (h.c * vel.x + h.s * vel.y);
      PositiveProduct(k, h.c * vel.x + h.s * vel.y);
    }
  }
}
