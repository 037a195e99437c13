/**
 The transcendental library functions the system calls (the square root
 behind numpy.linalg.norm and `** 0.5`, math.exp, and the cos/sin of
 numpy.arctan2 that orient a car), taken as parameters and constrained by
 the laws the model relies on.
 */
module Maths {
  import opened Geometry
  import opened Reals

  /** The library functions one evaluation of the system uses. */
  datatype Fns = Fns(sqrt: real -> real, exp: real -> real, heading: Point -> Heading)

  /**
   `sqrt` maps every non-negative real to its non-negative square root,
   which is positive when the number is.
   */
  ghost predicate IsSqrt(sqrt: real -> real) {
    forall x :: 0.0 <= x ==> 0.0 <= sqrt(x) && sqrt(x) * sqrt(x) == x && (0.0 < x ==> 0.0 < sqrt(x))
  }

  /** `exp` has exp(0) = 1 and maps the non-positive reals into (0, 1]. */
  ghost predicate IsExp(exp: real -> real) {
    && exp(0.0) == 1.0
    && forall x :: x <= 0.0 ==> 0.0 < exp(x) <= 1.0
  }

  /**
   `heading(vel)` is (cos atan2(vel.y, vel.x), sin atan2(vel.y, vel.x)),
   with atan2(0, 0) = 0.
   */
  ghost predicate IsHeadingFn(heading: Point -> Heading) {
    forall vel :: IsHeadingOf(heading(vel), vel)
  }

  ghost predicate Lawful(f: Fns) {
    IsSqrt(f.sqrt) && IsExp(f.exp) && IsHeadingFn(f.heading)
  }

  /**
   Euclidean length of the vector (dx, dy), as numpy.linalg.norm and
   `(dx**2 + dy**2)**0.5` compute it; positive for every non-zero vector.
   */
  function Norm(dx: real, dy: real, f: Fns): (n: real)
    requires Lawful(f)
    ensures 0.0 <= n && n * n == dx * dx + dy * dy
    ensures 0.0 < dx * dx + dy * dy ==> 0.0 < n
  {
    SquareNonNegative(dx);
    SquareNonNegative(dy);
    f.sqrt(dx * dx + dy * dy)
  }

  /** The non-negative root of a square is the number itself. */
  lemma SqrtOfSquare(f: Fns, a: real)
    requires Lawful(f)
    requires 0.0 <= a
    ensures f.sqrt(a * a) == a
  {
    SquareNonNegative(a);
    var r := f.sqrt(a * a);
    assert 0.0 <= r && r * r == a * a;
    assert (r - a) * (r + a) == 0.0;
    if r + a != 0.0 {
      ZeroProduct(r - a, r + a);
    }
  }
}
