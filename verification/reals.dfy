/** Facts about products and quotients of reals that the proofs lean on. */
module Reals {

  lemma PositiveProduct(a: real, b: real)
    requires 0.0 < a && 0.0 < b
    ensures 0.0 < a * b
  {
  }

  lemma ZeroProduct(a: real, b: real)
    requires a * b == 0.0 && b != 0.0
    ensures a == 0.0
  {
    if a != 0.0 {
      if 0.0 < a {
        if 0.0 < b { PositiveProduct(a, b); } else { PositiveProduct(a, -b); }
      } else {
        if 0.0 < b { PositiveProduct(-a, b); } else { PositiveProduct(-a, -b); }
      }
    }
  }

  lemma NegMul(a: real, b: real)
    ensures (-a) * b == -(a * b)
  {
  }

  lemma SquareNonNegative(a: real)
    ensures 0.0 <= a * a
  {
    if 0.0 < a { PositiveProduct(a, a); } else if a < 0.0 { PositiveProduct(-a, -a); }
  }

  lemma SquareMono(a: real, b: real)
    requires 0.0 <= a <= b
    ensures a * a <= b * b
  {
    if a < b {
      PositiveProduct(b - a, b + a);
      assert b * b - a * a == (b - a) * (b + a);
    }
  }

  lemma NonNegativeProduct(a: real, b: real)
    requires 0.0 <= a && 0.0 <= b
    ensures 0.0 <= a * b
  {
    if 0.0 < a && 0.0 < b {
      PositiveProduct(a, b);
    }
  }

  /** Multiplying by a positive factor keeps a strict order, both ways. */
  lemma MulStrictMono(k: real, x: real, y: real)
    requires 0.0 < k
    ensures x < y <==> k * x < k * y
  {
    if x < y {
      PositiveProduct(k, y - x);
    } else {
      SquareNonNegative(0.0);
      if y < x { PositiveProduct(k, x - y); }
    }
  }

  /** A sum of two squares is positive unless both are zero. */
  lemma SumOfSquaresPositive(a: real, b: real)
    requires a != 0.0 || b != 0.0
    ensures 0.0 < a * a + b * b
  {
    SquareNonNegative(a);
    SquareNonNegative(b);
    if a != 0.0 {
      if 0.0 < a { PositiveProduct(a, a); } else { PositiveProduct(-a, -a); }
    } else {
      if 0.0 < b { PositiveProduct(b, b); } else { PositiveProduct(-b, -b); }
    }
  }

  lemma NegSquare(a: real)
    ensures (-a) * (-a) == a * a
  {
  }

  /** Taking reciprocals reverses the order of positive reals. */
  lemma ReciprocalAntitone(a: real, b: real)
    requires 0.0 < a <= b
    ensures 1.0 / b <= 1.0 / a
  {
    var ia, ib := 1.0 / a, 1.0 / b;
    assert 0.0 < ia && 0.0 < ib;
    assert ia * a == 1.0 && ib * b == 1.0;
    assert ia - ib == (b - a) * (ia * ib);
    PositiveProduct(ia, ib);
    NonNegativeProduct(b - a, ia * ib);
  }
}
