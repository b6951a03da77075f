/**
 * Real-number helpers shared by the vector and particle models.
 *
 * Products are written with `Mul` and squares with `Square`, so that every
 * fact about them is stated once, here, about two independent factors.
 *
 * Dafny's `real` has no square root, so `Math.sqrt` enters the model as a
 * function value `sqrt` of which only `IsSqrt(sqrt)` is assumed: it returns
 * the non-negative root of every non-negative argument.
 */
module RealMath {

  function Max(a: real, b: real): real { if a >= b then a else b }

  function Min(a: real, b: real): real { if a <= b then a else b }

  /**
   * `minMax(value, min, max)` from src/utils/min-max, which is not part of
   * this model; taken to be `Math.min(Math.max(value, min), max)`.
   */
  function MinMax(value: real, lo: real, hi: real): (r: real)
    ensures r <= hi
    ensures lo <= hi ==> lo <= r
    ensures lo <= value <= hi ==> r == value
    ensures hi < lo ==> r == hi
  {
    Min(Max(value, lo), hi)
  }

  function Mul(a: real, b: real): real { a * b }

  function Square(a: real): real { Mul(a, a) }

  lemma MulPositive(a: real, b: real)
    requires 0.0 < a && 0.0 < b
    ensures 0.0 < Mul(a, b)
  {
  }

  lemma MulNonNegative(a: real, b: real)
    requires 0.0 <= a && 0.0 <= b
    ensures 0.0 <= Mul(a, b)
  {
  }

  /** Multiplying by a non-negative factor keeps an order. */
  lemma MulMonotone(a: real, b: real, c: real)
    requires a <= b && 0.0 <= c
    ensures Mul(a, c) <= Mul(b, c)
  {
    MulNonNegative(b - a, c);
    assert Mul(b, c) - Mul(a, c) == Mul(b - a, c);
  }

  /** Multiplying by a positive factor keeps a strict order. */
  lemma MulStrictlyMonotone(a: real, b: real, c: real)
    requires a < b && 0.0 < c
    ensures Mul(a, c) < Mul(b, c)
  {
    MulPositive(b - a, c);
    assert Mul(b, c) - Mul(a, c) == Mul(b - a, c);
  }

  lemma MulNegNeg(a: real, b: real)
    ensures Mul(-a, -b) == Mul(a, b)
  {
  }

  /** `k * (a + b + c)`, multiplied out. */
  lemma Distribute(k: real, a: real, b: real, c: real)
    ensures Mul(k, a + b + c) == Mul(a, k) + Mul(b, k) + Mul(c, k)
  {
  }

  /** `k * (a + b)`, multiplied out. */
  lemma Distribute2(k: real, a: real, b: real)
    ensures Mul(k, a + b) == Mul(a, k) + Mul(b, k)
  {
  }

  /** A non-zero square is positive. */
  lemma SquarePositive(a: real)
    requires a != 0.0
    ensures 0.0 < Square(a)
  {
    if 0.0 < a {
      MulPositive(a, a);
    } else {
      MulPositive(-a, -a);
      MulNegNeg(a, a);
    }
  }

  /** No square is negative. */
  lemma SquareNonNegative(a: real)
    ensures 0.0 <= Square(a)
  {
    if a != 0.0 {
      SquarePositive(a);
    }
  }

  lemma SquareOfProduct(a: real, b: real)
    ensures Square(Mul(a, b)) == Mul(Square(a), Square(b))
  {
    var p := Mul(a, b);
    assert Mul(p, p) == (a * b) * (a * b);
  }

  /** Squaring is strictly increasing on the non-negative reals. */
  lemma SquareStrictlyIncreasing(a: real, b: real)
    requires 0.0 <= a < b
    ensures Square(a) < Square(b)
  {
    var d := b - a;
    MulNonNegative(a, d);
    MulPositive(b, d);
    assert Mul(b, b) - Mul(a, a) == Mul(a, d) + Mul(b, d);
  }

  /** `sqrt` behaves as `Math.sqrt` on non-negative arguments. */
  ghost predicate IsSqrt(sqrt: real -> real)
  {
    forall x :: 0.0 <= x ==> 0.0 <= sqrt(x) && Square(sqrt(x)) == x
  }

  /** The square root is unique: the root of `a * a` is `a` for `a >= 0`. */
  lemma SqrtOfSquare(sqrt: real -> real, a: real)
    requires IsSqrt(sqrt)
    requires 0.0 <= a
    ensures sqrt(Square(a)) == a
  {
    SquareNonNegative(a);
    var s := sqrt(Square(a));
    assert 0.0 <= s && Square(s) == Square(a);
    if s < a {
      SquareStrictlyIncreasing(s, a);
    } else if a < s {
      SquareStrictlyIncreasing(a, s);
    }
  }

  /** The root is monotone: `x <= y` gives `sqrt(x) <= sqrt(y)`. */
  lemma SqrtMonotone(sqrt: real -> real, x: real, y: real)
    requires IsSqrt(sqrt)
    requires 0.0 <= x <= y
    ensures sqrt(x) <= sqrt(y)
  {
    var a, b := sqrt(x), sqrt(y);
    assert 0.0 <= a && Square(a) == x;
    assert 0.0 <= b && Square(b) == y;
    if b < a {
      SquareStrictlyIncreasing(b, a);
    }
  }

  /** A root is zero exactly when its argument is. */
  lemma SqrtZeroIff(sqrt: real -> real, x: real)
    requires IsSqrt(sqrt)
    requires 0.0 <= x
    ensures sqrt(x) == 0.0 <==> x == 0.0
  {
    if x == 0.0 {
      SqrtOfSquare(sqrt, 0.0);
    }
  }
}
