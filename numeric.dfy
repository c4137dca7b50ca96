/**
 * Numeric primitives the engine takes from its arbitrary-precision decimal
 * library: integer powers, floor(log10 d), and the non-integer powers
 * b^sqrt(x) that the softcaps use.
 */
module Numeric {

  /** b^n for a natural exponent. */
  function Pow(b: real, n: nat): real
  {
    if n == 0 then 1.0 else b * Pow(b, n - 1)
  }

  lemma {:induction false} PowPositive(b: real, n: nat)
    requires b > 0.0
    ensures Pow(b, n) > 0.0
  {
    if n > 0 {
      PowPositive(b, n - 1);
    }
  }

  lemma {:induction false} PowAtLeastOne(b: real, n: nat)
    requires b >= 1.0
    ensures Pow(b, n) >= 1.0
  {
    if n > 0 {
      PowAtLeastOne(b, n - 1);
      ScaleUp(b, Pow(b, n - 1));
    }
  }

  /** Multiplying a positive quantity by a factor of at least one does not shrink it; above one, it grows. */
  lemma ScaleUp(b: real, p: real)
    requires b >= 1.0 && p > 0.0
    ensures b * p >= p
    ensures b > 1.0 ==> b * p > p
  {
    assert b * p - p == (b - 1.0) * p;
  }

  /** One more factor of a base above one makes a power strictly larger. */
  lemma PowStep(b: real, n: nat)
    requires b > 1.0
    ensures Pow(b, n) < Pow(b, n + 1)
  {
    PowPositive(b, n);
    ScaleUp(b, Pow(b, n));
    assert Pow(b, n + 1) == b * Pow(b, n);
  }

  /** Integer powers of a base above one grow strictly. */
  lemma {:induction false} PowStrictlyIncreasing(b: real, m: nat, n: nat)
    requires b > 1.0 && m < n
    ensures Pow(b, m) < Pow(b, n)
  {
    PowStep(b, n - 1);
    if m < n - 1 {
      PowStrictlyIncreasing(b, m, n - 1);
    }
  }

  /** Integer powers of a base above one never shrink as the exponent grows, and grow with it strictly. */
  lemma PowMonotone(b: real, m: nat, n: nat)
    requires b > 1.0 && m <= n
    ensures Pow(b, m) <= Pow(b, n)
    ensures m < n ==> Pow(b, m) < Pow(b, n)
  {
    if m < n {
      PowStrictlyIncreasing(b, m, n);
    }
  }

  /** The square of a natural number, as a real: the points where sqrt is exact. */
  function Square(k: nat): real
  {
    (k * k) as real
  }

  /**
   * The library's b^sqrt(x) (Decimal.pow(b, Math.sqrt(x))). It is not
   * computed here: the engine receives it as a parameter, and everything
   * proved about it rests on the laws in Lawful.
   */
  type PowSqrt = (real, real) -> real

  /**
   * The laws b^sqrt(x) obeys for a base above one and x >= 0: it is at
   * least 1, it grows strictly with x, and at a perfect square k*k it is
   * exactly b^k.
   */
  ghost predicate Lawful(f: PowSqrt)
  {
    && (forall b: real, x: real :: 1.0 < b && 0.0 <= x ==> 1.0 <= f(b, x))
    && (forall b: real, x: real, y: real :: 1.0 < b && 0.0 <= x < y ==> f(b, x) < f(b, y))
    && (forall b: real, k: nat {:trigger f(b, Square(k))} :: 1.0 < b ==> f(b, Square(k)) == Pow(b, k))
  }

  lemma LawfulAtZero(f: PowSqrt, b: real)
    requires Lawful(f) && 1.0 < b
    ensures f(b, 0.0) == 1.0
  {
    assert Square(0) == 0.0;
    assert f(b, Square(0)) == Pow(b, 0);
  }

  lemma LawfulAtSquare(f: PowSqrt, b: real, k: nat)
    requires Lawful(f) && 1.0 < b
    ensures f(b, (k * k) as real) == Pow(b, k)
  {
    assert f(b, Square(k)) == Pow(b, k);
  }

  /**
   * floor(log10 d) for d >= 1: the unique k with 10^k <= d < 10^(k+1).
   */
  function FloorLog10(d: real): (k: nat)
    requires d >= 1.0
    ensures Pow(10.0, k) <= d < Pow(10.0, k + 1)
    decreases d.Floor
  {
    if d < 10.0 then 0
    else
      assert (d / 10.0).Floor < d.Floor by {
        assert d / 10.0 <= d - 9.0;
      }
      1 + FloorLog10(d / 10.0)
  }

  /** A bracket 10^k <= d < 10^(k+1) determines floor(log10 d). */
  lemma FloorLog10Unique(d: real, k: nat)
    requires 1.0 <= d
    requires Pow(10.0, k) <= d < Pow(10.0, k + 1)
    ensures FloorLog10(d) == k
  {
    PowPositive(10.0, k);
    PowAtLeastOne(10.0, k);
    var j := FloorLog10(d);
    if j < k {
      PowMonotone(10.0, j + 1, k);
    } else if k < j {
      PowMonotone(10.0, k + 1, j);
    }
  }

  lemma FloorLog10Monotone(d: real, e: real)
    requires 1.0 <= d <= e
    ensures FloorLog10(d) <= FloorLog10(e)
  {
    var i, j := FloorLog10(d), FloorLog10(e);
    if j < i {
      PowMonotone(10.0, j + 1, i);
    }
  }
}
