/**
 * The formula engine: the distance multiplier, acceleration, compression
 * cost divisor and mass multiplier, each a deterministic function of the
 * upgrade levels, with their softcap breakpoints.
 */
module Formulas {
  import opened Numeric

  /** Velocity levels up to this one double the multiplier; later levels give x1.5. */
  const VelocitySoftcap: nat := 5
  /** Scale points up to this one give x1.5 each; beyond it the excess counts by its square root. */
  const ScaleSoftcap: nat := 5
  /** Acceleration levels up to this one give 0.25 each; later levels give 0.1. */
  const AccelerationSoftcap: nat := 10

  /** The multiplier the first five velocity levels reach: 2^5. */
  const VelocityBase: real := 32.0
  /** The multiplier the first five scale points reach: 1.5^5. */
  const ScaleBase: real := 7.59375

  lemma SoftcapBases()
    ensures VelocityBase == Pow(2.0, VelocitySoftcap)
    ensures ScaleBase == Pow(1.5, ScaleSoftcap)
  {
  }

  /** Velocity term of the distance multiplier: 2^L, softcapped to 32 * 1.5^(L-5) above level 5. */
  function VelocityFactor(level: nat): (m: real)
    ensures m >= 1.0
  {
    PowAtLeastOne(2.0, level);
    if level <= VelocitySoftcap then Pow(2.0, level)
    else
      PowAtLeastOne(1.5, level - VelocitySoftcap);
      VelocityBase * Pow(1.5, level - VelocitySoftcap)
  }

  /** Both branches of the velocity term give exactly 32 at the breakpoint, and level 6 gives 48. */
  lemma VelocitySoftcapBoundary()
    ensures VelocityFactor(5) == Pow(2.0, 5) == 32.0
    ensures VelocityBase * Pow(1.5, 5 - VelocitySoftcap) == 32.0
    ensures VelocityFactor(6) == 48.0
  {
  }

  /** The velocity term grows strictly with the level, across the softcap too. */
  lemma VelocityFactorIncreasing(m: nat, n: nat)
    requires m < n
    ensures VelocityFactor(m) < VelocityFactor(n)
  {
    if n <= VelocitySoftcap {
      PowStrictlyIncreasing(2.0, m, n);
    } else if VelocitySoftcap < m {
      PowStrictlyIncreasing(1.5, m - VelocitySoftcap, n - VelocitySoftcap);
    } else {
      PowMonotone(2.0, m, VelocitySoftcap);
      PowStrictlyIncreasing(1.5, 0, n - VelocitySoftcap);
      assert Pow(2.0, VelocitySoftcap) == VelocityBase;
    }
  }

  /**
   * Scale-point term: 1.5^sp up to 5 points; above, 1.5^5 * 1.5^sqrt(sp - 5),
   * where pow is the library's b^sqrt(x).
   */
  function ScaleFactor(scalePoints: nat, pow: PowSqrt): real
  {
    if scalePoints <= ScaleSoftcap then Pow(1.5, scalePoints)
    else ScaleBase * pow(1.5, (scalePoints - ScaleSoftcap) as real)
  }

  /** Under the laws of b^sqrt(x), the scale-point term is at least 1. */
  lemma ScaleFactorAtLeastOne(scalePoints: nat, pow: PowSqrt)
    requires Lawful(pow)
    ensures ScaleFactor(scalePoints, pow) >= 1.0
  {
    PowAtLeastOne(1.5, scalePoints);
  }

  /** The two branches of the scale-point term agree at the breakpoint; 6 points give 1.5^6, 9 give 1.5^7. */
  lemma ScaleSoftcapBoundary(pow: PowSqrt)
    requires Lawful(pow)
    ensures ScaleFactor(5, pow) == Pow(1.5, 5)
    ensures ScaleBase * pow(1.5, (5 - ScaleSoftcap) as real) == Pow(1.5, 5)
    ensures ScaleFactor(6, pow) == Pow(1.5, 6)
    ensures ScaleFactor(9, pow) == Pow(1.5, 7)
  {
    LawfulAtZero(pow, 1.5);
    LawfulAtSquare(pow, 1.5, 1);
    LawfulAtSquare(pow, 1.5, 2);
  }

  /** The scale-point term grows strictly with the points, across the softcap too. */
  lemma ScaleFactorIncreasing(m: nat, n: nat, pow: PowSqrt)
    requires Lawful(pow) && m < n
    ensures ScaleFactor(m, pow) < ScaleFactor(n, pow)
  {
    if n <= ScaleSoftcap {
      PowStrictlyIncreasing(1.5, m, n);
    } else if ScaleSoftcap < m {
      var x, y := (m - ScaleSoftcap) as real, (n - ScaleSoftcap) as real;
      assert pow(1.5, x) < pow(1.5, y);
    } else {
      PowMonotone(1.5, m, ScaleSoftcap);
      assert Pow(1.5, ScaleSoftcap) == ScaleBase;
      LawfulAtZero(pow, 1.5);
      assert pow(1.5, 0.0) < pow(1.5, (n - ScaleSoftcap) as real);
    }
  }

  /** Mass-velocity term: 3^level, with no softcap. */
  function MassVelocityFactor(level: nat): (m: real)
    ensures m == Pow(3.0, level)
  {
    if level > 0 then Pow(3.0, level) else 1.0
  }

  /** The distance multiplier: velocity term x scale-point term x mass-velocity term. */
  function TotalMultiplier(velocityLevel: nat, scalePoints: nat, massVelocityLevel: nat, pow: PowSqrt): real
  {
    Product(VelocityFactor(velocityLevel), ScaleFactor(scalePoints, pow), MassVelocityFactor(massVelocityLevel))
  }

  /** The three bonuses combine by multiplication. */
  function Product(a: real, b: real, c: real): real
  {
    a * b * c
  }

  /** Under the laws of b^sqrt(x), the distance multiplier is at least 1: upgrades never slow travel down. */
  lemma TotalMultiplierAtLeastOne(velocityLevel: nat, scalePoints: nat, massVelocityLevel: nat, pow: PowSqrt)
    requires Lawful(pow)
    ensures TotalMultiplier(velocityLevel, scalePoints, massVelocityLevel, pow) >= 1.0
  {
    PowAtLeastOne(3.0, massVelocityLevel);
    ScaleFactorAtLeastOne(scalePoints, pow);
    ProductAtLeastOne(VelocityFactor(velocityLevel), ScaleFactor(scalePoints, pow), MassVelocityFactor(massVelocityLevel));
  }

  lemma ProductAtLeastOne(a: real, b: real, c: real)
    requires 1.0 <= a && 1.0 <= b && 1.0 <= c
    ensures 1.0 <= Product(a, b, c)
  {
    assert 1.0 <= a * b;
  }

  /** With every level and every scale point at zero, the multiplier is exactly 1. */
  lemma TotalMultiplierAtStart(pow: PowSqrt)
    ensures TotalMultiplier(0, 0, 0, pow) == 1.0
  {
  }

  /** The multiplier grows strictly in each of the three levels separately. */
  lemma TotalMultiplierIncreasing(v: nat, v': nat, s: nat, s': nat, mv: nat, mv': nat, pow: PowSqrt)
    requires Lawful(pow)
    requires v <= v' && s <= s' && mv <= mv'
    requires v < v' || s < s' || mv < mv'
    ensures TotalMultiplier(v, s, mv, pow) < TotalMultiplier(v', s', mv', pow)
  {
    FactorsOrdered(v, v', s, s', mv, mv', pow);
    ProductIncreasing(VelocityFactor(v), ScaleFactor(s, pow), MassVelocityFactor(mv),
                      VelocityFactor(v'), ScaleFactor(s', pow), MassVelocityFactor(mv'));
  }

  /** Each factor is at least one, none shrinks, and one of them grows. */
  lemma FactorsOrdered(v: nat, v': nat, s: nat, s': nat, mv: nat, mv': nat, pow: PowSqrt)
    requires Lawful(pow)
    requires v <= v' && s <= s' && mv <= mv'
    requires v < v' || s < s' || mv < mv'
    ensures 1.0 <= VelocityFactor(v) <= VelocityFactor(v')
    ensures 1.0 <= ScaleFactor(s, pow) <= ScaleFactor(s', pow)
    ensures 1.0 <= MassVelocityFactor(mv) <= MassVelocityFactor(mv')
    ensures VelocityFactor(v) < VelocityFactor(v') || ScaleFactor(s, pow) < ScaleFactor(s', pow)
         || MassVelocityFactor(mv) < MassVelocityFactor(mv')
  {
    VelocityFactorMonotone(v, v');
    ScaleFactorMonotone(s, s', pow);
    ScaleFactorAtLeastOne(s, pow);
    PowMonotone(3.0, mv, mv');
    PowAtLeastOne(3.0, mv);
  }


  lemma VelocityFactorMonotone(m: nat, n: nat)
    requires m <= n
    ensures VelocityFactor(m) <= VelocityFactor(n)
    ensures m < n ==> VelocityFactor(m) < VelocityFactor(n)
  {
    if m < n { VelocityFactorIncreasing(m, n); }
  }

  lemma ScaleFactorMonotone(m: nat, n: nat, pow: PowSqrt)
    requires Lawful(pow) && m <= n
    ensures ScaleFactor(m, pow) <= ScaleFactor(n, pow)
    ensures m < n ==> ScaleFactor(m, pow) < ScaleFactor(n, pow)
  {
    if m < n { ScaleFactorIncreasing(m, n, pow); }
  }

  lemma ProductIncreasing(a: real, b: real, c: real, a': real, b': real, c': real)
    requires 1.0 <= a <= a' && 1.0 <= b <= b' && 1.0 <= c <= c'
    requires a < a' || b < b' || c < c'
    ensures Product(a, b, c) < Product(a', b', c')
  {
    assert a * b <= a' * b;
    assert a' * b <= a' * b';
    assert a * b <= a' * b';
    assert a * b * c <= a' * b' * c;
    assert a' * b' * c <= a' * b' * c';
    if a < a' {
      assert a * b < a' * b;
    } else if b < b' {
      assert a' * b < a' * b';
    } else {
      assert a' * b' * c < a' * b' * c';
    }
  }

  /** Acceleration in m/s^2: 0 at level 0, 0.25 per level up to 10, then 0.1 per level. */
  function Acceleration(level: nat): (a: real)
    ensures level <= AccelerationSoftcap ==> a == 0.25 * level as real
    ensures a == 0.0 <==> level == 0
  {
    if level == 0 then 0.0
    else if level <= AccelerationSoftcap then (level as real) * 0.25
    else (AccelerationSoftcap as real) * 0.25 + ((level - AccelerationSoftcap) as real) * 0.1
  }

  /** Both acceleration formulas give 2.5 at level 10: no jump at the softcap. */
  lemma AccelerationSoftcapBoundary()
    ensures Acceleration(10) == 2.5
    ensures (AccelerationSoftcap as real) * 0.25 + ((10 - AccelerationSoftcap) as real) * 0.1 == 2.5
    ensures Acceleration(11) == 2.6
  {
  }

  /** Acceleration grows strictly with the level, so it never decreases. */
  lemma AccelerationIncreasing(m: nat, n: nat)
    requires m < n
    ensures Acceleration(m) < Acceleration(n)
  {
  }

  /**
   * Divisor applied to the velocity and acceleration costs: 1 at level 0,
   * else 2^sqrt(level).
   */
  function CompressionDivision(level: nat, pow: PowSqrt): (d: real)
    requires Lawful(pow)
    ensures d >= 1.0
    ensures level == 0 ==> d == 1.0
  {
    if level == 0 then 1.0 else pow(2.0, level as real)
  }

  /** At level k*k the divisor is exactly 2^k: level 1 halves costs, 4 quarters them, 9 divides by 8. */
  lemma CompressionDivisionAtSquares(k: nat, pow: PowSqrt)
    requires Lawful(pow)
    ensures CompressionDivision(k * k, pow) == Pow(2.0, k)
  {
    LawfulAtSquare(pow, 2.0, k);
  }

  /** Each compression level strictly raises the divisor. */
  lemma CompressionDivisionIncreasing(m: nat, n: nat, pow: PowSqrt)
    requires Lawful(pow) && m < n
    ensures CompressionDivision(m, pow) < CompressionDivision(n, pow)
  {
    if m == 0 {
      LawfulAtZero(pow, 2.0);
      assert pow(2.0, 0.0) < pow(2.0, n as real);
    } else {
      assert pow(2.0, m as real) < pow(2.0, n as real);
    }
  }

  /** Mass generation multiplier: x3 with Triple Mass, else x1. */
  function MassMultiplier(tripleMassUnlocked: bool): (m: real)
    ensures m >= 1.0
    ensures m == 3.0 <==> tripleMassUnlocked
  {
    if tripleMassUnlocked then 3.0 else 1.0
  }
}
