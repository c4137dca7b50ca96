/**
 * The simulation step: each fixed-length tick first speeds up the base
 * velocity by the acceleration, then moves the distance on at the new
 * velocity times the multiplier, and produces mass when mass is unlocked.
 * Also the tick-rate setting, clamped to whole rates in [10, 60].
 */
module Simulation {
  import opened Numeric
  import opened Formulas
  import opened State

  /**
   * Progress over t seconds at the current rates: distance grows by
   * velocity x multiplier x t, and mass, when unlocked, by mass rate x mass
   * multiplier x t. A tick uses it for dt; loading a save uses it for the
   * time spent offline.
   */
  function Advance(s: GameState, t: real, pow: PowSqrt): GameState
  {
    s.(distance := s.distance + DistanceGain(s, t, pow),
       mass := if s.massUnlocked then s.mass + MassGain(s, t) else s.mass)
  }

  function DistanceGain(s: GameState, t: real, pow: PowSqrt): real
  {
    Product(s.distancePerSecond, TotalMultiplier(s.upgradeLevel, s.scalePoints, s.massVelocityLevel, pow), t)
  }

  function MassGain(s: GameState, t: real): real
  {
    Product(s.massPerSecond, MassMultiplier(s.tripleMassUnlocked), t)
  }

  /** One tick of dt seconds: acceleration raises the base velocity first, then the state advances at the raised velocity. */
  function Tick(s: GameState, dt: real, pow: PowSqrt): GameState
  {
    var sped := s.(distancePerSecond := s.distancePerSecond + Acceleration(s.accelLevel) * dt);
    Advance(sped, dt, pow)
  }

  /** n consecutive ticks of dt seconds. */
  function TickN(s: GameState, n: nat, dt: real, pow: PowSqrt): GameState
  {
    if n == 0 then s else Tick(TickN(s, n - 1, dt, pow), dt, pow)
  }

  /** The state with the three fields a tick may change cleared. */
  function Untimed(s: GameState): GameState
  {
    s.(distance := 0.0, distancePerSecond := 0.0, mass := 0.0)
  }

  lemma ProductNonNegative(a: real, b: real, c: real)
    requires 0.0 <= a && 0.0 <= b && 0.0 <= c
    ensures 0.0 <= Product(a, b, c)
  {
    assert 0.0 <= a * b;
  }

  lemma ProductSplit(a: real, b: real, t: real, u: real)
    ensures Product(a, b, t) + Product(a, b, u) == Product(a, b, t + u)
  {
    assert a * b * t + a * b * u == a * b * (t + u);
  }

  /**
   * A tick changes only distance, base velocity and mass; the velocity
   * grows by exactly acceleration x dt, the distance by the raised velocity
   * x the total multiplier x dt, and the mass, when unlocked, by the mass
   * rate x the mass multiplier x dt, else not at all.
   */
  lemma TickEffect(s: GameState, dt: real, pow: PowSqrt)
    ensures var r := Tick(s, dt, pow);
      && Untimed(r) == Untimed(s)
      && r.distancePerSecond == s.distancePerSecond + Acceleration(s.accelLevel) * dt
      && r.distance == s.distance
           + Product(r.distancePerSecond, TotalMultiplier(s.upgradeLevel, s.scalePoints, s.massVelocityLevel, pow), dt)
      && (s.massUnlocked ==> r.mass == s.mass + Product(s.massPerSecond, MassMultiplier(s.tripleMassUnlocked), dt))
      && (!s.massUnlocked ==> r.mass == s.mass)
  {
  }

  /** With mass unlocked, owning Triple Mass makes a tick add exactly three times the mass. */
  lemma TripleMassTriplesTick(s: GameState, dt: real, pow: PowSqrt)
    requires s.massUnlocked && !s.tripleMassUnlocked
    ensures Tick(s.(tripleMassUnlocked := true), dt, pow).mass - s.mass
         == 3.0 * (Tick(s, dt, pow).mass - s.mass)
  {
  }

  /** With dt >= 0 a tick never lowers distance, velocity or mass, and keeps every quantity non-negative. */
  lemma TickMonotone(s: GameState, dt: real, pow: PowSqrt)
    requires Lawful(pow) && NonNegative(s) && 0.0 <= dt
    ensures var r := Tick(s, dt, pow);
      && NonNegative(r)
      && s.distance <= r.distance
      && s.distancePerSecond <= r.distancePerSecond
      && s.mass <= r.mass
  {
    var sped := s.(distancePerSecond := s.distancePerSecond + Acceleration(s.accelLevel) * dt);
    assert 0.0 <= Acceleration(s.accelLevel) * dt;
    TotalMultiplierAtLeastOne(s.upgradeLevel, s.scalePoints, s.massVelocityLevel, pow);
    ProductNonNegative(sped.distancePerSecond,
      TotalMultiplier(s.upgradeLevel, s.scalePoints, s.massVelocityLevel, pow), dt);
    ProductNonNegative(s.massPerSecond, MassMultiplier(s.tripleMassUnlocked), dt);
  }

  /** Any number of ticks leaves levels, costs, perks and the tick rate alone. */
  lemma {:induction false} TickNKeepsLevels(s: GameState, n: nat, dt: real, pow: PowSqrt)
    ensures Untimed(TickN(s, n, dt, pow)) == Untimed(s)
  {
    if n > 0 {
      TickNKeepsLevels(s, n - 1, dt, pow);
      TickEffect(TickN(s, n - 1, dt, pow), dt, pow);
    }
  }

  /** Any number of ticks with dt >= 0 never lowers distance or mass. */
  lemma {:induction false} TickNMonotone(s: GameState, n: nat, dt: real, pow: PowSqrt)
    requires Lawful(pow) && NonNegative(s) && 0.0 <= dt
    ensures var r := TickN(s, n, dt, pow);
      NonNegative(r) && s.distance <= r.distance && s.mass <= r.mass
  {
    if n > 0 {
      TickNMonotone(s, n - 1, dt, pow);
      TickMonotone(TickN(s, n - 1, dt, pow), dt, pow);
    }
  }

  /** Advancing by a non-negative time never lowers distance or mass. */
  lemma AdvanceNeverLoses(s: GameState, t: real, pow: PowSqrt)
    requires Lawful(pow) && NonNegative(s) && 0.0 <= t
    ensures var r := Advance(s, t, pow);
      NonNegative(r) && s.distance <= r.distance && s.mass <= r.mass
  {
    TotalMultiplierAtLeastOne(s.upgradeLevel, s.scalePoints, s.massVelocityLevel, pow);
    ProductNonNegative(s.distancePerSecond,
      TotalMultiplier(s.upgradeLevel, s.scalePoints, s.massVelocityLevel, pow), t);
    ProductNonNegative(s.massPerSecond, MassMultiplier(s.tripleMassUnlocked), t);
  }

  /** Advancing by t and then by u is advancing by t + u: offline catch-up can be split anywhere. */
  lemma AdvanceAdditive(s: GameState, t: real, u: real, pow: PowSqrt)
    ensures Advance(Advance(s, t, pow), u, pow) == Advance(s, t + u, pow)
  {
    ProductSplit(s.distancePerSecond,
      TotalMultiplier(s.upgradeLevel, s.scalePoints, s.massVelocityLevel, pow), t, u);
    ProductSplit(s.massPerSecond, MassMultiplier(s.tripleMassUnlocked), t, u);
  }

  /** Advancing by no time changes nothing. */
  lemma AdvanceZero(s: GameState, pow: PowSqrt)
    ensures Advance(s, 0.0, pow) == s
  {
    assert Product(s.distancePerSecond,
      TotalMultiplier(s.upgradeLevel, s.scalePoints, s.massVelocityLevel, pow), 0.0) == 0.0;
    assert Product(s.massPerSecond, MassMultiplier(s.tripleMassUnlocked), 0.0) == 0.0;
  }

  /**
   * Without acceleration, n ticks of dt seconds amount to one advance by
   * n x dt seconds: the fixed-step simulation and the offline catch-up agree.
   */
  lemma IdleTicks(s: GameState, n: nat, dt: real, pow: PowSqrt)
    requires s.accelLevel == 0
    ensures TickN(s, n, dt, pow) == Advance(s, (n as real) * dt, pow)
  {
    IdleTicksElapsed(s, n, dt, pow);
    ElapsedIsProduct(n, dt);
  }

  /** Total time of n ticks of dt seconds, summed tick by tick. */
  function Elapsed(n: nat, dt: real): real
  {
    if n == 0 then 0.0 else Elapsed(n - 1, dt) + dt
  }

  lemma {:induction false} ElapsedIsProduct(n: nat, dt: real)
    ensures Elapsed(n, dt) == (n as real) * dt
  {
    if n > 0 {
      ElapsedIsProduct(n - 1, dt);
    }
  }

  lemma {:induction false} IdleTicksElapsed(s: GameState, n: nat, dt: real, pow: PowSqrt)
    requires s.accelLevel == 0
    ensures TickN(s, n, dt, pow) == Advance(s, Elapsed(n, dt), pow)
  {
    if n == 0 {
      AdvanceZero(s, pow);
    } else {
      IdleTicksElapsed(s, n - 1, dt, pow);
      TickWithoutAcceleration(Advance(s, Elapsed(n - 1, dt), pow), dt, pow);
      AdvanceAdditive(s, Elapsed(n - 1, dt), dt, pow);
    }
  }

  lemma TickWithoutAcceleration(s: GameState, dt: real, pow: PowSqrt)
    requires s.accelLevel == 0
    ensures Tick(s, dt, pow) == Advance(s, dt, pow)
  {
    assert s.(distancePerSecond := s.distancePerSecond + Acceleration(s.accelLevel) * dt) == s;
  }

  /**
   * From a new game, n ticks of dt seconds cover exactly n x dt metres: at
   * 1 m/s with every factor at 1, one minute at 60 ticks per second is 60 m.
   */
  lemma IdleFromStart(n: nat, dt: real, pow: PowSqrt)
    ensures TickN(Initial(), n, dt, pow).distance == (n as real) * dt
  {
    IdleTicks(Initial(), n, dt, pow);
    TotalMultiplierAtStart(pow);
  }

  /** What Number(rate) gives for a tick-rate input: a number, or NaN. */
  datatype RateInput = Number(value: real) | NotANumber

  function Min(a: int, b: int): int { if a <= b then a else b }
  function Max(a: int, b: int): int { if a >= b then a else b }

  /**
   * The tick-rate clamp: NaN and 0 fall back to 60; any other number is
   * floored and clamped into [10, 60].
   */
  function ClampTickRate(rate: RateInput): (r: int)
    ensures MinTickRate <= r <= MaxTickRate
  {
    var n := if rate.Number? && rate.value != 0.0 then rate.value.Floor else DefaultTickRate;
    Max(MinTickRate, Min(MaxTickRate, n))
  }

  /** Whole rates already in range are kept as they are. */
  lemma ClampKeepsValidRates(k: int)
    requires MinTickRate <= k <= MaxTickRate
    ensures ClampTickRate(Number(k as real)) == k
  {
  }

  /** Clamping a clamped rate changes nothing. */
  lemma ClampIdempotent(rate: RateInput)
    ensures ClampTickRate(Number(ClampTickRate(rate) as real)) == ClampTickRate(rate)
  {
    ClampKeepsValidRates(ClampTickRate(rate));
  }

  /**
   * Non-numbers and 0 give the default 60; a fraction is rounded down;
   * anything below 10 gives 10 and anything above 60 gives 60.
   */
  lemma ClampCases(x: real)
    ensures ClampTickRate(NotANumber) == DefaultTickRate
    ensures ClampTickRate(Number(0.0)) == DefaultTickRate
    ensures x != 0.0 && x < MinTickRate as real ==> ClampTickRate(Number(x)) == MinTickRate
    ensures MaxTickRate as real + 1.0 <= x ==> ClampTickRate(Number(x)) == MaxTickRate
    ensures MinTickRate as real <= x < MaxTickRate as real + 1.0 ==> ClampTickRate(Number(x)) == x.Floor
  {
  }

  /** Away from 0, a larger input never gives a smaller rate; 0 itself jumps to the default. */
  lemma ClampMonotone(x: real, y: real)
    requires x != 0.0 && y != 0.0 && x <= y
    ensures ClampTickRate(Number(x)) <= ClampTickRate(Number(y))
    ensures ClampTickRate(Number(0.5)) == MinTickRate && ClampTickRate(Number(0.0)) == MaxTickRate
  {
  }
}
