/**
 * The engine state: the module-level variables of the game (distance,
 * velocity, scale points, mass, the four upgrade tracks, the scale-point
 * perks and the tick rate) as one value, with the starting values and
 * the constants the actions use.
 */
module State {

  /** Starting base velocity, in m/s; Unit Collapse restores it. */
  const StartingVelocity: real := 1.0

  const VelocityBaseCost: real := 10.0
  const VelocityCostFactor: real := 2.5
  const AccelBaseCost: real := 1000.0
  const AccelCostFactor: real := 3.0
  const CompressionBaseCost: real := 10000000.0
  const CompressionCostFactor: real := 5.0
  const MassVelocityBaseCost: real := 100.0
  const MassVelocityCostFactor: real := 3.0

  /** Mass generation rate, in g/s, granted by the Mass Generation perk. */
  const MassGenerationRate: real := 1.0

  /** Velocity level at which the acceleration upgrade is shown, and acceleration level at which compression is. */
  const RevealLevel: nat := 5

  /** Tick rates are whole ticks per second in [MinTickRate, MaxTickRate]. */
  const MinTickRate: int := 10
  const MaxTickRate: int := 60
  const DefaultTickRate: int := 60

  /**
   * One snapshot of the engine. Decimal quantities are reals; levels are
   * naturals. Scale points only ever change by whole amounts, so they are
   * a natural too.
   */
  datatype GameState = GameState(
    distance: real,
    distancePerSecond: real,
    scalePoints: nat,
    mass: real,
    massPerSecond: real,
    massUnlocked: bool,
    scaleUpgradesUnlocked: bool,
    upgradeLevel: nat,
    upgradeCost: real,
    accelLevel: nat,
    accelCost: real,
    accelUnlocked: bool,
    compressionLevel: nat,
    compressionCost: real,
    compressionUnlocked: bool,
    massVelocityLevel: nat,
    massVelocityCost: real,
    massGenerationUnlocked: bool,
    tripleMassUnlocked: bool,
    persistentMassUpgrades: bool,
    tickRate: int)

  /** The state of a new game. */
  function Initial(): GameState
  {
    GameState(
      distance := 0.0,
      distancePerSecond := StartingVelocity,
      scalePoints := 0,
      mass := 0.0,
      massPerSecond := 0.0,
      massUnlocked := false,
      scaleUpgradesUnlocked := false,
      upgradeLevel := 0,
      upgradeCost := VelocityBaseCost,
      accelLevel := 0,
      accelCost := AccelBaseCost,
      accelUnlocked := false,
      compressionLevel := 0,
      compressionCost := CompressionBaseCost,
      compressionUnlocked := false,
      massVelocityLevel := 0,
      massVelocityCost := MassVelocityBaseCost,
      massGenerationUnlocked := false,
      tripleMassUnlocked := false,
      persistentMassUpgrades := false,
      tickRate := DefaultTickRate)
  }

  /** Resources and rates are never negative and every stored cost is positive. */
  predicate NonNegative(s: GameState)
  {
    && 0.0 <= s.distance
    && 0.0 <= s.distancePerSecond
    && 0.0 <= s.mass
    && 0.0 <= s.massPerSecond
    && 0.0 < s.upgradeCost
    && 0.0 < s.accelCost
    && 0.0 < s.compressionCost
    && 0.0 < s.massVelocityCost
  }

  /** The tick rate is a whole number of ticks per second in the allowed range. */
  predicate TickRateInRange(s: GameState)
  {
    MinTickRate <= s.tickRate <= MaxTickRate
  }

  /** The acceleration upgrade is on offer once the velocity level reaches 5. */
  predicate AccelerationRevealed(s: GameState)
  {
    s.upgradeLevel >= RevealLevel
  }

  /** The compression upgrade is on offer once the acceleration level reaches 5. */
  predicate CompressionRevealed(s: GameState)
  {
    s.accelLevel >= RevealLevel
  }

  /** A new game starts with non-negative resources, a valid tick rate and both gated upgrades hidden. */
  lemma InitialWellFormed()
    ensures NonNegative(Initial()) && TickRateInRange(Initial())
    ensures !AccelerationRevealed(Initial()) && !CompressionRevealed(Initial())
  {
  }
}
