/**
 * Unit Collapse, the prestige reset: once the distance reaches 1e9 m it
 * converts the run into scale points, floor(log10(distance) - 8) of them,
 * and restarts the distance economy.
 */
module Prestige {
  import opened Numeric
  import opened State

  /** The distance (1e6 km, in metres) a Unit Collapse needs. */
  const PrestigeThreshold: real := 1000000000.0

  /** Scale points a collapse at this distance grants: floor(log10(d) - 8). */
  function CollapseGain(d: real): (g: nat)
    requires d >= PrestigeThreshold
    ensures g >= 1
    ensures Pow(10.0, g + 8) <= d < Pow(10.0, g + 9)
  {
    ThresholdLog();
    FloorLog10Monotone(PrestigeThreshold, d);
    FloorLog10(d) - 8
  }

  /** The threshold is exactly 10^9. */
  lemma ThresholdLog()
    ensures Pow(10.0, 9) == PrestigeThreshold
    ensures FloorLog10(PrestigeThreshold) == 9
  {
    assert Pow(10.0, 9) == PrestigeThreshold;
    assert Pow(10.0, 10) == 10.0 * PrestigeThreshold;
    FloorLog10Unique(PrestigeThreshold, 9);
  }

  /** Exactly at the threshold a collapse gives 1 SP; at 1e10 m, 2 SP; at 1e11 m, 3 SP. */
  lemma CollapseGainExamples()
    ensures CollapseGain(1000000000.0) == 1
    ensures CollapseGain(10000000000.0) == 2
    ensures CollapseGain(100000000000.0) == 3
  {
    ThresholdLog();
    assert Pow(10.0, 11) == 100.0 * PrestigeThreshold;
    assert Pow(10.0, 12) == 1000.0 * PrestigeThreshold;
    FloorLog10Unique(10000000000.0, 10);
    FloorLog10Unique(100000000000.0, 11);
  }

  /** Travelling further never lowers the gain. */
  lemma CollapseGainMonotone(d: real, e: real)
    requires PrestigeThreshold <= d <= e
    ensures CollapseGain(d) <= CollapseGain(e)
  {
    FloorLog10Monotone(d, e);
  }

  /** Every tenfold increase in distance adds exactly one scale point to the gain. */
  lemma CollapseGainTenfold(d: real)
    requires d >= PrestigeThreshold
    ensures CollapseGain(10.0 * d) == CollapseGain(d) + 1
  {
    var g := CollapseGain(d);
    assert Pow(10.0, g + 9) == 10.0 * Pow(10.0, g + 8);
    assert Pow(10.0, g + 10) == 10.0 * Pow(10.0, g + 9);
    FloorLog10Unique(10.0 * d, g + 9);
  }

  /**
   * Unit Collapse: below the threshold nothing happens. Otherwise the gain
   * is added to the scale points, the Scale Upgrades tab opens, and the
   * distance economy restarts: distance 0, velocity 1 m/s, velocity,
   * acceleration and compression back to level 0 at their base costs and
   * hidden again, mass 0. The mass-velocity upgrade resets too unless
   * Persistent Mass is owned.
   */
  function UnitCollapse(s: GameState): GameState
  {
    if s.distance < PrestigeThreshold then s
    else
      var t := s.(
        scalePoints := s.scalePoints + CollapseGain(s.distance),
        scaleUpgradesUnlocked := true,
        distance := 0.0,
        distancePerSecond := StartingVelocity,
        upgradeLevel := 0,
        upgradeCost := VelocityBaseCost,
        accelLevel := 0,
        accelCost := AccelBaseCost,
        accelUnlocked := false,
        compressionLevel := 0,
        compressionCost := CompressionBaseCost,
        compressionUnlocked := false,
        mass := 0.0);
      if s.persistentMassUpgrades then t
      else t.(massVelocityLevel := 0, massVelocityCost := MassVelocityBaseCost)
  }

  /** A collapse happens exactly at or above the threshold, and then grants at least one scale point. */
  lemma CollapseHappensIffThreshold(s: GameState)
    ensures UnitCollapse(s) != s <==> s.distance >= PrestigeThreshold
    ensures s.distance >= PrestigeThreshold ==>
      UnitCollapse(s).scalePoints == s.scalePoints + CollapseGain(s.distance) >= s.scalePoints + 1
  {
    if s.distance >= PrestigeThreshold {
      assert UnitCollapse(s).distance != s.distance;
    }
  }

  /**
   * After a collapse every reset field holds its starting value, and the
   * perks, mass production, tick rate and scale points (apart from the
   * gain) carry over.
   */
  lemma CollapseResetScope(s: GameState)
    requires s.distance >= PrestigeThreshold
    ensures var r := UnitCollapse(s);
      && r.distance == Initial().distance
      && r.distancePerSecond == Initial().distancePerSecond
      && r.upgradeLevel == 0 && r.upgradeCost == Initial().upgradeCost
      && r.accelLevel == 0 && r.accelCost == Initial().accelCost && !r.accelUnlocked
      && r.compressionLevel == 0 && r.compressionCost == Initial().compressionCost && !r.compressionUnlocked
      && r.mass == Initial().mass
      && r.scaleUpgradesUnlocked
      && r.massGenerationUnlocked == s.massGenerationUnlocked
      && r.massUnlocked == s.massUnlocked
      && r.massPerSecond == s.massPerSecond
      && r.tripleMassUnlocked == s.tripleMassUnlocked
      && r.persistentMassUpgrades == s.persistentMassUpgrades
      && r.tickRate == s.tickRate
      && r.scalePoints >= s.scalePoints + 1
  {
  }

  /** Persistent Mass decides whether the mass-velocity upgrade survives a collapse. */
  lemma CollapseMassVelocity(s: GameState)
    requires s.distance >= PrestigeThreshold
    ensures var r := UnitCollapse(s);
      if s.persistentMassUpgrades
      then r.massVelocityLevel == s.massVelocityLevel && r.massVelocityCost == s.massVelocityCost
      else r.massVelocityLevel == Initial().massVelocityLevel && r.massVelocityCost == Initial().massVelocityCost
  {
  }

  /** A collapse keeps resources non-negative and costs positive, and hides both gated upgrades again. */
  lemma CollapsePreservesNonNegative(s: GameState)
    requires NonNegative(s)
    ensures NonNegative(UnitCollapse(s))
    ensures s.distance >= PrestigeThreshold ==>
      !AccelerationRevealed(UnitCollapse(s)) && !CompressionRevealed(UnitCollapse(s))
  {
  }

  /** A second collapse straight after the first does nothing: the distance is back to 0. */
  lemma CollapseThenCollapse(s: GameState)
    requires s.distance >= PrestigeThreshold
    ensures UnitCollapse(UnitCollapse(s)) == UnitCollapse(s)
  {
  }
}
