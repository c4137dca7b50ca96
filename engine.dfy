/**
 * The running game: the engine state held in mutable fields, updated in
 * place by the tick, the frame loop with its fixed-timestep accumulator,
 * the player's actions, Unit Collapse, and save/load. Each method is
 * specified by the state function of the module that models it.
 */
module Engine {
  import opened Numeric
  import opened Formulas
  import opened State
  import Actions
  import opened Prestige
  import opened Simulation
  import opened Persistence

  /** A frame runs at most this many ticks; time beyond them is dropped. */
  const MaxSteps: nat := 1000

  class Engine {
    var distance: real
    var distancePerSecond: real
    var scalePoints: nat
    var mass: real
    var massPerSecond: real
    var massUnlocked: bool
    var scaleUpgradesUnlocked: bool
    var upgradeLevel: nat
    var upgradeCost: real
    var accelLevel: nat
    var accelCost: real
    var accelUnlocked: bool
    var compressionLevel: nat
    var compressionCost: real
    var compressionUnlocked: bool
    var massVelocityLevel: nat
    var massVelocityCost: real
    var massGenerationUnlocked: bool
    var tripleMassUnlocked: bool
    var persistentMassUpgrades: bool
    var tickRate: int

    /** Seconds per tick, 1 / tickRate. */
    var tickDt: real
    /** Frame time not yet consumed by whole ticks. */
    var tickAccumulator: real

    /** The decimal library's b^sqrt(x); the purchases rely on its laws (Lawful). */
    const powSqrt: PowSqrt

    // The source resets and restores the fields in one straight-line block
    // each (the Unit Collapse handler and loadGame). Here those blocks are
    // split into small Reset* and Restore* methods, one per upgrade track or
    // resource, and StartMassProduction is split out of UnlockMassGeneration,
    // only so that each proof stays small; they have no counterparts of their
    // own in the source.

    /** The engine state as a value. */
    function Snapshot(): GameState
      reads this
    {
      GameState(
        distance := distance,
        distancePerSecond := distancePerSecond,
        scalePoints := scalePoints,
        mass := mass,
        massPerSecond := massPerSecond,
        massUnlocked := massUnlocked,
        scaleUpgradesUnlocked := scaleUpgradesUnlocked,
        upgradeLevel := upgradeLevel,
        upgradeCost := upgradeCost,
        accelLevel := accelLevel,
        accelCost := accelCost,
        accelUnlocked := accelUnlocked,
        compressionLevel := compressionLevel,
        compressionCost := compressionCost,
        compressionUnlocked := compressionUnlocked,
        massVelocityLevel := massVelocityLevel,
        massVelocityCost := massVelocityCost,
        massGenerationUnlocked := massGenerationUnlocked,
        tripleMassUnlocked := tripleMassUnlocked,
        persistentMassUpgrades := persistentMassUpgrades,
        tickRate := tickRate)
    }

    /** The tick rate is in range and tickDt matches it. */
    ghost predicate Valid()
      reads this
    {
      && MinTickRate <= tickRate <= MaxTickRate
      && tickDt == 1.0 / (tickRate as real)
    }

    /** A new game: every field at its starting value, 60 ticks per second, nothing accumulated. */
    constructor (pow: PowSqrt)
      ensures Valid() && Snapshot() == Initial() && tickAccumulator == 0.0 && powSqrt == pow
    {
      distance := 0.0;
      distancePerSecond := StartingVelocity;
      scalePoints := 0;
      mass := 0.0;
      massPerSecond := 0.0;
      massUnlocked := false;
      scaleUpgradesUnlocked := false;
      upgradeLevel := 0;
      upgradeCost := VelocityBaseCost;
      accelLevel := 0;
      accelCost := AccelBaseCost;
      accelUnlocked := false;
      compressionLevel := 0;
      compressionCost := CompressionBaseCost;
      compressionUnlocked := false;
      massVelocityLevel := 0;
      massVelocityCost := MassVelocityBaseCost;
      massGenerationUnlocked := false;
      tripleMassUnlocked := false;
      persistentMassUpgrades := false;
      tickRate := DefaultTickRate;
      tickDt := 1.0 / (DefaultTickRate as real);
      tickAccumulator := 0.0;
      powSqrt := pow;
    }

    /** One tick of dt seconds. */
    method ProcessTick(dt: real)
      requires Valid()
      modifies this
      ensures Valid()
      ensures Snapshot() == Tick(old(Snapshot()), dt, powSqrt)
      ensures tickDt == old(tickDt) && tickAccumulator == old(tickAccumulator)
    {
      var acceleration := Formulas.Acceleration(accelLevel);
      distancePerSecond := distancePerSecond + acceleration * dt;
      ghost var sped := Snapshot();
      assert sped == old(Snapshot()).(distancePerSecond := sped.distancePerSecond);
      Progress(dt);
    }

    /**
     * One frame of delta seconds: the time joins the accumulator, and whole
     * ticks run while it covers one, at most MaxSteps of them. Below the cap
     * exactly the whole ticks run and the remainder stays; at the cap the
     * remainder is dropped. Every tick that runs is covered by the time
     * accumulated so far, so the cap is reached only when the time covers
     * MaxSteps ticks.
     */
    method RunFrame(delta: real) returns (steps: nat)
      requires Valid()
      modifies this
      ensures Valid()
      ensures steps <= MaxSteps
      ensures Snapshot() == TickN(old(Snapshot()), steps, tickDt, powSqrt)
      ensures tickDt == old(tickDt)
      ensures steps < MaxSteps ==>
        && tickAccumulator == old(tickAccumulator) + delta - Elapsed(steps, tickDt)
        && tickAccumulator < tickDt
        && (steps > 0 ==> 0.0 <= tickAccumulator)
      ensures steps == MaxSteps ==> tickAccumulator == 0.0
      ensures steps > 0 ==> Elapsed(steps, tickDt) <= old(tickAccumulator) + delta
    {
      ghost var start := Snapshot();
      var dt := tickDt;
      tickAccumulator := tickAccumulator + delta;
      steps := 0;
      while tickAccumulator >= dt && steps < MaxSteps
        invariant Valid() && tickDt == dt
        invariant steps <= MaxSteps
        invariant Snapshot() == TickN(start, steps, dt, powSqrt)
        invariant tickAccumulator == old(tickAccumulator) + delta - Elapsed(steps, dt)
        invariant steps > 0 ==> 0.0 <= tickAccumulator
        decreases MaxSteps - steps
      {
        ProcessTick(dt);
        tickAccumulator := tickAccumulator - dt;
        steps := steps + 1;
      }

      if steps >= MaxSteps {
        tickAccumulator := 0.0;
      }
    }

    /** Change the tick rate: the input is clamped to a whole rate in [10, 60] and tickDt follows. */
    method SetTickRate(rate: RateInput)
      requires Valid()
      modifies this
      ensures Valid()
      ensures Snapshot() == old(Snapshot()).(tickRate := ClampTickRate(rate))
      ensures tickAccumulator == old(tickAccumulator)
    {
      var r := ClampTickRate(rate);
      tickRate := r;
      tickDt := 1.0 / (tickRate as real);
    }

    method BuyVelocityUpgrade()
      requires Valid() && Lawful(powSqrt)
      modifies this
      ensures Valid()
      ensures Snapshot() == Actions.Buy(old(Snapshot()), Actions.Velocity, powSqrt)
      ensures tickDt == old(tickDt) && tickAccumulator == old(tickAccumulator)
    {
      var compressionDivision := CompressionDivision(compressionLevel, powSqrt);
      var discountedCost := upgradeCost / compressionDivision;
      if distance >= discountedCost {
        distance := distance - discountedCost;
        upgradeLevel := upgradeLevel + 1;
        upgradeCost := upgradeCost * VelocityCostFactor;
      }
    }

    method BuyAccelUpgrade()
      requires Valid() && Lawful(powSqrt)
      modifies this
      ensures Valid()
      ensures Snapshot() == Actions.Buy(old(Snapshot()), Actions.Acceleration, powSqrt)
      ensures tickDt == old(tickDt) && tickAccumulator == old(tickAccumulator)
    {
      var compressionDivision := CompressionDivision(compressionLevel, powSqrt);
      var discountedCost := accelCost / compressionDivision;
      if distance >= discountedCost {
        distance := distance - discountedCost;
        accelLevel := accelLevel + 1;
        accelCost := accelCost * AccelCostFactor;
      }
    }

    method BuyCompressionUpgrade()
      requires Valid() && Lawful(powSqrt)
      modifies this
      ensures Valid()
      ensures Snapshot() == Actions.Buy(old(Snapshot()), Actions.Compression, powSqrt)
      ensures tickDt == old(tickDt) && tickAccumulator == old(tickAccumulator)
    {
      if distance >= compressionCost {
        distance := distance - compressionCost;
        compressionLevel := compressionLevel + 1;
        compressionCost := compressionCost * CompressionCostFactor;
      }
    }

    method BuyMassVelocityUpgrade()
      requires Valid() && Lawful(powSqrt)
      modifies this
      ensures Valid()
      ensures Snapshot() == Actions.Buy(old(Snapshot()), Actions.MassVelocity, powSqrt)
      ensures tickDt == old(tickDt) && tickAccumulator == old(tickAccumulator)
    {
      if mass >= massVelocityCost {
        mass := mass - massVelocityCost;
        massVelocityLevel := massVelocityLevel + 1;
        massVelocityCost := massVelocityCost * MassVelocityCostFactor;
      }
    }

    method UnlockMassGeneration()
      requires Valid()
      modifies this
      ensures Valid()
      ensures Snapshot() == Actions.Unlock(old(Snapshot()), Actions.MassGeneration)
      ensures tickDt == old(tickDt) && tickAccumulator == old(tickAccumulator)
    {
      if scalePoints >= 1 && !massGenerationUnlocked {
        scalePoints := scalePoints - 1;
        massGenerationUnlocked := true;
        StartMassProduction();
      }
    }

    /** Mass is shown and produced at the base rate. */
    method StartMassProduction()
      modifies this
      ensures Snapshot() == old(Snapshot()).(
        massUnlocked := true,
        massPerSecond := MassGenerationRate)
      ensures tickDt == old(tickDt) && tickAccumulator == old(tickAccumulator)
    {
      massUnlocked := true;
      massPerSecond := MassGenerationRate;
    }

    method UnlockTripleMass()
      requires Valid()
      modifies this
      ensures Valid()
      ensures Snapshot() == Actions.Unlock(old(Snapshot()), Actions.TripleMass)
      ensures tickDt == old(tickDt) && tickAccumulator == old(tickAccumulator)
    {
      if scalePoints >= 5 && !tripleMassUnlocked && massGenerationUnlocked {
        scalePoints := scalePoints - 5;
        tripleMassUnlocked := true;
      }
    }

    method UnlockPersistentMass()
      requires Valid()
      modifies this
      ensures Valid()
      ensures Snapshot() == Actions.Unlock(old(Snapshot()), Actions.PersistentMass)
      ensures tickDt == old(tickDt) && tickAccumulator == old(tickAccumulator)
    {
      if scalePoints >= 15 && !persistentMassUpgrades && massGenerationUnlocked {
        scalePoints := scalePoints - 15;
        persistentMassUpgrades := true;
      }
    }

    /** The Unit Collapse button. */
    method UnitCollapse()
      requires Valid()
      modifies this
      ensures Valid()
      ensures Snapshot() == Prestige.UnitCollapse(old(Snapshot()))
      ensures tickDt == old(tickDt) && tickAccumulator == old(tickAccumulator)
    {
      if distance < PrestigeThreshold {
        return;
      }

      var gain := CollapseGain(distance);
      scalePoints := scalePoints + gain;

      if !scaleUpgradesUnlocked {
        scaleUpgradesUnlocked := true;
      }

      ResetRun();
    }

    /**
     * The restart after a collapse: distance 0, velocity back to the start,
     * the distance upgrades reset, mass 0, and the mass-velocity upgrade
     * reset unless Persistent Mass is owned.
     */
    method ResetRun()
      modifies this
      ensures Snapshot() == old(Snapshot()).(
        distance := 0.0,
        distancePerSecond := StartingVelocity,
        upgradeLevel := 0,
        upgradeCost := VelocityBaseCost,
        accelLevel := 0,
        accelCost := AccelBaseCost,
        accelUnlocked := false,
        compressionLevel := 0,
        compressionCost := CompressionBaseCost,
        compressionUnlocked := false,
        mass := 0.0,
        massVelocityLevel := if persistentMassUpgrades then old(massVelocityLevel) else 0,
        massVelocityCost := if persistentMassUpgrades then old(massVelocityCost) else MassVelocityBaseCost)
      ensures tickDt == old(tickDt) && tickAccumulator == old(tickAccumulator)
    {
      ResetDistance();
      ResetUpgrades();
      ResetMass();
    }

    /** Distance 0 and the base velocity back to its start. */
    method ResetDistance()
      modifies this
      ensures Snapshot() == old(Snapshot()).(
        distance := 0.0,
        distancePerSecond := StartingVelocity)
      ensures tickDt == old(tickDt) && tickAccumulator == old(tickAccumulator)
    {
      distance := 0.0;
      distancePerSecond := StartingVelocity;
    }

    /** Velocity, acceleration and compression back to level 0 at their base costs, hidden again. */
    method ResetUpgrades()
      modifies this
      ensures Snapshot() == old(Snapshot()).(
        upgradeLevel := 0,
        upgradeCost := VelocityBaseCost,
        accelLevel := 0,
        accelCost := AccelBaseCost,
        accelUnlocked := false,
        compressionLevel := 0,
        compressionCost := CompressionBaseCost,
        compressionUnlocked := false)
      ensures tickDt == old(tickDt) && tickAccumulator == old(tickAccumulator)
    {
      ResetVelocityUpgrade();
      ResetAccelUpgrade();
      ResetCompressionUpgrade();
    }

    /** Velocity upgrade back to level 0 at its base cost. */
    method ResetVelocityUpgrade()
      modifies this
      ensures Snapshot() == old(Snapshot()).(
        upgradeLevel := 0,
        upgradeCost := VelocityBaseCost)
      ensures tickDt == old(tickDt) && tickAccumulator == old(tickAccumulator)
    {
      upgradeLevel := 0;
      upgradeCost := VelocityBaseCost;
    }

    /** Acceleration back to level 0 at its base cost, hidden again. */
    method ResetAccelUpgrade()
      modifies this
      ensures Snapshot() == old(Snapshot()).(
        accelLevel := 0,
        accelCost := AccelBaseCost,
        accelUnlocked := false)
      ensures tickDt == old(tickDt) && tickAccumulator == old(tickAccumulator)
    {
      accelLevel := 0;
      accelCost := AccelBaseCost;
      accelUnlocked := false;
    }

    /** Compression back to level 0 at its base cost, hidden again. */
    method ResetCompressionUpgrade()
      modifies this
      ensures Snapshot() == old(Snapshot()).(
        compressionLevel := 0,
        compressionCost := CompressionBaseCost,
        compressionUnlocked := false)
      ensures tickDt == old(tickDt) && tickAccumulator == old(tickAccumulator)
    {
      compressionLevel := 0;
      compressionCost := CompressionBaseCost;
      compressionUnlocked := false;
    }

    /** Mass 0; the mass-velocity upgrade back to level 0 at its base cost unless Persistent Mass is owned. */
    method ResetMass()
      modifies this
      ensures Snapshot() == old(Snapshot()).(
        mass := 0.0,
        massVelocityLevel := if persistentMassUpgrades then old(massVelocityLevel) else 0,
        massVelocityCost := if persistentMassUpgrades then old(massVelocityCost) else MassVelocityBaseCost)
      ensures tickDt == old(tickDt) && tickAccumulator == old(tickAccumulator)
    {
      mass := 0.0;
      if !persistentMassUpgrades {
        massVelocityLevel := 0;
        massVelocityCost := MassVelocityBaseCost;
      }
    }

    /** The record a save at time now writes. */
    method SaveGame(now: int) returns (data: SaveData)
      ensures data == Save(Snapshot(), now)
    {
      data := SaveData(
        distance := distance,
        distancePerSecond := distancePerSecond,
        scalePoints := scalePoints,
        scaleUpgradesUnlocked := Some(scaleUpgradesUnlocked),
        upgradeLevel := Some(upgradeLevel),
        upgradeCost := upgradeCost,
        accelLevel := Some(accelLevel),
        accelCost := Some(accelCost),
        accelUnlocked := Some(accelUnlocked),
        compressionLevel := Some(compressionLevel),
        compressionCost := Some(compressionCost),
        compressionUnlocked := Some(compressionUnlocked),
        mass := Some(mass),
        massPerSecond := Some(massPerSecond),
        massUnlocked := Some(massUnlocked),
        massVelocityLevel := Some(massVelocityLevel),
        massVelocityCost := Some(massVelocityCost),
        massGenerationUnlocked := Some(massGenerationUnlocked),
        tripleMassUnlocked := Some(tripleMassUnlocked),
        persistentMassUpgrades := Some(persistentMassUpgrades),
        tickRate := Some(tickRate as real),
        lastTime := Some(now));
    }

    /**
     * Load the stored save, if there is one, at time now: copy its fields in
     * with their defaults, take its tick rate when it holds a non-zero one,
     * then add the progress of the time spent offline.
     */
    method LoadGame(stored: Option<SaveData>, now: int)
      requires Valid()
      modifies this
      ensures Valid()
      ensures stored.None? ==> Snapshot() == old(Snapshot())
      ensures stored.Some? ==> Snapshot() == Load(old(Snapshot()), stored.value, now, powSqrt)
      ensures tickAccumulator == old(tickAccumulator)
    {
      if stored.None? {
        return;
      }
      var data := stored.value;
      RestoreFields(data);

      if data.lastTime.Some? && data.lastTime.value != 0 {
        var offlineTime := ((now - data.lastTime.value) as real) / 1000.0;
        Progress(offlineTime);
      }
    }

    /** The field copy of a load, with defaults for absent fields and the tick-rate setting. */
    method RestoreFields(data: SaveData)
      requires Valid()
      modifies this
      ensures Valid()
      ensures Snapshot() == Restore(old(Snapshot()), data)
      ensures tickAccumulator == old(tickAccumulator)
    {
      RestoreRun(data);
      RestoreUpgrades(data);
      RestoreMass(data);

      if data.tickRate.Some? && data.tickRate.value != 0.0 {
        var r := ClampTickRate(Number(data.tickRate.value));
        tickRate := r;
        tickDt := 1.0 / (tickRate as real);
      }
    }

    /** Distance, velocity and scale points. */
    method RestoreRun(data: SaveData)
      modifies this
      ensures Snapshot() == old(Snapshot()).(
        distance := data.distance,
        distancePerSecond := data.distancePerSecond,
        scalePoints := data.scalePoints,
        scaleUpgradesUnlocked := OrElse(data.scaleUpgradesUnlocked, false))
      ensures tickDt == old(tickDt) && tickAccumulator == old(tickAccumulator)
    {
      RestoreDistance(data);
      RestoreScale(data);
    }

    /** Distance and base velocity, which every save holds. */
    method RestoreDistance(data: SaveData)
      modifies this
      ensures Snapshot() == old(Snapshot()).(
        distance := data.distance,
        distancePerSecond := data.distancePerSecond)
      ensures tickDt == old(tickDt) && tickAccumulator == old(tickAccumulator)
    {
      distance := data.distance;
      distancePerSecond := data.distancePerSecond;
    }

    /** Scale points and whether the Scale Upgrades tab is open. */
    method RestoreScale(data: SaveData)
      modifies this
      ensures Snapshot() == old(Snapshot()).(
        scalePoints := data.scalePoints,
        scaleUpgradesUnlocked := OrElse(data.scaleUpgradesUnlocked, false))
      ensures tickDt == old(tickDt) && tickAccumulator == old(tickAccumulator)
    {
      scalePoints := data.scalePoints;
      scaleUpgradesUnlocked := OrElse(data.scaleUpgradesUnlocked, false);
    }

    /** The three upgrades paid in distance. */
    method RestoreUpgrades(data: SaveData)
      modifies this
      ensures Snapshot() == old(Snapshot()).(
        upgradeLevel := OrElse(data.upgradeLevel, 0),
        upgradeCost := data.upgradeCost,
        accelLevel := OrElse(data.accelLevel, 0),
        accelCost := OrElse(data.accelCost, AccelBaseCost),
        accelUnlocked := OrElse(data.accelUnlocked, false),
        compressionLevel := OrElse(data.compressionLevel, 0),
        compressionCost := OrElse(data.compressionCost, CompressionBaseCost),
        compressionUnlocked := OrElse(data.compressionUnlocked, false))
      ensures tickDt == old(tickDt) && tickAccumulator == old(tickAccumulator)
    {
      RestoreVelocityUpgrade(data);
      RestoreAccelUpgrade(data);
      RestoreCompressionUpgrade(data);
    }

    /** The velocity upgrade; its cost is always in a save. */
    method RestoreVelocityUpgrade(data: SaveData)
      modifies this
      ensures Snapshot() == old(Snapshot()).(
        upgradeLevel := OrElse(data.upgradeLevel, 0),
        upgradeCost := data.upgradeCost)
      ensures tickDt == old(tickDt) && tickAccumulator == old(tickAccumulator)
    {
      upgradeLevel := OrElse(data.upgradeLevel, 0);
      upgradeCost := data.upgradeCost;
    }

    /** The acceleration upgrade. */
    method RestoreAccelUpgrade(data: SaveData)
      modifies this
      ensures Snapshot() == old(Snapshot()).(
        accelLevel := OrElse(data.accelLevel, 0),
        accelCost := OrElse(data.accelCost, AccelBaseCost),
        accelUnlocked := OrElse(data.accelUnlocked, false))
      ensures tickDt == old(tickDt) && tickAccumulator == old(tickAccumulator)
    {
      accelLevel := OrElse(data.accelLevel, 0);
      accelCost := OrElse(data.accelCost, AccelBaseCost);
      accelUnlocked := OrElse(data.accelUnlocked, false);
    }

    /** The compression upgrade. */
    method RestoreCompressionUpgrade(data: SaveData)
      modifies this
      ensures Snapshot() == old(Snapshot()).(
        compressionLevel := OrElse(data.compressionLevel, 0),
        compressionCost := OrElse(data.compressionCost, CompressionBaseCost),
        compressionUnlocked := OrElse(data.compressionUnlocked, false))
      ensures tickDt == old(tickDt) && tickAccumulator == old(tickAccumulator)
    {
      compressionLevel := OrElse(data.compressionLevel, 0);
      compressionCost := OrElse(data.compressionCost, CompressionBaseCost);
      compressionUnlocked := OrElse(data.compressionUnlocked, false);
    }

    /** Mass, its production, the mass-velocity upgrade and the three perks. */
    method RestoreMass(data: SaveData)
      modifies this
      ensures Snapshot() == old(Snapshot()).(
        mass := OrElse(data.mass, 0.0),
        massPerSecond := OrElse(data.massPerSecond, 0.0),
        massUnlocked := OrElse(data.massUnlocked, false),
        massVelocityLevel := OrElse(data.massVelocityLevel, 0),
        massVelocityCost := OrElse(data.massVelocityCost, MassVelocityBaseCost),
        massGenerationUnlocked := OrElse(data.massGenerationUnlocked, false),
        tripleMassUnlocked := OrElse(data.tripleMassUnlocked, false),
        persistentMassUpgrades := OrElse(data.persistentMassUpgrades, false))
      ensures tickDt == old(tickDt) && tickAccumulator == old(tickAccumulator)
    {
      RestoreMassProduction(data);
      RestoreMassVelocityUpgrade(data);
      RestorePerks(data);
    }

    /** Mass, its rate and whether it is shown. */
    method RestoreMassProduction(data: SaveData)
      modifies this
      ensures Snapshot() == old(Snapshot()).(
        mass := OrElse(data.mass, 0.0),
        massPerSecond := OrElse(data.massPerSecond, 0.0),
        massUnlocked := OrElse(data.massUnlocked, false))
      ensures tickDt == old(tickDt) && tickAccumulator == old(tickAccumulator)
    {
      mass := OrElse(data.mass, 0.0);
      massPerSecond := OrElse(data.massPerSecond, 0.0);
      massUnlocked := OrElse(data.massUnlocked, false);
    }

    /** The mass-velocity upgrade. */
    method RestoreMassVelocityUpgrade(data: SaveData)
      modifies this
      ensures Snapshot() == old(Snapshot()).(
        massVelocityLevel := OrElse(data.massVelocityLevel, 0),
        massVelocityCost := OrElse(data.massVelocityCost, MassVelocityBaseCost))
      ensures tickDt == old(tickDt) && tickAccumulator == old(tickAccumulator)
    {
      massVelocityLevel := OrElse(data.massVelocityLevel, 0);
      massVelocityCost := OrElse(data.massVelocityCost, MassVelocityBaseCost);
    }

    /** The three scale-point perks. */
    method RestorePerks(data: SaveData)
      modifies this
      ensures Snapshot() == old(Snapshot()).(
        massGenerationUnlocked := OrElse(data.massGenerationUnlocked, false),
        tripleMassUnlocked := OrElse(data.tripleMassUnlocked, false),
        persistentMassUpgrades := OrElse(data.persistentMassUpgrades, false))
      ensures tickDt == old(tickDt) && tickAccumulator == old(tickAccumulator)
    {
      massGenerationUnlocked := OrElse(data.massGenerationUnlocked, false);
      tripleMassUnlocked := OrElse(data.tripleMassUnlocked, false);
      persistentMassUpgrades := OrElse(data.persistentMassUpgrades, false);
    }

    /**
     * Progress over t seconds at the current rates: distance gains velocity
     * x multiplier x t, and mass, when unlocked, mass rate x mass multiplier
     * x t. A tick runs it for dt after accelerating; a load runs it for the
     * time spent offline.
     */
    method Progress(t: real)
      requires Valid()
      modifies this
      ensures Valid()
      ensures Snapshot() == Advance(old(Snapshot()), t, powSqrt)
      ensures tickDt == old(tickDt) && tickAccumulator == old(tickAccumulator)
    {
      var totalMultiplier := TotalMultiplier(upgradeLevel, scalePoints, massVelocityLevel, powSqrt);
      distance := distance + Product(distancePerSecond, totalMultiplier, t);

      if massUnlocked {
        var massMultiplier := MassMultiplier(tripleMassUnlocked);
        mass := mass + Product(massPerSecond, massMultiplier, t);
      }
    }
  }
}
