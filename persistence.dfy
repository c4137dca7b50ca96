/**
 * Saving and loading: the field mapping between the engine state and the
 * save record, the defaults a save without a field falls back to, the
 * tick-rate setting, and the offline catch-up applied on load.
 */
module Persistence {
  import opened Numeric
  import opened Formulas
  import opened State
  import opened Simulation

  datatype Option<T> = None | Some(value: T)

  /** The value, or the default when the field is absent. */
  function OrElse<T>(o: Option<T>, default: T): T
  {
    if o.Some? then o.value else default
  }

  /**
   * A save record. Distance, velocity, scale points and the velocity cost
   * are read without a fallback; every other field may be absent from an
   * older save. The tick rate is the stored number; the save time is in
   * milliseconds.
   */
  datatype SaveData = SaveData(
    distance: real,
    distancePerSecond: real,
    scalePoints: nat,
    scaleUpgradesUnlocked: Option<bool>,
    upgradeLevel: Option<nat>,
    upgradeCost: real,
    accelLevel: Option<nat>,
    accelCost: Option<real>,
    accelUnlocked: Option<bool>,
    compressionLevel: Option<nat>,
    compressionCost: Option<real>,
    compressionUnlocked: Option<bool>,
    mass: Option<real>,
    massPerSecond: Option<real>,
    massUnlocked: Option<bool>,
    massVelocityLevel: Option<nat>,
    massVelocityCost: Option<real>,
    massGenerationUnlocked: Option<bool>,
    tripleMassUnlocked: Option<bool>,
    persistentMassUpgrades: Option<bool>,
    tickRate: Option<real>,
    lastTime: Option<int>)

  /** The record a save writes at time now (milliseconds): every field present. */
  function Save(s: GameState, now: int): SaveData
  {
    SaveData(
      distance := s.distance,
      distancePerSecond := s.distancePerSecond,
      scalePoints := s.scalePoints,
      scaleUpgradesUnlocked := Some(s.scaleUpgradesUnlocked),
      upgradeLevel := Some(s.upgradeLevel),
      upgradeCost := s.upgradeCost,
      accelLevel := Some(s.accelLevel),
      accelCost := Some(s.accelCost),
      accelUnlocked := Some(s.accelUnlocked),
      compressionLevel := Some(s.compressionLevel),
      compressionCost := Some(s.compressionCost),
      compressionUnlocked := Some(s.compressionUnlocked),
      mass := Some(s.mass),
      massPerSecond := Some(s.massPerSecond),
      massUnlocked := Some(s.massUnlocked),
      massVelocityLevel := Some(s.massVelocityLevel),
      massVelocityCost := Some(s.massVelocityCost),
      massGenerationUnlocked := Some(s.massGenerationUnlocked),
      tripleMassUnlocked := Some(s.tripleMassUnlocked),
      persistentMassUpgrades := Some(s.persistentMassUpgrades),
      tickRate := Some(s.tickRate as real),
      lastTime := Some(now))
  }

  /**
   * The fields of a save copied into the state, absent fields taking their
   * defaults. The tick rate is taken (clamped) only when the record holds a
   * non-zero one; otherwise the current rate stays.
   */
  function Restore(cur: GameState, d: SaveData): GameState
  {
    GameState(
      distance := d.distance,
      distancePerSecond := d.distancePerSecond,
      scalePoints := d.scalePoints,
      mass := OrElse(d.mass, 0.0),
      massPerSecond := OrElse(d.massPerSecond, 0.0),
      massUnlocked := OrElse(d.massUnlocked, false),
      scaleUpgradesUnlocked := OrElse(d.scaleUpgradesUnlocked, false),
      upgradeLevel := OrElse(d.upgradeLevel, 0),
      upgradeCost := d.upgradeCost,
      accelLevel := OrElse(d.accelLevel, 0),
      accelCost := OrElse(d.accelCost, AccelBaseCost),
      accelUnlocked := OrElse(d.accelUnlocked, false),
      compressionLevel := OrElse(d.compressionLevel, 0),
      compressionCost := OrElse(d.compressionCost, CompressionBaseCost),
      compressionUnlocked := OrElse(d.compressionUnlocked, false),
      massVelocityLevel := OrElse(d.massVelocityLevel, 0),
      massVelocityCost := OrElse(d.massVelocityCost, MassVelocityBaseCost),
      massGenerationUnlocked := OrElse(d.massGenerationUnlocked, false),
      tripleMassUnlocked := OrElse(d.tripleMassUnlocked, false),
      persistentMassUpgrades := OrElse(d.persistentMassUpgrades, false),
      tickRate := if d.tickRate.Some? && d.tickRate.value != 0.0
                  then ClampTickRate(Number(d.tickRate.value)) else cur.tickRate)
  }

  /** Seconds since the save, when the record carries a non-zero save time. */
  function OfflineSeconds(d: SaveData, now: int): Option<real>
  {
    if d.lastTime.Some? && d.lastTime.value != 0 then Some(((now - d.lastTime.value) as real) / 1000.0)
    else None
  }

  /** Load a save at time now: restore the fields, then catch up on the time spent offline. */
  function Load(cur: GameState, d: SaveData, now: int, pow: PowSqrt): GameState
  {
    var r := Restore(cur, d);
    var offline := OfflineSeconds(d, now);
    if offline.Some? then Advance(r, offline.value, pow) else r
  }

  /** Saving and loading at the same moment gives back exactly the saved state. */
  lemma SaveLoadRoundTrip(cur: GameState, s: GameState, now: int, pow: PowSqrt)
    requires TickRateInRange(s)
    ensures Load(cur, Save(s, now), now, pow) == s
  {
    ClampKeepsValidRates(s.tickRate);
    AdvanceZero(Restore(cur, Save(s, now)), pow);
  }

  /**
   * Loading a save written at time savedAt, later at now, gives the saved state
   * advanced by the seconds in between: distance grows by velocity x
   * multiplier x elapsed, mass likewise only when unlocked, nothing else moves.
   */
  lemma OfflineCatchUp(cur: GameState, s: GameState, savedAt: int, now: int, pow: PowSqrt)
    requires TickRateInRange(s) && savedAt != 0
    ensures var elapsed := ((now - savedAt) as real) / 1000.0;
      var r := Load(cur, Save(s, savedAt), now, pow);
      && r == Advance(s, elapsed, pow)
      && r.distance == s.distance
           + Product(s.distancePerSecond, TotalMultiplier(s.upgradeLevel, s.scalePoints, s.massVelocityLevel, pow), elapsed)
      && (s.massUnlocked ==> r.mass == s.mass + Product(s.massPerSecond, MassMultiplier(s.tripleMassUnlocked), elapsed))
      && (!s.massUnlocked ==> r.mass == s.mass)
      && Untimed(r) == Untimed(s) && r.distancePerSecond == s.distancePerSecond
  {
    ClampKeepsValidRates(s.tickRate);
  }

  /** Loading later never loses distance or mass, as long as the clock has not gone backwards. */
  lemma OfflineNeverLoses(cur: GameState, s: GameState, savedAt: int, now: int, pow: PowSqrt)
    requires TickRateInRange(s) && NonNegative(s) && Lawful(pow)
    requires savedAt <= now
    ensures var r := Load(cur, Save(s, savedAt), now, pow);
      s.distance <= r.distance && s.mass <= r.mass
  {
    if savedAt == 0 {
      SaveLoadRoundTrip(cur, s, now, pow);
      assert Load(cur, Save(s, savedAt), now, pow) == Load(cur, Save(s, now), now, pow);
    } else {
      OfflineCatchUp(cur, s, savedAt, now, pow);
      AdvanceNeverLoses(s, ((now - savedAt) as real) / 1000.0, pow);
    }
  }

  /**
   * If the clock reads earlier than the save time, the catch-up runs with a
   * negative time and takes distance away: the load does not guard against it.
   */
  lemma ClockGoingBackLosesDistance(cur: GameState, s: GameState, savedAt: int, now: int, pow: PowSqrt)
    requires TickRateInRange(s) && Lawful(pow) && savedAt != 0
    requires now < savedAt && 0.0 < s.distancePerSecond
    ensures Load(cur, Save(s, savedAt), now, pow).distance < s.distance
  {
    ClampKeepsValidRates(s.tickRate);
    var elapsed := ((now - savedAt) as real) / 1000.0;
    var m := TotalMultiplier(s.upgradeLevel, s.scalePoints, s.massVelocityLevel, pow);
    TotalMultiplierAtLeastOne(s.upgradeLevel, s.scalePoints, s.massVelocityLevel, pow);
    ProductNegative(s.distancePerSecond, m, elapsed);
  }

  lemma ProductNegative(a: real, b: real, t: real)
    requires 0.0 < a && 0.0 < b && t < 0.0
    ensures Product(a, b, t) < 0.0
  {
    assert 0.0 < a * b;
  }

  /**
   * A save holding only the required fields loads with every default: level
   * 0, the base costs of acceleration, compression and mass velocity, no mass,
   * no perks, every flag off, and the current tick rate.
   */
  lemma MinimalSaveDefaults(cur: GameState, distance: real, velocity: real, points: nat, cost: real,
                            now: int, pow: PowSqrt)
    ensures var d := SaveData(distance, velocity, points, None, None, cost, None, None, None, None,
                              None, None, None, None, None, None, None, None, None, None, None, None);
      Load(cur, d, now, pow) == Initial().(distance := distance, distancePerSecond := velocity,
                                           scalePoints := points, upgradeCost := cost,
                                           tickRate := cur.tickRate)
  {
  }

  /** A save whose tick rate is missing or 0 keeps the current rate; any other is clamped into [10, 60]. */
  lemma LoadTickRate(cur: GameState, d: SaveData, now: int, pow: PowSqrt)
    ensures var r := Load(cur, d, now, pow);
      && (d.tickRate.None? || d.tickRate == Some(0.0) ==> r.tickRate == cur.tickRate)
      && (TickRateInRange(cur) ==> TickRateInRange(r))
  {
  }
}
