/**
 * The player's validated actions: the four upgrade purchases, paid in
 * distance or mass, and the three perks bought with scale points. Each
 * action either applies its exact debit and increment or leaves the state
 * as it was.
 */
module Actions {
  import opened Numeric
  import opened Formulas
  import opened State

  /** The four upgrade tracks. */
  datatype Upgrade = Velocity | Acceleration | Compression | MassVelocity

  /** The resource an upgrade is paid in: mass for mass velocity, distance for the others. */
  function Funds(s: GameState, u: Upgrade): real
  {
    if u == MassVelocity then s.mass else s.distance
  }

  function Level(s: GameState, u: Upgrade): nat
  {
    match u
    case Velocity => s.upgradeLevel
    case Acceleration => s.accelLevel
    case Compression => s.compressionLevel
    case MassVelocity => s.massVelocityLevel
  }

  /** The stored, undiscounted cost of the next level. */
  function Cost(s: GameState, u: Upgrade): real
  {
    match u
    case Velocity => s.upgradeCost
    case Acceleration => s.accelCost
    case Compression => s.compressionCost
    case MassVelocity => s.massVelocityCost
  }

  /** The factor the stored cost grows by on each purchase. */
  function CostFactor(u: Upgrade): real
  {
    match u
    case Velocity => VelocityCostFactor
    case Acceleration => AccelCostFactor
    case Compression => CompressionCostFactor
    case MassVelocity => MassVelocityCostFactor
  }

  /** Only the velocity and acceleration costs are divided by the compression divisor. */
  predicate Discounted(u: Upgrade)
  {
    u == Velocity || u == Acceleration
  }

  /** What a purchase actually debits. */
  function Price(s: GameState, u: Upgrade, pow: PowSqrt): real
    requires Lawful(pow)
  {
    if Discounted(u) then Cost(s, u) / CompressionDivision(s.compressionLevel, pow) else Cost(s, u)
  }

  /**
   * The state with the three fields an upgrade touches (the funds it is
   * paid in, its level, its cost) cleared: what a purchase leaves alone.
   */
  function Untouched(s: GameState, u: Upgrade): GameState
  {
    match u
    case Velocity => s.(distance := 0.0, upgradeLevel := 0, upgradeCost := 0.0)
    case Acceleration => s.(distance := 0.0, accelLevel := 0, accelCost := 0.0)
    case Compression => s.(distance := 0.0, compressionLevel := 0, compressionCost := 0.0)
    case MassVelocity => s.(mass := 0.0, massVelocityLevel := 0, massVelocityCost := 0.0)
  }

  /** Whether the funds cover the (discounted) price. */
  predicate CanAfford(s: GameState, u: Upgrade, pow: PowSqrt)
    requires Lawful(pow)
  {
    Funds(s, u) >= Price(s, u, pow)
  }

  /** Buy one level of an upgrade: debit the price, raise the level, grow the stored cost; or do nothing. */
  function Buy(s: GameState, u: Upgrade, pow: PowSqrt): GameState
    requires Lawful(pow)
  {
    if !CanAfford(s, u, pow) then s
    else
      var price := Price(s, u, pow);
      match u
      case Velocity =>
        s.(distance := s.distance - price, upgradeLevel := s.upgradeLevel + 1,
           upgradeCost := s.upgradeCost * VelocityCostFactor)
      case Acceleration =>
        s.(distance := s.distance - price, accelLevel := s.accelLevel + 1,
           accelCost := s.accelCost * AccelCostFactor)
      case Compression =>
        s.(distance := s.distance - price, compressionLevel := s.compressionLevel + 1,
           compressionCost := s.compressionCost * CompressionCostFactor)
      case MassVelocity =>
        s.(mass := s.mass - price, massVelocityLevel := s.massVelocityLevel + 1,
           massVelocityCost := s.massVelocityCost * MassVelocityCostFactor)
  }

  /** The compression divisor never raises a price, and a price is never negative. */
  lemma PriceBounds(s: GameState, u: Upgrade, pow: PowSqrt)
    requires Lawful(pow) && 0.0 <= Cost(s, u)
    ensures 0.0 <= Price(s, u, pow) <= Cost(s, u)
    ensures !Discounted(u) ==> Price(s, u, pow) == Cost(s, u)
    ensures s.compressionLevel == 0 ==> Price(s, u, pow) == Cost(s, u)
    ensures Discounted(u) ==> Price(s, u, pow) * CompressionDivision(s.compressionLevel, pow) == Cost(s, u)
  {
    if Discounted(u) {
      var c, d := Cost(s, u), CompressionDivision(s.compressionLevel, pow);
      assert c / d <= c by {
        assert c == (c / d) * d;
        if 0.0 < c / d {
          ScaleUp(d, c / d);
        }
      }
    }
  }

  /**
   * Each compression level strictly lowers a positive velocity or
   * acceleration price: the same stored cost is divided by a larger divisor.
   */
  lemma CompressionLowersPrice(s: GameState, u: Upgrade, n: nat, pow: PowSqrt)
    requires Lawful(pow) && Discounted(u) && 0.0 < Cost(s, u) && s.compressionLevel < n
    ensures Price(s.(compressionLevel := n), u, pow) < Price(s, u, pow)
  {
    var c := Cost(s, u);
    assert Cost(s.(compressionLevel := n), u) == c;
    var d, e := CompressionDivision(s.compressionLevel, pow), CompressionDivision(n, pow);
    CompressionDivisionIncreasing(s.compressionLevel, n, pow);
    assert c / d * d == c && c / e * e == c;
    assert c / e * e == c / d * d < c / d * e;
  }

  /**
   * A purchase succeeds exactly when the funds cover the price. Then the
   * funds drop by exactly the price and stay non-negative, the level rises
   * by one, the stored cost grows by the upgrade's factor, and nothing else
   * changes; otherwise nothing changes at all.
   */
  lemma BuyEffect(s: GameState, u: Upgrade, pow: PowSqrt)
    requires Lawful(pow)
    ensures var r := Buy(s, u, pow);
      if CanAfford(s, u, pow) then
        && Funds(r, u) == Funds(s, u) - Price(s, u, pow)
        && 0.0 <= Funds(r, u)
        && Level(r, u) == Level(s, u) + 1
        && Cost(r, u) == Cost(s, u) * CostFactor(u)
        && Untouched(r, u) == Untouched(s, u)
      else r == s
  {
  }

  /** A purchase changes the state exactly when the funds cover the price. */
  lemma BuySucceedsIffAffordable(s: GameState, u: Upgrade, pow: PowSqrt)
    requires Lawful(pow)
    ensures Buy(s, u, pow) != s <==> CanAfford(s, u, pow)
  {
    if CanAfford(s, u, pow) {
      assert Level(Buy(s, u, pow), u) != Level(s, u);
    }
  }

  /** Purchases keep resources non-negative and costs positive. */
  lemma BuyPreservesNonNegative(s: GameState, u: Upgrade, pow: PowSqrt)
    requires Lawful(pow) && NonNegative(s)
    ensures NonNegative(Buy(s, u, pow))
  {
    if CanAfford(s, u, pow) {
      PriceBounds(s, u, pow);
    }
  }

  /** A purchase never lowers a level, so it never hides an upgrade that was on offer. */
  lemma BuyKeepsReveals(s: GameState, u: Upgrade, pow: PowSqrt)
    requires Lawful(pow)
    ensures AccelerationRevealed(s) ==> AccelerationRevealed(Buy(s, u, pow))
    ensures CompressionRevealed(s) ==> CompressionRevealed(Buy(s, u, pow))
    ensures Level(s, u) <= Level(Buy(s, u, pow), u)
  {
    BuyEffect(s, u, pow);
  }

  /**
   * The acceleration purchase itself does not check that the upgrade is on
   * offer: from a state where it is hidden it still succeeds when the
   * distance covers the cost.
   */
  lemma AccelerationPurchaseIgnoresReveal(pow: PowSqrt)
    requires Lawful(pow)
    ensures var s := Initial().(distance := AccelBaseCost);
      !AccelerationRevealed(s) && Buy(s, Acceleration, pow).accelLevel == 1
  {
    var s := Initial().(distance := AccelBaseCost);
    assert Price(s, Acceleration, pow) == AccelBaseCost;
  }

  /** The three perks bought with scale points. */
  datatype Perk = MassGeneration | TripleMass | PersistentMass

  /** Scale-point price of each perk. */
  function PerkCost(p: Perk): nat
  {
    match p
    case MassGeneration => 1
    case TripleMass => 5
    case PersistentMass => 15
  }

  predicate Owned(s: GameState, p: Perk)
  {
    match p
    case MassGeneration => s.massGenerationUnlocked
    case TripleMass => s.tripleMassUnlocked
    case PersistentMass => s.persistentMassUpgrades
  }

  /** Triple Mass and Persistent Mass are only sold once Mass Generation is owned. */
  predicate Prerequisite(s: GameState, p: Perk)
  {
    p == MassGeneration || s.massGenerationUnlocked
  }

  predicate CanUnlock(s: GameState, p: Perk)
  {
    s.scalePoints >= PerkCost(p) && !Owned(s, p) && Prerequisite(s, p)
  }

  /** Buy a perk: debit its scale points and set its flag (Mass Generation also starts mass at 1 g/s); or do nothing. */
  function Unlock(s: GameState, p: Perk): GameState
  {
    if !CanUnlock(s, p) then s
    else
      var rest := s.scalePoints - PerkCost(p);
      match p
      case MassGeneration =>
        s.(scalePoints := rest, massGenerationUnlocked := true, massUnlocked := true,
           massPerSecond := MassGenerationRate)
      case TripleMass => s.(scalePoints := rest, tripleMassUnlocked := true)
      case PersistentMass => s.(scalePoints := rest, persistentMassUpgrades := true)
  }

  /**
   * A perk is bought exactly when it is affordable, not yet owned and its
   * prerequisite holds; a purchase debits exactly its price and sets its
   * flag, and a failed one changes nothing. Buying Mass Generation also
   * shows mass and starts producing it at 1 g/s.
   */
  lemma UnlockEffect(s: GameState, p: Perk)
    ensures var r := Unlock(s, p);
      && (!Owned(s, p) && Owned(r, p) <==> CanUnlock(s, p))
      && (CanUnlock(s, p) ==> r.scalePoints + PerkCost(p) == s.scalePoints)
      && (!CanUnlock(s, p) ==> r == s)
      && (p == MassGeneration && CanUnlock(s, p) ==>
            r.massUnlocked && r.massPerSecond == MassGenerationRate)
  {
  }

  /** Only its own flag (and, for Mass Generation, mass production) changes besides the scale points. */
  lemma UnlockFrame(s: GameState, p: Perk)
    ensures var r := Unlock(s, p);
      && r.(scalePoints := 0, massGenerationUnlocked := false, tripleMassUnlocked := false,
            persistentMassUpgrades := false, massUnlocked := false, massPerSecond := 0.0)
         == s.(scalePoints := 0, massGenerationUnlocked := false, tripleMassUnlocked := false,
               persistentMassUpgrades := false, massUnlocked := false, massPerSecond := 0.0)
      && (p != MassGeneration ==>
            r.massUnlocked == s.massUnlocked && r.massPerSecond == s.massPerSecond
            && r.massGenerationUnlocked == s.massGenerationUnlocked)
      && (p != TripleMass ==> r.tripleMassUnlocked == s.tripleMassUnlocked)
      && (p != PersistentMass ==> r.persistentMassUpgrades == s.persistentMassUpgrades)
  {
  }

  /** Each perk can be bought at most once: a second attempt changes nothing. */
  lemma UnlockAtMostOnce(s: GameState, p: Perk)
    ensures Unlock(Unlock(s, p), p) == Unlock(s, p)
  {
  }

  /** Owning a perk is never undone by buying a perk. */
  lemma UnlockKeepsOwnership(s: GameState, p: Perk, q: Perk)
    ensures Owned(s, q) ==> Owned(Unlock(s, p), q)
  {
  }

  /** Without Mass Generation the other two perks cannot be bought, whatever the scale points. */
  lemma PerksNeedMassGeneration(s: GameState, p: Perk)
    requires !s.massGenerationUnlocked && p != MassGeneration
    ensures Unlock(s, p) == s
  {
  }
}
