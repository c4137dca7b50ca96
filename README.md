# Scale: the progression and economy engine

A model of the engine of Scale, an incremental browser game. The player
travels: distance grows every tick at a base velocity times a multiplier.
Distance buys the velocity, acceleration and distance-compression upgrades.
Once the run reaches 10^9 m, a Unit Collapse turns it into scale points and
restarts the distance economy. Scale points buy perks that start mass
production. Mass buys the mass-velocity upgrade, which multiplies everything
else. The engine runs on a fixed-timestep loop, saves its state, and on load
catches up on the time spent offline.

The model follows `game.js`. Its modules:

- `Numeric`: integer powers, the exact floor of log10, and the laws the
  decimal library's b^sqrt(x) must obey (`Lawful`). The library's power is
  a parameter of type `PowSqrt`.
- `Formulas`: the four `calculate*` functions, with their softcaps.
- `State`: the engine's module-level variables as one value, `GameState`,
  plus the starting values and the cost constants.
- `Actions`: the four purchases and the three scale-point perks, as
  functions on `GameState`.
- `Prestige`: the Unit Collapse gain and reset.
- `Simulation`: the tick, n ticks, the offline advance and the tick-rate
  clamp.
- `Persistence`: the save record, the load with its per-field defaults,
  and the offline catch-up.
- `Engine`: class `Engine`, which holds the same variables as mutable
  fields. Each method that models a source function is that function's
  step-by-step update and is proved to leave the state the corresponding
  function describes. The `Reset*` and `Restore*` helpers and
  `StartMassProduction` have no source function of their own: they split
  the straight-line blocks of `unitCollapse`, `loadGame` and the Mass
  Generation unlock (see the comment above `Engine.Snapshot`). `SaveGame` builds the save record.
  `RunFrame` is the frame loop with its accumulator and its 1000-step cap.

The later version of the game adds a dimension tier, an auto-upgrade perk
and an autosave interval. This file has none of them, so neither does the
model.

Two source comments disagree with the code. The comments on the perk flags
(game.js:43, game.js:46) give prices of 1 and 2 scale points. The unlock
functions charge 5 and 15. The model follows the code.

## Model

| member | source | states |
|---|---|---|
| Numeric.FloorLog10 | game.js:549 | for d >= 1 the result k satisfies 10^k <= d < 10^(k+1), so it is floor(log10 d) exactly |
| Numeric.FloorLog10Monotone | game.js:549 | floor(log10 d) never decreases as d grows |
| Formulas.SoftcapBases | game.js:169-190 | the softcap base constants are 2^5 = 32 for velocity and 1.5^5 = 7.59375 for scale points |
| Formulas.VelocityFactor | game.js:169-178 | the velocity term of the multiplier is at least 1 |
| Formulas.VelocitySoftcapBoundary | game.js:169-178 | both branches give exactly 32 at level 5, and level 6 gives 48 |
| Formulas.VelocityFactorIncreasing | game.js:169-178 | the velocity term grows strictly with the level, across the softcap |
| Formulas.ScaleFactorAtLeastOne | game.js:181-190 | the scale-point term is at least 1 |
| Formulas.ScaleSoftcapBoundary | game.js:181-190 | both branches agree at 5 points; 6 points give 1.5^6 and 9 points give 1.5^7 |
| Formulas.ScaleFactorIncreasing | game.js:181-190 | the scale-point term grows strictly with the points, across the softcap |
| Formulas.MassVelocityFactor | game.js:194-196 | the mass-velocity term is 3^level, including 1 at level 0 |
| Formulas.TotalMultiplierAtLeastOne | game.js:165-199 | the distance multiplier is never below 1 |
| Formulas.TotalMultiplierAtStart | game.js:165-199 | with every level and scale point at 0 the multiplier is exactly 1 |
| Formulas.TotalMultiplierIncreasing | game.js:165-199 | raising any of the three inputs without lowering the others strictly raises the multiplier |
| Formulas.Acceleration | game.js:202-217 | acceleration is 0.25 x level up to level 10, and 0 exactly at level 0 |
| Formulas.AccelerationSoftcapBoundary | game.js:205-216 | both formulas give 2.5 at level 10, and level 11 gives 2.6 |
| Formulas.AccelerationIncreasing | game.js:202-217 | acceleration grows strictly with the level |
| Formulas.CompressionDivision | game.js:220-228 | the cost divisor is at least 1, and exactly 1 at level 0 |
| Formulas.CompressionDivisionAtSquares | game.js:223-227 | at level k*k the divisor is exactly 2^k (level 1 halves, 4 quarters, 9 divides by 8) |
| Formulas.CompressionDivisionIncreasing | game.js:220-228 | each compression level strictly raises the divisor |
| Formulas.MassMultiplier | game.js:231-240 | the mass multiplier is at least 1, and it is 3 exactly when Triple Mass is owned |
| State.InitialWellFormed | game.js:3-47 | a new game has non-negative resources, positive costs, a tick rate in range, and both gated upgrades hidden |
| Actions.PriceBounds | game.js:470-499 | the velocity and acceleration price times the compression divisor is exactly the stored cost, so the price is the cost divided by the divisor; the discount never raises a price or makes it negative; compression and mass velocity pay the undiscounted cost, and at compression level 0 every price equals its cost |
| Actions.CompressionLowersPrice | game.js:469-488 | a higher compression level strictly lowers a positive velocity or acceleration price |
| Actions.BuyEffect | game.js:470-508 | if the funds cover the price, the funds drop by exactly the price and stay non-negative, the level rises by 1, the cost is multiplied by 2.5, 3, 5 or 3, and nothing else changes; otherwise nothing changes |
| Actions.BuySucceedsIffAffordable | game.js:470-508 | a purchase changes the state if and only if the funds cover the price |
| Actions.BuyPreservesNonNegative | game.js:470-508 | purchases keep resources non-negative and costs positive |
| Actions.BuyKeepsReveals | game.js:334-371 | a purchase never lowers a level, so it never hides an acceleration or compression upgrade already on offer |
| Actions.AccelerationPurchaseIgnoresReveal | game.js:481-490 | the acceleration purchase does not check the reveal: from a new game holding 1000 m it succeeds while the upgrade is hidden |
| Actions.UnlockEffect | game.js:510-537 | a perk becomes owned if and only if it is affordable, not yet owned and its prerequisite holds; a purchase debits exactly its price, and a failed one changes nothing; buying Mass Generation also sets mass as unlocked and its rate to 1 g/s |
| Actions.UnlockFrame | game.js:510-537 | a perk changes only the scale points and its own flag, plus mass production for Mass Generation |
| Actions.UnlockAtMostOnce | game.js:510-537 | a second attempt at the same perk changes nothing |
| Actions.UnlockKeepsOwnership | game.js:510-537 | buying a perk never takes away one already owned |
| Actions.PerksNeedMassGeneration | game.js:521-536 | without Mass Generation, Triple Mass and Persistent Mass cannot be bought at any number of scale points |
| Prestige.CollapseGain | game.js:549 | from 10^9 m the gain g is at least 1, with 10^(g+8) <= distance < 10^(g+9) |
| Prestige.ThresholdLog | game.js:541 | the threshold is exactly 10^9 m and its floor log10 is 9 |
| Prestige.CollapseGainExamples | game.js:545-549 | 10^9 m gives 1 SP, 10^10 m gives 2 SP, 10^11 m gives 3 SP |
| Prestige.CollapseGainMonotone | game.js:549 | travelling further never lowers the gain |
| Prestige.CollapseGainTenfold | game.js:549 | each tenfold increase in distance adds exactly one scale point |
| Prestige.CollapseHappensIffThreshold | game.js:541-555 | a collapse changes the state if and only if the distance is at least 10^9 m, and then adds the gain, at least 1, to the scale points |
| Prestige.CollapseResetScope | game.js:557-578 | after a collapse every reset field holds its starting value and the Scale Upgrades tab is open; perks, mass production and tick rate carry over |
| Prestige.CollapseMassVelocity | game.js:572-576 | with Persistent Mass a collapse keeps the mass-velocity level and cost; without it they return to 0 and 100 |
| Prestige.CollapsePreservesNonNegative | game.js:557-578 | a collapse keeps resources non-negative and costs positive, and hides both gated upgrades again |
| Prestige.CollapseThenCollapse | game.js:540-582 | a second collapse straight after the first does nothing |
| Simulation.TickEffect | game.js:120-134 | a tick changes only distance, base velocity and mass; velocity rises by acceleration x dt; distance rises by the raised velocity x the total multiplier x dt; unlocked mass rises by the mass rate x the mass multiplier x dt, and locked mass stays put |
| Simulation.TripleMassTriplesTick | game.js:129-133 | with mass unlocked, owning Triple Mass makes a tick add exactly three times the mass it adds without it |
| Simulation.TickMonotone | game.js:120-134 | with dt >= 0 a tick never lowers distance, velocity or mass, and keeps the state non-negative |
| Simulation.TickNKeepsLevels | game.js:143-150 | any number of ticks leaves levels, costs, perks and tick rate unchanged |
| Simulation.TickNMonotone | game.js:143-150 | any number of ticks with dt >= 0 never lowers distance or mass |
| Simulation.AdvanceNeverLoses | game.js:648-656 | advancing by a non-negative time never lowers distance or mass |
| Simulation.AdvanceAdditive | game.js:648-656 | advancing by t and then u equals advancing by t + u |
| Simulation.AdvanceZero | game.js:648-656 | advancing by zero time changes nothing |
| Simulation.TickWithoutAcceleration | game.js:120-134 | at acceleration level 0 a tick is exactly an advance by dt |
| Simulation.IdleTicks | game.js:120-150 | at acceleration level 0, n ticks of dt equal one advance by n x dt, so the tick loop and the offline catch-up agree |
| Simulation.ElapsedIsProduct | game.js:146-150 | n ticks of dt, summed one at a time, total n x dt seconds |
| Simulation.IdleFromStart | game.js:120-134 | from a new game, n ticks of dt cover exactly n x dt metres |
| Simulation.ClampTickRate | game.js:99-102 | the tick rate is always a whole number in [10, 60] |
| Simulation.ClampKeepsValidRates | game.js:100 | a whole rate already in [10, 60] is kept unchanged |
| Simulation.ClampIdempotent | game.js:100 | clamping a clamped rate changes nothing |
| Simulation.ClampCases | game.js:100 | NaN and 0 give 60; a fraction is rounded down; below 10 gives 10; 61 and above give 60 |
| Simulation.ClampMonotone | game.js:100 | away from 0 a larger input never gives a smaller rate; 0.5 gives 10 but 0 gives 60 |
| Persistence.SaveLoadRoundTrip | game.js:585-665 | loading a save at the moment it was written gives back exactly the saved state |
| Persistence.OfflineCatchUp | game.js:647-661 | loading later gives the saved state with distance raised by velocity x total multiplier x elapsed, mass raised by mass rate x mass multiplier x elapsed only when unlocked, and everything else unchanged |
| Persistence.OfflineNeverLoses | game.js:647-661 | if the clock has not gone backwards, a load never loses distance or mass |
| Persistence.ClockGoingBackLosesDistance | game.js:648-651 | if the clock reads earlier than the save time, a load takes distance away |
| Persistence.MinimalSaveDefaults | game.js:619-638 | a save holding only the required fields loads with level 0, base costs 1000, 1e7 and 100, no mass, every flag off, and the current tick rate |
| Persistence.LoadTickRate | game.js:640-645 | a missing or zero stored tick rate keeps the current one, and if the current rate is in [10, 60] the loaded one is too |
| Engine.Engine.constructor | game.js:3-47 | a new engine holds the starting state at 60 ticks per second with an empty accumulator |
| Engine.Engine.ProcessTick | game.js:120-134 | the fields end as one tick of the state |
| Engine.Engine.RunFrame | game.js:143-155 | the loop runs at most 1000 ticks and leaves the state n ticks on; below the cap the accumulator keeps delta minus n ticks, which is less than one tick and, once a tick ran, not negative; the ticks that ran never take more time than the accumulator plus delta, so the cap is reached only when that time covers 1000 ticks; at the cap the accumulator is 0 |
| Engine.Engine.SetTickRate | game.js:99-102 | the tick rate becomes the clamped input, tickDt becomes 1 / rate, and nothing else changes |
| Engine.Engine.BuyVelocityUpgrade | game.js:470-479 | the fields end as the velocity purchase of the state |
| Engine.Engine.BuyAccelUpgrade | game.js:481-490 | the fields end as the acceleration purchase of the state |
| Engine.Engine.BuyCompressionUpgrade | game.js:492-499 | the fields end as the compression purchase of the state |
| Engine.Engine.BuyMassVelocityUpgrade | game.js:501-508 | the fields end as the mass-velocity purchase of the state |
| Engine.Engine.UnlockMassGeneration | game.js:510-519 | the fields end as the Mass Generation unlock of the state |
| Engine.Engine.UnlockTripleMass | game.js:521-528 | the fields end as the Triple Mass unlock of the state |
| Engine.Engine.UnlockPersistentMass | game.js:530-537 | the fields end as the Persistent Mass unlock of the state |
| Engine.Engine.UnitCollapse | game.js:540-582 | the fields end as the Unit Collapse of the state |
| Engine.Engine.ResetRun | game.js:557-576 | distance, velocity, the three distance upgrades and mass take their starting values; the mass-velocity upgrade does too unless Persistent Mass is owned; nothing else changes |
| Engine.Engine.SaveGame | game.js:585-611 | the record holds every field of the state and the save time |
| Engine.Engine.LoadGame | game.js:613-665 | with no save nothing changes; otherwise the fields end as the load of the save at that time |
| Engine.Engine.RestoreFields | game.js:619-645 | the fields end as the save's values with their defaults, plus the clamped tick rate when one is stored |
| Engine.Engine.Progress | game.js:648-656 | the fields end as the state advanced by t seconds |

## Left out

- Rendering (`updateUI` and the tab and settings functions) is not modelled. The two flags it sets, `accelUnlocked` at velocity level 5 and `compressionUnlocked` at acceleration level 5, are kept as stored fields. The conditions are the predicates `State.AccelerationRevealed` and `State.CompressionRevealed`.
- The base-2 logarithm preview of the next compression divisor is cosmetic and is not modelled.
- Browser storage, JSON, base64, export, import and hard reset are not modelled. A save is a `SaveData` value, and "no save stored" is `None`.
- The `saveGame` calls inside `setTickRate`, the perk unlocks and Unit Collapse are writes to browser storage. They are not modelled.
- `Date.now`, `requestAnimationFrame`, `setInterval`, the try/catch around a frame, the try/catch inside `loadGame` and its `console.log` and `console.error` messages are not modelled. Frame time and the current time are parameters.
- Decimal and floating-point rounding are not modelled: quantities are exact reals.
- `Decimal.pow(b, Math.sqrt(x))` is a parameter constrained only by the laws in `Numeric.Lawful`: at least 1, strictly increasing in x, and exact at perfect squares. Its other values are not computed.
- A save whose scale points are not a whole number is not modelled: scale points are a natural number, since every change in the game is by whole points.
- A save missing distance, velocity, scale points or the velocity cost is not modelled: the save record always holds those four fields.
- A stored tick rate is modelled as a number. A hand-edited non-numeric string, which `Number` turns into NaN, is not modelled for loads. `Simulation.ClampTickRate` covers NaN for the setter.
- Infinite values are not modelled.
- `formatDistance` and `formatMass` produce display strings and are not modelled.
- `currentTab` is UI state and is not modelled.
- bot.js is not part of this model.
- Simulation.IdleTicks: covers only acceleration level 0. With acceleration the velocity changes every tick, so n ticks are not one advance.
