# Bike racing game: the bookkeeping core in Dafny

This project models the bookkeeping of a 2D side-scrolling bike racing game for Android, written
in Kotlin on libGDX and Box2D. The model covers the parts that decide who pays what, what is on,
what is alive and when a race ends:

- **Coin ledger and ad-timer table** (`RewardSystem`, module `Rewards`). This is a class holding:
  - the persistent coin balance;
  - the coins of the last race;
  - a table of power-up timers granted by ads, kept beside the set of active power-up types.
- **Shop and upgrade rules** (`GameEconomy`, module `Economy`):
  - the fixed five-bike catalogue;
  - unlocking, selecting and upgrading bikes against the ledger;
  - the upgrade cost schedule with its `-1` sentinel at the maximum level;
  - the stats-plus-upgrades formula and the race-reward formula.

  The settings store is an in-memory map with one structured key per kind of string key the
  source uses.
- **Power-up effect engine and coin collection** (`PowerUpController`, module `PowerUps`):
  - at most one effect per power-up type, each with a timer;
  - the speed, magnet, shield and time-slow flags that follow the effects;
  - shield gating of collision damage;
  - one-way collection of the race's coins.
- **Bike health state machine** (`BikePhysics`, module `Physics`). It covers health and the
  destroyed flag under damage and repair. The two wheel joints keep only their motor speed and
  torque.
- **Terrain streaming** (`TerrainGenerator`, module `Terrain`):
  - the list of static bodies, as position records, and the generation cursor;
  - removal of bodies far behind the bike and generation of segments ahead of it;
  - the every-third-segment obstacle rule.
- **Race session** (`GameScreen`, module `Race`):
  - setup of one race;
  - the per-frame gate on a completed race;
  - the input keys that act on the bookkeeping;
  - the per-frame update, and race completion that fires once.

Two support modules hold what these share:
- `Kotlin` holds Kotlin's truncating `toInt` and `%`, and libGDX's `Vector2` as a value.
- `Ads` holds the `RewardType` enum and the abstract outcome of a rewarded-ad request.

Every class mirrors the source object's fields. Each method's `modifies` clause names the fields
it writes. Each method's `ensures` clause gives the new state in terms of specification functions
(`Ticked`, `Survivors`, `Sweep`, `Kept`, `Generated`, `AfterDamage`, ...). Lemmas prove what the
source promises about those functions.

Where the code differs from a naive reading, the model follows the code:
- **Duplicate runway origins.** `generateInitialTerrain` lays segments 0..50 but leaves the
  cursor at 0. The first `update` therefore lays origins 5, 10, ... again. See
  `Terrain.FirstUpdateRepeatsRunway`.
- **Double time dilation.** `updateGame` multiplies the frame time by the dilation, and
  `PowerUpController.update` multiplies it again. Power-up timers therefore run at dilation
  squared, while the race clock runs at plain dilation. See `Race.GameScreen.UpdateGame`.
- **Timed entries without a flag.** `activatePowerUp` adds a timed entry even for a type with no
  flag (double coins, instant repair). The flag invariant `FlagsAgreeWith` simply says nothing
  about such types.
- **Any attribute name.** `purchaseUpgrade` accepts any attribute string, not only the four that
  are loaded and read. The model keys levels by `(bike id, string)` and does the same.
- **Negative amounts.** `spendCoins` has no guard against a negative amount, which credits the
  balance. The model keeps the call total and states non-negativity of the balance only under
  `amount >= 0`.
- **Object identity.** A terrain body is removed by its first equal occurrence. The source's
  objects are distinct, so the model's removal can take an equal twin instead. The resulting list
  is the same in both cases (`Terrain.RemovalKeeps`).

## Model

| member | source | states |
|---|---|---|
| Kotlin.Trunc | app/src/main/java/com/bikeracing/game/GameEconomy.kt:140-141 | `Float.toInt()` rounds toward zero: the result is within one below a non-negative argument and within one above a negative one |
| Kotlin.Rem | app/src/main/java/com/bikeracing/game/TerrainGenerator.kt:60 | Kotlin's `%` by a positive divisor: Dafny's remainder for a non-negative dividend, and a value in (-b, 0] for a negative one |
| Ads.ReplyFor | app/src/main/java/com/bikeracing/game/RewardSystem.kt:61-77 | the ad requests report success exactly when the ad rewards; they report nothing when it is closed without a reward, and failure otherwise |
| Rewards.RewardSystem.constructor | app/src/main/java/com/bikeracing/game/RewardSystem.kt:8-17 | the balance is the stored one, the race coins are 0, nothing is pending and no power-up is on |
| Rewards.Ticked | app/src/main/java/com/bikeracing/game/RewardSystem.kt:82-95 | after an update the timer keys are the old keys minus the expired ones, and every remaining timer is positive |
| Rewards.TickedCountsDown | app/src/main/java/com/bikeracing/game/RewardSystem.kt:85-90 | a timer survives exactly when its value minus delta is positive, and then it is exactly delta lower |
| Rewards.RewardSystem.OnRaceComplete | app/src/main/java/com/bikeracing/game/RewardSystem.kt:18-20 | records the race's coins and changes nothing else |
| Rewards.RewardSystem.RequestDoubleCoinsReward | app/src/main/java/com/bikeracing/game/RewardSystem.kt:21-44 | a rewarded ad credits twice the race coins and sets the pending flag; a dismissed ad credits them once; a missing or failed ad changes nothing; the reply follows `ReplyFor` |
| Rewards.RewardSystem.RequestInstantRepair | app/src/main/java/com/bikeracing/game/RewardSystem.kt:45-60 | replies true exactly on a rewarded ad and false exactly on a missing or failed ad; changes no state |
| Rewards.RewardSystem.RequestPowerUp | app/src/main/java/com/bikeracing/game/RewardSystem.kt:61-77 | a rewarded ad activates the type with its duration; any other outcome leaves the table and the set unchanged; keys and set stay equal |
| Rewards.RewardSystem.ActivatePowerUp | app/src/main/java/com/bikeracing/game/RewardSystem.kt:78-81 | adds the type to the active set and overwrites its timer with the duration; keys and set stay equal |
| Rewards.RewardSystem.Update | app/src/main/java/com/bikeracing/game/RewardSystem.kt:82-95 | the table becomes `Ticked` of the old table, the active set loses exactly the `Expired` types, and keys and set stay equal |
| Rewards.RewardSystem.DeactivatePowerUp | app/src/main/java/com/bikeracing/game/RewardSystem.kt:96-100 | removes the type from both the set and the table |
| Rewards.RewardSystem.IsPowerUpActive | app/src/main/java/com/bikeracing/game/RewardSystem.kt:101 | membership in the active set, which under the invariant equals having a timer |
| Rewards.RewardSystem.GetPowerUpTimeRemaining | app/src/main/java/com/bikeracing/game/RewardSystem.kt:102 | the type's timer, or 0 for a type without one |
| Rewards.RewardSystem.AddCoins | app/src/main/java/com/bikeracing/game/RewardSystem.kt:103-105 | the balance rises by exactly the amount; nothing else changes |
| Rewards.RewardSystem.SpendCoins | app/src/main/java/com/bikeracing/game/RewardSystem.kt:106-113 | succeeds exactly when the balance covers the amount; on success it debits exactly the amount, otherwise the balance is unchanged; a non-negative balance and amount leave a non-negative balance |
| Rewards.RewardSystem.Reset | app/src/main/java/com/bikeracing/game/RewardSystem.kt:114-117 | zeroes the race coins and clears the pending flag, leaving the balance and the timers untouched |
| Physics.AfterDamage | app/src/main/java/com/bikeracing/game/BikePhysics.kt:107-114 | a destroyed bike is unchanged; otherwise health drops by the durability-softened amount, or clamps to 0 with the bike destroyed when that would reach 0 or below |
| Physics.AfterRepair | app/src/main/java/com/bikeracing/game/BikePhysics.kt:115-120 | health becomes the smaller of health plus amount and 100, so it never exceeds either; a positive result clears the destroyed flag |
| Physics.DamageStaysSound | app/src/main/java/com/bikeracing/game/BikePhysics.kt:107-114 | with a non-negative amount and durability at most 10, damage keeps health in [0, 100], destroyed exactly at 0, and never raises health |
| Physics.RepairStaysSound | app/src/main/java/com/bikeracing/game/BikePhysics.kt:115-120 | a non-negative repair keeps health in [0, 100], destroyed exactly at 0, and never lowers health |
| Physics.ReplayStaysSound | app/src/main/java/com/bikeracing/game/BikePhysics.kt:107-120 | any sequence of hits and repairs with non-negative amounts keeps health in [0, 100] and destroyed exactly at health 0 |
| Physics.HitsIgnoredWhenDestroyed | app/src/main/java/com/bikeracing/game/BikePhysics.kt:108 | a destroyed bike is left unchanged by any sequence of hits |
| Physics.BikePhysics.constructor | app/src/main/java/com/bikeracing/game/BikePhysics.kt:21-23 | a bike at health 100, not destroyed, with default stats and no joints yet |
| Physics.BikePhysics.CreateBike | app/src/main/java/com/bikeracing/game/BikePhysics.kt:24-31 | takes the stats, restores health 100 and not destroyed, stops both motors and gives both joints torque 80 times acceleration |
| Physics.BikePhysics.Accelerate | app/src/main/java/com/bikeracing/game/BikePhysics.kt:90-94 | both wheels' motor speed becomes -(50 times top speed times the multiplier) |
| Physics.BikePhysics.Brake | app/src/main/java/com/bikeracing/game/BikePhysics.kt:95-98 | both wheels' motor speed becomes 25 |
| Physics.BikePhysics.StopMotor | app/src/main/java/com/bikeracing/game/BikePhysics.kt:103-106 | both wheels' motor speed becomes 0 |
| Physics.BikePhysics.ApplyDamage | app/src/main/java/com/bikeracing/game/BikePhysics.kt:107-114 | the condition becomes `AfterDamage` of the old one with the bike's durability; soundness is kept |
| Physics.BikePhysics.Repair | app/src/main/java/com/bikeracing/game/BikePhysics.kt:115-120 | the condition becomes `AfterRepair` of the old one; soundness is kept for a non-negative amount |
| Economy.GetInteger | app/src/main/java/com/bikeracing/game/GameEconomy.kt:17 | a missing key reads as the default; a stored integer reads as itself |
| Economy.GetBoolean | app/src/main/java/com/bikeracing/game/GameEconomy.kt:57 | a missing key reads as the default; a stored boolean reads as itself |
| Economy.UpgradeCost | app/src/main/java/com/bikeracing/game/GameEconomy.kt:98-107 | levels 0..4 cost 1000, 2500, 5000, 10000, 20000; any other level costs 50000 |
| Economy.UpgradeCostIncreasing | app/src/main/java/com/bikeracing/game/GameEconomy.kt:98-107 | the schedule is positive and strictly increasing over levels 0..4 |
| Economy.NextUpgradeCost | app/src/main/java/com/bikeracing/game/GameEconomy.kt:135-138 | -1 exactly when the level is at least 5, otherwise the (positive) schedule cost |
| Economy.WithUpgrades | app/src/main/java/com/bikeracing/game/GameEconomy.kt:117-122 | each upgraded stat lies between the base stat and the base plus 0.5 for a level in [0, 5] |
| Economy.CatalogueDurabilityBounded | app/src/main/java/com/bikeracing/game/GameEconomy.kt:22-49 | every catalogue bike's upgraded durability is at most 2, within the bound under which damage keeps health sound |
| Economy.CalculateRaceReward | app/src/main/java/com/bikeracing/game/GameEconomy.kt:139-144 | for non-negative distance and bonus the reward is at least 100 per stunt, at most distance times 10 plus bonus times 50 plus 100 per stunt, and less than 2 below that |
| Economy.RaceRewardExample | app/src/main/java/com/bikeracing/game/GameEconomy.kt:139-144 | distance 10, bonus 50 and 2 stunts earn 2800 |
| Economy.RaceRewardMonotone | app/src/main/java/com/bikeracing/game/GameEconomy.kt:140 | a longer distance never earns less |
| Economy.LoadUnlocks | app/src/main/java/com/bikeracing/game/GameEconomy.kt:55-59 | the catalogue with each unlock flag read from the store, bike 0 defaulting to unlocked |
| Economy.LoadLevels | app/src/main/java/com/bikeracing/game/GameEconomy.kt:60-67 | every loaded level equals the store's value (default 0); all four levels of every bike are present and no other key is |
| Economy.GameEconomy.constructor | app/src/main/java/com/bikeracing/game/GameEconomy.kt:51-54 | the unlock flags and the levels agree with the store, and the levels are keyed only by the five bike ids and four upgrade types |
| Economy.GameEconomy.GetUpgradeLevel | app/src/main/java/com/bikeracing/game/GameEconomy.kt:108-110 | a stored key gives its stored level and an unknown key gives 0; with levels in range the result is in [0, 5] |
| Economy.GameEconomy.GetNextUpgradeCost | app/src/main/java/com/bikeracing/game/GameEconomy.kt:135-138 | -1 exactly at level 5 or more, otherwise the schedule cost of the current level |
| Economy.GameEconomy.GetCurrentBikeStats | app/src/main/java/com/bikeracing/game/GameEconomy.kt:111-123 | the selected bike's base stats plus 0.1 per level of speed, acceleration, handling and durability |
| Economy.GameEconomy.UnlockBike | app/src/main/java/com/bikeracing/game/GameEconomy.kt:68-81 | succeeds exactly for a valid, locked bike whose price the balance covers; then it debits the price, unlocks the bike and stores the flag; otherwise nothing changes |
| Economy.GameEconomy.PurchaseUpgrade | app/src/main/java/com/bikeracing/game/GameEconomy.kt:82-97 | succeeds exactly for a valid, unlocked bike below level 5 whose cost the balance covers; then it raises that level by one and debits the cost; otherwise nothing changes; levels in [0, 5] stay there |
| Economy.GameEconomy.SelectBike | app/src/main/java/com/bikeracing/game/GameEconomy.kt:125-134 | succeeds exactly for a valid, unlocked bike, which becomes current; otherwise the current bike is unchanged |
| Economy.UnlockDefaults | app/src/main/java/com/bikeracing/game/GameEconomy.kt:57 | for a bike with no stored flag, the loaded flag is true exactly for bike 0 |
| PowerUps.IndexOfKind | app/src/main/java/com/bikeracing/game/PowerUpController.kt:47 | -1 exactly when no effect has the type, otherwise the index of an effect of that type |
| PowerUps.IndexOfKindIsFirst | app/src/main/java/com/bikeracing/game/PowerUpController.kt:47 | the index found is that of the first effect of the type |
| PowerUps.IndexOfUnique | app/src/main/java/com/bikeracing/game/PowerUpController.kt:47 | with one effect per type, the lookup of an effect's type finds that very effect |
| PowerUps.TimeOfUnique | app/src/main/java/com/bikeracing/game/PowerUpController.kt:134-136 | with one effect per type, the time reported for an effect's type is that effect's time |
| PowerUps.TimeRemainingOf | app/src/main/java/com/bikeracing/game/PowerUpController.kt:134-136 | 0 for a type without an effect, otherwise the first such effect's remaining time |
| PowerUps.SurvivorsKinds | app/src/main/java/com/bikeracing/game/PowerUpController.kt:32-40 | the countdown keeps one effect per type and keeps exactly the types that did not run out |
| PowerUps.SurvivorsPositive | app/src/main/java/com/bikeracing/game/PowerUpController.kt:35-39 | every effect left by the countdown has positive remaining time and is still active |
| PowerUps.SurvivorsCountDown | app/src/main/java/com/bikeracing/game/PowerUpController.kt:35 | each surviving type's remaining time drops by exactly the step |
| PowerUps.SurvivorsKeepShape | app/src/main/java/com/bikeracing/game/PowerUpController.kt:32-40 | a list with one active effect per type keeps that shape through the countdown and loses exactly the expired types |
| PowerUps.ActivatedKeepsShape | app/src/main/java/com/bikeracing/game/PowerUpController.kt:46-70 | starting a type keeps one active effect per type, adds that type, gives it the duration and leaves every other type's remaining time alone |
| PowerUps.CollectIdempotent | app/src/main/java/com/bikeracing/game/PowerUpController.kt:105-110 | collecting a collected coin changes nothing and credits nothing |
| PowerUps.SweepConserves | app/src/main/java/com/bikeracing/game/PowerUpController.kt:120-129 | the coins newly collected are exactly those taken off the uncollected count, and no coin is un-collected |
| PowerUps.SweepIdempotent | app/src/main/java/com/bikeracing/game/PowerUpController.kt:120-129 | a second pass from the same place changes nothing and collects nothing |
| PowerUps.PowerUpController.constructor | app/src/main/java/com/bikeracing/game/PowerUpController.kt:19-29 | no effects, no coins, multiplier 1, every flag off and dilation 1, sharing the given bike and reward system |
| PowerUps.PowerUpController.DeactivatePowerUp | app/src/main/java/com/bikeracing/game/PowerUpController.kt:71-88 | only the flag of the given type goes back to its default (multiplier 1, flags false, dilation 1) |
| PowerUps.PowerUpController.CountDownEffects | app/src/main/java/com/bikeracing/game/PowerUpController.kt:32-40 | the list becomes `Survivors` of the old list, exactly the expired types leave it, and the flags follow the types left |
| PowerUps.PowerUpController.Update | app/src/main/java/com/bikeracing/game/PowerUpController.kt:30-45 | effects count down by delta times the dilation read on entry, and the reward system's timers tick by the same dilated amount |
| PowerUps.PowerUpController.ActivatePowerUp | app/src/main/java/com/bikeracing/game/PowerUpController.kt:46-70 | a present type only has its timer set to the duration (no new entry, no flag change); a new type is appended with that timer and its flag set; one effect per type is kept |
| PowerUps.PowerUpController.CollectCoin | app/src/main/java/com/bikeracing/game/PowerUpController.kt:105-110 | the coin at the index and the balance change by `Collect` |
| PowerUps.PowerUpController.HandleCollision | app/src/main/java/com/bikeracing/game/PowerUpController.kt:111-116 | with the shield up the bike is untouched; otherwise the condition becomes `AfterDamage` |
| PowerUps.PowerUpController.AddCoin | app/src/main/java/com/bikeracing/game/PowerUpController.kt:117-119 | appends the coin |
| PowerUps.PowerUpController.CheckCoinCollection | app/src/main/java/com/bikeracing/game/PowerUpController.kt:120-129 | the coins become `Sweep` of the old ones, the count returned is the number newly collected, and the balance rises by their value |
| PowerUps.PowerUpController.IsPowerUpActive | app/src/main/java/com/bikeracing/game/PowerUpController.kt:131-133 | under the invariant, true exactly when an effect of the type is present |
| PowerUps.PowerUpController.GetPowerUpTimeRemaining | app/src/main/java/com/bikeracing/game/PowerUpController.kt:134-136 | 0 without an effect of the type, otherwise that effect's remaining time |
| PowerUps.PowerUpController.Reset | app/src/main/java/com/bikeracing/game/PowerUpController.kt:137-145 | empties effects and coins and puts the multiplier, flags and dilation back to 1 / false / 1 |
| Terrain.SegmentBodies | app/src/main/java/com/bikeracing/game/TerrainGenerator.kt:37-63 | a ground body at the origin, then an obstacle half a segment further on exactly when the segment index is a multiple of 3 |
| Terrain.ObstacleEveryThird | app/src/main/java/com/bikeracing/game/TerrainGenerator.kt:60-62 | a segment at 5 n carries an obstacle exactly when n is a multiple of 3 |
| Terrain.CursorReaches | app/src/main/java/com/bikeracing/game/TerrainGenerator.kt:30-36 | after generation the cursor is at least 50 past the bike, reached in whole steps of 5 with no step more than needed |
| Terrain.GeneratedOrigins | app/src/main/java/com/bikeracing/game/TerrainGenerator.kt:33-34 | the new segment origins are the consecutive multiples of 5 after the old cursor |
| Terrain.GenerationSettles | app/src/main/java/com/bikeracing/game/TerrainGenerator.kt:31 | generating again from the reached cursor creates nothing |
| Terrain.GeneratedNotBehind | app/src/main/java/com/bikeracing/game/TerrainGenerator.kt:30-36 | every body generated lies at or past the first new origin, five past the old cursor |
| Terrain.RemovalKeeps | app/src/main/java/com/bikeracing/game/TerrainGenerator.kt:21-29 | removing each filtered body by its first occurrence leaves exactly the bodies not behind, in order |
| Terrain.KeptMembers | app/src/main/java/com/bikeracing/game/TerrainGenerator.kt:22-24 | a body survives removal exactly when it was present and lies no more than 20 behind the bike |
| Terrain.KeptAppend | app/src/main/java/com/bikeracing/game/TerrainGenerator.kt:22-24 | filtering a concatenation filters each part |
| Terrain.KeptAll | app/src/main/java/com/bikeracing/game/TerrainGenerator.kt:22-24 | a list with no body behind the bike passes the filter unchanged |
| Terrain.RunwayOrigins | app/src/main/java/com/bikeracing/game/TerrainGenerator.kt:12-16 | the runway's segment origins are 0, 5, ..., 5 (n - 1) |
| Terrain.FirstUpdateRepeatsRunway | app/src/main/java/com/bikeracing/game/TerrainGenerator.kt:31-34 | the runway already has origin 5, and the first update from cursor 0 lays origin 5 again |
| Terrain.SecondUpdateCanRemove | app/src/main/java/com/bikeracing/game/TerrainGenerator.kt:22-23 | from cursor 0 with the bike at 100, the update's own new bodies are removed by the next update |
| Terrain.UpdateTwice | app/src/main/java/com/bikeracing/game/TerrainGenerator.kt:17-20 | when the cursor was no more than 25 behind the bike, removing again at the same x keeps every body just kept or generated |
| Terrain.TerrainGenerator.constructor | app/src/main/java/com/bikeracing/game/TerrainGenerator.kt:8-11 | no bodies and the cursor at 0, with the given height profile |
| Terrain.TerrainGenerator.CreateTerrainSegment | app/src/main/java/com/bikeracing/game/TerrainGenerator.kt:37-63 | appends exactly `SegmentBodies` of the origin and height |
| Terrain.TerrainGenerator.CreateObstacle | app/src/main/java/com/bikeracing/game/TerrainGenerator.kt:64-82 | appends one obstacle at the given point |
| Terrain.TerrainGenerator.GenerateInitialTerrain | app/src/main/java/com/bikeracing/game/TerrainGenerator.kt:12-16 | appends the runway of segments 0..10 at 0, 5, ..., 50 and leaves the cursor where it was |
| Terrain.TerrainGenerator.RemoveOldSegments | app/src/main/java/com/bikeracing/game/TerrainGenerator.kt:21-29 | the list becomes `Kept`: exactly the bodies at least bike x - 20, in order |
| Terrain.TerrainGenerator.GenerateNewSegments | app/src/main/java/com/bikeracing/game/TerrainGenerator.kt:30-36 | appends `Generated` from the old cursor and advances the cursor by 5 per segment |
| Terrain.TerrainGenerator.Update | app/src/main/java/com/bikeracing/game/TerrainGenerator.kt:17-20 | removal then generation; the cursor never decreases and ends at least 50 past the bike |
| Race.RequestedDuration | app/Src/main/java/Com/bikeracing/game/GameScreen.kt:107-114 | exactly 15 for time slow, exactly 20 for shield, 30 for any other type |
| Race.TimeBonus | app/Src/main/java/Com/bikeracing/game/GameScreen.kt:148 | the larger of 0 and 300 minus the race time |
| Race.TimeBonusShrinks | app/Src/main/java/Com/bikeracing/game/GameScreen.kt:148 | a slower race never earns a larger bonus, and one at or over 300 earns none |
| Race.CoinsAt | app/Src/main/java/Com/bikeracing/game/GameScreen.kt:50-56 | one uncollected coin of value 10 per position, in order |
| Race.Granted | app/Src/main/java/Com/bikeracing/game/GameScreen.kt:91-102 | a type is granted exactly when its key was pressed and its ad rewarded; only the four keyed types can be granted |
| Race.GrantedInOrder | app/Src/main/java/Com/bikeracing/game/GameScreen.kt:91-102 | the types granted in key order hold exactly the granted types |
| Race.StartedEffectsTimes | app/Src/main/java/Com/bikeracing/game/GameScreen.kt:91-120 | starting types one after another keeps one active effect per type, adds exactly those types, gives each its requested duration and leaves the others alone |
| Race.StartedEffectsSnoc | app/Src/main/java/Com/bikeracing/game/GameScreen.kt:91-102 | one more key adds one more activation when its ad pays out, and nothing otherwise |
| Race.StartedTimersTimes | app/Src/main/java/Com/bikeracing/game/GameScreen.kt:91-120 | starting types adds exactly their timer keys, each with its requested duration, and keeps every other timer |
| Race.StartedTimersSnoc | app/Src/main/java/Com/bikeracing/game/GameScreen.kt:91-102 | one more key adds one more timer entry when its ad pays out, and nothing otherwise |
| Race.GrantsAdd | app/Src/main/java/Com/bikeracing/game/GameScreen.kt:91-102 | the frame's grants add exactly the granted types to the effect list and to the timer keys |
| Race.FullRepair | app/Src/main/java/Com/bikeracing/game/GameScreen.kt:121-127 | an instant repair always leaves health 100 and a bike not destroyed |
| Race.SpawnCoins | app/Src/main/java/Com/bikeracing/game/GameScreen.kt:50-56 | appends the coins at the given positions |
| Race.NewBike | app/Src/main/java/Com/bikeracing/game/GameScreen.kt:42-46 | a fresh bike created with the given stats, at full health |
| Race.NewPowerUps | app/Src/main/java/Com/bikeracing/game/GameScreen.kt:43 | a fresh power-up engine sharing the bike and the reward system, with the given coins |
| Race.NewTerrain | app/Src/main/java/Com/bikeracing/game/GameScreen.kt:44-47 | a fresh terrain holding exactly the runway, cursor at 0 |
| Race.GameScreen.constructor | app/Src/main/java/Com/bikeracing/game/GameScreen.kt:41-49 | the components share one bike and reward system; the bike has the selected bike's upgraded stats; the runway and 51 coins are laid; counters are 0 and the race is running |
| Race.GameScreen.RequestPowerUp | app/Src/main/java/Com/bikeracing/game/GameScreen.kt:107-120 | a rewarded ad starts the type for its requested duration: the effect list is `Activated` with that duration, the timer table maps the type to it, and the active set gains it; otherwise the effect engine, the table and the set are unchanged |
| Race.GameScreen.RequestInstantRepair | app/Src/main/java/Com/bikeracing/game/GameScreen.kt:121-127 | a rewarded ad repairs the bike by 100; otherwise the bike is unchanged |
| Race.GameScreen.HandleMotor | app/Src/main/java/Com/bikeracing/game/GameScreen.kt:72-77 | the brake wins over the throttle; the throttle uses the current boost multiplier |
| Race.GameScreen.PowerUpKey | app/Src/main/java/Com/bikeracing/game/GameScreen.kt:91-93 | a pressed key whose ad pays out starts its type as in `RequestPowerUp` (effect list, timer, active set); otherwise nothing changes |
| Race.GameScreen.HandlePowerUpKeys | app/Src/main/java/Com/bikeracing/game/GameScreen.kt:91-102 | the effect list and the timer table become the types granted in key order started one after another; the active types and the active set gain exactly the granted types |
| Race.GameScreen.PressKey | app/Src/main/java/Com/bikeracing/game/GameScreen.kt:91-102 | after each key the effect list and the timer table are still the fold of the types granted so far |
| Race.GameScreen.HandleInput | app/Src/main/java/Com/bikeracing/game/GameScreen.kt:71-106 | the brake wins over the throttle, which uses the boost on entry; a flip adds exactly one stunt; the menu flag toggles; the power-up types are granted as in `HandlePowerUpKeys` and the dilation follows time slow; the bike is repaired only if health was below 30 and the repair ad paid out |
| Race.GameScreen.CompleteRace | app/Src/main/java/Com/bikeracing/game/GameScreen.kt:145-152 | the race becomes complete; only the first call hands the reward, computed from distance, time bonus and stunts |
| Race.GameScreen.CountDown | app/Src/main/java/Com/bikeracing/game/GameScreen.kt:129-132 | the race clock gains delta times the dilation and never goes back for a non-negative delta; effects and timers count down by delta times the dilation squared |
| Race.GameScreen.CollectCoins | app/Src/main/java/Com/bikeracing/game/GameScreen.kt:135-136 | the coins within 0.5 are collected and their number is added to the race count |
| Race.GameScreen.Advance | app/Src/main/java/Com/bikeracing/game/GameScreen.kt:129-137 | the clock gains delta times the dilation; effects and timers count down by delta times the dilation squared; the distance is the bike's x; the coins within 0.5 are collected, counted and credited; the terrain is streamed and its cursor moves on by whole segments |
| Race.GameScreen.UpdateGame | app/Src/main/java/Com/bikeracing/game/GameScreen.kt:128-144 | everything `Advance` states, then the race is complete exactly if it was before, the bike is destroyed, or x is past 100; the reward is handed only on the transition; the input-side fields and the bike are untouched |
| Race.GameScreen.RunFrame | app/Src/main/java/Com/bikeracing/game/GameScreen.kt:57-70 | a running frame has the whole effect of `handleInput` followed by `updateGame`, in terms of the state before the frame: stunts, menu, motor, repair, the effects and timers started then counted down at the new dilation, the clock, distance, coins, balance, terrain and cursor, and the completion and reward |
| Race.GameScreen.Render | app/Src/main/java/Com/bikeracing/game/GameScreen.kt:57-70 | a completed race stays complete with nothing changed; a running race ends in exactly the state `RunFrame` states |

## Left out

- Box2D: `world.step`, the body, fixture and joint objects, `getPosition`, `lean`, `performFlip`, and `dispose`. The bike's position after the physics step is an input of `UpdateGame`, and the joints keep only their motor fields.
- `isBalanced`, because it works on floating-point angle remainders. It has no effect on the bookkeeping.
- `attractCoins`, the magnet's pull on coins, because it normalises vectors in floating point. `PowerUpController.Update` models the timer part and the call into the reward system.
- `spawnCoins`' use of `Math.random`: the 51 coin positions are a parameter of `GameScreen`.
- The terrain height `sin(x * 0.1) * 2` is a function value given to the terrain generator, not computed.
- `timeDilation` is applied once in `updateGame` and again in `PowerUpController.update`, and the model keeps both as written (see `Race.GameScreen.CountDown`).
- The AdMob SDK: loading, showing, threading and `AdManager` apart from `RewardType`. A rewarded-ad request is resolved at once with a given outcome (`Ads.AdOutcome`). The asynchronous callbacks are therefore modelled as if they ran before the request returns.
- `showInterstitialAd` at the end of `completeRace`, which only shows an ad.
- Rendering, the camera, the power-up menu drawing and the raw `Gdx.input` polling. The keys of a frame are the `Race.Controls` value.
- The menu, shop and launcher screens, which are UI and bootstrap.
- `Preferences` flushing and logging. The settings store is an in-memory map, and `RewardSystem.totalCoins` is a plain field.
- `Float` rounding: all quantities are exact reals. `Int` overflow: coin amounts are unbounded integers.
- The JVM's saturation of `toInt` at the integer range, because it is not reachable with the game's magnitudes.
- Hash iteration order in `RewardSystem.update`. The model's result does not depend on the order in which timers are visited.
- Rewards.RewardSystem.SpendCoins: its balance bound is stated only for a non-negative amount, because the source has no guard and a negative amount credits the balance.
- PowerUps.PowerUpController.CountDownEffects: it builds the survivor list afresh instead of removing through the iterator. The resulting list and order are the same.
- PowerUps.PowerUpController.HandleCollision: it is modelled, but nothing in the source calls it, so nothing in the race model calls it either.
- Terrain.UpdateTwice: it requires the cursor to have been at most 25 behind the bike. Otherwise the first update can lay segments already behind the bike, which the next update removes (`Terrain.SecondUpdateCanRemove`).
- The unused `maxSegments` constant of `TerrainGenerator`.
- Economy.GameEconomy.GetCurrentBikeStats: it requires the stored current bike id to be one of the five catalogue ids. The source indexes the catalogue with that id and throws on an out-of-range one, and that error path is not modelled.
- Race.GameScreen.constructor: it requires a valid stored current bike id for the same reason, since `setupGame` reads the stats through `getCurrentBikeStats`.
- Terrain body identity: bodies are values, so removing the first equal body stands for removing that object.
