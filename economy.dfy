/** GameEconomy.kt: the five-bike catalogue, unlocking, selecting, the upgrade levels per
    (bike, attribute) with their cost schedule, and the race-reward formula. The settings
    store is an in-memory map from keys to values that every successful change writes to. */
module Economy {
  import opened Kotlin
  import opened Physics
  import opened Rewards

  datatype BikeData = BikeData(id: int, name: string, price: int, stats: BikeStats, isUnlocked: bool)

  /** The fixed bike table as declared; only the starter bike is unlocked before loading. */
  const Catalogue: seq<BikeData> := [
    BikeData(0, "Starter", 0, BikeStats(1.0, 1.0, 1.0, 1.0), true),
    BikeData(1, "Racer", 5000, BikeStats(1.2, 1.1, 1.15, 1.05), false),
    BikeData(2, "Pro", 15000, BikeStats(1.4, 1.3, 1.25, 1.15), false),
    BikeData(3, "Champion", 35000, BikeStats(1.6, 1.5, 1.4, 1.25), false),
    BikeData(4, "Legend", 75000, BikeStats(2.0, 1.8, 1.6, 1.5), false)
  ]

  /** The attribute names the game loads and reads; `purchaseUpgrade` accepts any other name too. */
  const UpgradeTypes: seq<string> := ["speed", "acceleration", "handling", "durability"]

  const MaxUpgradeLevel := 5

  /** `bikes.getOrNull(bikeId) != null`. */
  predicate ValidBikeId(bikeId: int)
  {
    0 <= bikeId < |Catalogue|
  }

  // ---------------------------------------------------------------- settings store keys

  /** A value in the settings store. */
  datatype Pref = IntPref(i: int) | BoolPref(b: bool)

  /** The store keys this class uses: `"currentBike"`, `"bike_${id}_unlocked"` and
      `"${bikeId}_$upgradeType"`. The decimal id contains no `_`, so each string key
      determines its parts and a structured key loses nothing. */
  datatype PrefKey = CurrentBikeKey | UnlockKey(bikeId: int) | LevelKey(bikeId: int, upgradeType: string)

  /** `prefs.getInteger(key, default)`; a key holding a boolean reads as missing. */
  function GetInteger(prefs: map<PrefKey, Pref>, key: PrefKey, default: int): (v: int)
    ensures key !in prefs ==> v == default
    ensures key in prefs && prefs[key].IntPref? ==> v == prefs[key].i
  {
    if key in prefs && prefs[key].IntPref? then prefs[key].i else default
  }

  /** `prefs.getBoolean(key, default)`; a key holding an integer reads as missing. */
  function GetBoolean(prefs: map<PrefKey, Pref>, key: PrefKey, default: bool): (v: bool)
    ensures key !in prefs ==> v == default
    ensures key in prefs && prefs[key].BoolPref? ==> v == prefs[key].b
  {
    if key in prefs && prefs[key].BoolPref? then prefs[key].b else default
  }

  // ---------------------------------------------------------------- pure rules

  /** The price of going from `currentLevel` to the next level. */
  function UpgradeCost(currentLevel: int): (cost: int)
    ensures 0 <= currentLevel < MaxUpgradeLevel ==> cost == [1000, 2500, 5000, 10000, 20000][currentLevel]
    ensures !(0 <= currentLevel < MaxUpgradeLevel) ==> cost == 50000
  {
    match currentLevel
    case 0 => 1000
    case 1 => 2500
    case 2 => 5000
    case 3 => 10000
    case 4 => 20000
    case _ => 50000
  }

  /** Each level of the schedule costs strictly more than the one before. */
  lemma UpgradeCostIncreasing(lo: int, hi: int)
    requires 0 <= lo < hi < MaxUpgradeLevel
    ensures 0 < UpgradeCost(lo) < UpgradeCost(hi)
  {
  }

  /** `getNextUpgradeCost` for a given level: the sentinel -1 once the level is at the cap. */
  function NextUpgradeCost(currentLevel: int): (cost: int)
    ensures cost == -1 <==> currentLevel >= MaxUpgradeLevel
    ensures currentLevel < MaxUpgradeLevel ==> cost == UpgradeCost(currentLevel) && cost > 0
  {
    if currentLevel >= MaxUpgradeLevel then -1 else UpgradeCost(currentLevel)
  }

  /** Base stats plus a tenth per level, with the "speed" level feeding `topSpeed`. */
  function WithUpgrades(base: BikeStats, speed: int, acceleration: int, handling: int, durability: int): (r: BikeStats)
    ensures 0 <= speed <= MaxUpgradeLevel ==> base.topSpeed <= r.topSpeed <= base.topSpeed + 0.5
    ensures 0 <= acceleration <= MaxUpgradeLevel ==> base.acceleration <= r.acceleration <= base.acceleration + 0.5
    ensures 0 <= handling <= MaxUpgradeLevel ==> base.handling <= r.handling <= base.handling + 0.5
    ensures 0 <= durability <= MaxUpgradeLevel ==> base.durability <= r.durability <= base.durability + 0.5
  {
    BikeStats(
      base.topSpeed + speed as real * 0.1,
      base.acceleration + acceleration as real * 0.1,
      base.handling + handling as real * 0.1,
      base.durability + durability as real * 0.1)
  }

  /** With every level within [0, 5], the upgraded durability of any catalogue bike stays far
      below 10, the bound under which damage can never raise health. */
  lemma CatalogueDurabilityBounded(bikeId: int, speed: int, acceleration: int, handling: int, durability: int)
    requires ValidBikeId(bikeId) && 0 <= durability <= MaxUpgradeLevel
    ensures WithUpgrades(Catalogue[bikeId].stats, speed, acceleration, handling, durability).durability <= 2.0
  {
  }

  /** `calculateRaceReward`: ten coins per distance unit and fifty per second of time bonus,
      each truncated toward zero, plus a hundred per stunt. */
  function CalculateRaceReward(distance: real, timeBonus: real, stuntsPerformed: int): (reward: int)
    ensures distance >= 0.0 && timeBonus >= 0.0 ==>
      reward >= 100 * stuntsPerformed &&
      reward as real <= distance * 10.0 + timeBonus * 50.0 + 100.0 * stuntsPerformed as real &&
      reward as real > distance * 10.0 + timeBonus * 50.0 + 100.0 * stuntsPerformed as real - 2.0
  {
    var baseReward := Trunc(distance * 10.0);
    var timeReward := Trunc(timeBonus * 50.0);
    var stuntReward := stuntsPerformed * 100;
    baseReward + timeReward + stuntReward
  }

  lemma RaceRewardExample()
    ensures CalculateRaceReward(10.0, 50.0, 2) == 2800
  {
    assert Trunc(100.0) == 100;
    assert Trunc(2500.0) == 2500;
  }

  /** A reward never shrinks when the race went further (other things equal). */
  lemma RaceRewardMonotone(d1: real, d2: real, timeBonus: real, stunts: int)
    requires d1 <= d2
    ensures CalculateRaceReward(d1, timeBonus, stunts) <= CalculateRaceReward(d2, timeBonus, stunts)
  {
    var a, b := Trunc(d1 * 10.0), Trunc(d2 * 10.0);
    assert d1 * 10.0 <= d2 * 10.0;
  }

  ghost predicate LevelsInRange(levels: map<(int, string), int>)
  {
    forall k :: k in levels ==> 0 <= levels[k] <= MaxUpgradeLevel
  }

  // ---------------------------------------------------------------- the ledger object

  /** The unlock pass of `init`: the catalogue with each bike's flag read from the store,
      bike 0 defaulting to unlocked and every other bike to locked. */
  method LoadUnlocks(stored: map<PrefKey, Pref>) returns (loaded: seq<BikeData>)
    ensures |loaded| == |Catalogue|
    ensures forall j :: 0 <= j < |loaded| ==>
      loaded[j] == Catalogue[j].(isUnlocked := GetBoolean(stored, UnlockKey(j), j == 0))
  {
    loaded := [];
    var i := 0;
    while i < |Catalogue|
      invariant 0 <= i <= |Catalogue| && |loaded| == i
      invariant forall j :: 0 <= j < i ==>
        loaded[j] == Catalogue[j].(isUnlocked := GetBoolean(stored, UnlockKey(j), j == 0))
    {
      var bike := Catalogue[i];
      loaded := loaded + [bike.(isUnlocked := GetBoolean(stored, UnlockKey(bike.id), bike.id == 0))];
      i := i + 1;
    }
  }

  /** The level pass of `init`: the four levels of every catalogue bike, read from the store
      with default 0. */
  method LoadLevels(stored: map<PrefKey, Pref>) returns (levels: map<(int, string), int>)
    ensures forall k :: k in levels ==> levels[k] == GetInteger(stored, LevelKey(k.0, k.1), 0)
    ensures forall j, t :: ValidBikeId(j) && 0 <= t < |UpgradeTypes| ==> (j, UpgradeTypes[t]) in levels
    ensures forall k :: k in levels ==> ValidBikeId(k.0) && k.1 in UpgradeTypes
  {
    levels := map[];
    var i := 0;
    while i < |Catalogue|
      invariant 0 <= i <= |Catalogue|
      invariant forall k :: k in levels ==> levels[k] == GetInteger(stored, LevelKey(k.0, k.1), 0)
      invariant forall j, t :: 0 <= j < i && 0 <= t < |UpgradeTypes| ==> (j, UpgradeTypes[t]) in levels
      invariant forall k :: k in levels ==> 0 <= k.0 < i && k.1 in UpgradeTypes
    {
      var id := Catalogue[i].id;
      levels := levels[(id, "speed") := GetInteger(stored, LevelKey(id, "speed"), 0)];
      levels := levels[(id, "acceleration") := GetInteger(stored, LevelKey(id, "acceleration"), 0)];
      levels := levels[(id, "handling") := GetInteger(stored, LevelKey(id, "handling"), 0)];
      levels := levels[(id, "durability") := GetInteger(stored, LevelKey(id, "durability"), 0)];
      i := i + 1;
    }
  }

  class GameEconomy {
    const rewardSystem: RewardSystem
    /** The settings store's entries for the keys this class owns. */
    var prefs: map<PrefKey, Pref>
    var bikes: seq<BikeData>
    /** Level per (bike id, attribute name); the source keys it by `"${bikeId}_$upgradeType"`. */
    var upgradeLevels: map<(int, string), int>

    /** `currentBikeId` lives in the store, default 0. */
    function CurrentBikeId(): int
      reads this
    {
      GetInteger(prefs, CurrentBikeKey, 0)
    }

    /** The table only ever changes in its unlock flags, and every unlock flag and every
        level in memory agrees with the store. */
    ghost predicate Valid()
      reads this
    {
      && |bikes| == |Catalogue|
      && (forall i :: 0 <= i < |bikes| ==> bikes[i] == Catalogue[i].(isUnlocked := bikes[i].isUnlocked))
      && (forall i :: 0 <= i < |bikes| ==> bikes[i].isUnlocked == GetBoolean(prefs, UnlockKey(i), i == 0))
      && (forall k :: k in upgradeLevels ==> upgradeLevels[k] == GetInteger(prefs, LevelKey(k.0, k.1), 0))
    }

    /** `init`: loads every unlock flag (bike 0 defaulting to unlocked) and the four levels
        of every bike (defaulting to 0) from the store. */
    constructor (rewards: RewardSystem, stored: map<PrefKey, Pref>)
      ensures Valid()
      ensures rewardSystem == rewards && prefs == stored
      ensures forall i :: 0 <= i < |bikes| ==> bikes[i].isUnlocked == GetBoolean(stored, UnlockKey(i), i == 0)
      ensures forall i, t :: ValidBikeId(i) && 0 <= t < |UpgradeTypes| ==>
        (i, UpgradeTypes[t]) in upgradeLevels &&
        upgradeLevels[(i, UpgradeTypes[t])] == GetInteger(stored, LevelKey(i, UpgradeTypes[t]), 0)
      ensures forall k :: k in upgradeLevels ==> ValidBikeId(k.0) && k.1 in UpgradeTypes
    {
      var loaded := LoadUnlocks(stored);
      var levels := LoadLevels(stored);
      rewardSystem := rewards;
      prefs := stored;
      bikes := loaded;
      upgradeLevels := levels;
    }

    /** `getUpgradeLevel`: the stored level of the key; an unknown key counts as level 0. */
    function GetUpgradeLevel(bikeId: int, upgradeType: string): (level: int)
      reads this
      ensures (bikeId, upgradeType) in upgradeLevels ==> level == upgradeLevels[(bikeId, upgradeType)]
      ensures (bikeId, upgradeType) !in upgradeLevels ==> level == 0
      ensures LevelsInRange(upgradeLevels) ==> 0 <= level <= MaxUpgradeLevel
    {
      var key := (bikeId, upgradeType);
      if key in upgradeLevels then upgradeLevels[key] else 0
    }

    function GetNextUpgradeCost(bikeId: int, upgradeType: string): (cost: int)
      reads this
      ensures cost == -1 <==> GetUpgradeLevel(bikeId, upgradeType) >= MaxUpgradeLevel
      ensures cost != -1 ==> cost == UpgradeCost(GetUpgradeLevel(bikeId, upgradeType))
    {
      NextUpgradeCost(GetUpgradeLevel(bikeId, upgradeType))
    }

    /** The selected bike's stats with its upgrades, recomputed on every call. The source
        indexes the table with the stored id, so a bad stored id is the caller's problem. */
    function GetCurrentBikeStats(): (r: BikeStats)
      reads this
      requires Valid() && ValidBikeId(CurrentBikeId())
      ensures var base := Catalogue[CurrentBikeId()].stats;
        && r.topSpeed == base.topSpeed + 0.1 * GetUpgradeLevel(CurrentBikeId(), "speed") as real
        && r.acceleration == base.acceleration + 0.1 * GetUpgradeLevel(CurrentBikeId(), "acceleration") as real
        && r.handling == base.handling + 0.1 * GetUpgradeLevel(CurrentBikeId(), "handling") as real
        && r.durability == base.durability + 0.1 * GetUpgradeLevel(CurrentBikeId(), "durability") as real
    {
      var id := CurrentBikeId();
      WithUpgrades(bikes[id].stats,
        GetUpgradeLevel(id, "speed"), GetUpgradeLevel(id, "acceleration"),
        GetUpgradeLevel(id, "handling"), GetUpgradeLevel(id, "durability"))
    }

    /** Buys a locked catalogue bike if the balance covers its price. */
    method UnlockBike(bikeId: int) returns (unlocked: bool)
      requires Valid()
      modifies this, rewardSystem`totalCoins
      ensures Valid() && upgradeLevels == old(upgradeLevels)
      ensures unlocked <==> ValidBikeId(bikeId) && !old(bikes[bikeId].isUnlocked)
                            && old(rewardSystem.totalCoins) >= Catalogue[bikeId].price
      ensures unlocked ==>
        && bikes == old(bikes)[bikeId := old(bikes[bikeId]).(isUnlocked := true)]
        && prefs == old(prefs)[UnlockKey(bikeId) := BoolPref(true)]
        && rewardSystem.totalCoins == old(rewardSystem.totalCoins) - Catalogue[bikeId].price
      ensures !unlocked ==>
        bikes == old(bikes) && prefs == old(prefs) && rewardSystem.totalCoins == old(rewardSystem.totalCoins)
    {
      if !(0 <= bikeId < |bikes|) {
        return false;
      }
      var bike := bikes[bikeId];
      if bike.isUnlocked {
        return false;
      }
      var spent := rewardSystem.SpendCoins(bike.price);
      if spent {
        bikes := bikes[bikeId := bike.(isUnlocked := true)];
        prefs := prefs[UnlockKey(bike.id) := BoolPref(true)];
        unlocked := true;
      } else {
        unlocked := false;
      }
    }

    /** Buys one level of `upgradeType` (any name) for an unlocked bike below the cap. */
    method PurchaseUpgrade(bikeId: int, upgradeType: string) returns (upgraded: bool)
      requires Valid()
      modifies this, rewardSystem`totalCoins
      ensures Valid() && bikes == old(bikes)
      ensures upgraded <==> ValidBikeId(bikeId) && old(bikes[bikeId].isUnlocked)
                            && old(GetUpgradeLevel(bikeId, upgradeType)) < MaxUpgradeLevel
                            && old(rewardSystem.totalCoins) >= UpgradeCost(old(GetUpgradeLevel(bikeId, upgradeType)))
      ensures upgraded ==>
        && upgradeLevels == old(upgradeLevels)[(bikeId, upgradeType) := old(GetUpgradeLevel(bikeId, upgradeType)) + 1]
        && prefs == old(prefs)[LevelKey(bikeId, upgradeType) := IntPref(old(GetUpgradeLevel(bikeId, upgradeType)) + 1)]
        && rewardSystem.totalCoins == old(rewardSystem.totalCoins) - UpgradeCost(old(GetUpgradeLevel(bikeId, upgradeType)))
      ensures !upgraded ==>
        upgradeLevels == old(upgradeLevels) && prefs == old(prefs) && rewardSystem.totalCoins == old(rewardSystem.totalCoins)
      ensures LevelsInRange(old(upgradeLevels)) ==> LevelsInRange(upgradeLevels)
    {
      if !(0 <= bikeId < |bikes|) {
        return false;
      }
      var bike := bikes[bikeId];
      if !bike.isUnlocked {
        return false;
      }
      var currentLevel := GetUpgradeLevel(bikeId, upgradeType);
      if currentLevel >= MaxUpgradeLevel {
        return false;
      }
      var cost := UpgradeCost(currentLevel);
      var spent := rewardSystem.SpendCoins(cost);
      if spent {
        upgradeLevels := upgradeLevels[(bikeId, upgradeType) := currentLevel + 1];
        prefs := prefs[LevelKey(bikeId, upgradeType) := IntPref(currentLevel + 1)];
        upgraded := true;
      } else {
        upgraded := false;
      }
    }

    /** Makes an unlocked catalogue bike the current one. */
    method SelectBike(bikeId: int) returns (selected: bool)
      requires Valid()
      modifies this`prefs
      ensures Valid()
      ensures selected <==> ValidBikeId(bikeId) && bikes[bikeId].isUnlocked
      ensures CurrentBikeId() == if selected then bikeId else old(CurrentBikeId())
      ensures selected ==> prefs == old(prefs)[CurrentBikeKey := IntPref(bikeId)]
      ensures !selected ==> prefs == old(prefs)
    {
      if !(0 <= bikeId < |bikes|) {
        return false;
      }
      if bikes[bikeId].isUnlocked {
        prefs := prefs[CurrentBikeKey := IntPref(bikeId)];
        selected := true;
      } else {
        selected := false;
      }
    }
  }

  /** Bike 0 is unlocked unless the store says otherwise; every other bike starts locked. */
  lemma UnlockDefaults(stored: map<PrefKey, Pref>, bikeId: int)
    requires ValidBikeId(bikeId) && UnlockKey(bikeId) !in stored
    ensures GetBoolean(stored, UnlockKey(bikeId), bikeId == 0) <==> bikeId == 0
  {
  }
}
