/** GameScreen.kt: one race. Each frame, while the race is running, the controls are applied
    and the game advances; the race ends, once, when the bike is wrecked or passes 100 units. */
module Race {
  import opened Kotlin
  import opened Ads
  import opened Rewards
  import opened Physics
  import opened Economy
  import opened PowerUps
  import opened Terrain

  const FinishDistance: real := 100.0
  const TimeLimit: real := 300.0
  const CollectRadius: real := 0.5
  /** Instant repair is offered only below this health. */
  const RepairThreshold: real := 30.0
  const CoinCount: int := 51
  const CoinValue: int := 10

  /** The keys read in one frame: held keys first, then keys just pressed. */
  datatype Controls = Controls(
    accelerate: bool, brake: bool, leanBack: bool, leanForward: bool,
    flip: bool, togglePowerUpMenu: bool,
    speedBoost: bool, coinMagnet: bool, timeSlow: bool, shield: bool, repair: bool)

  /** How each rewarded ad requested in the frame ends. */
  datatype AdAnswers = AdAnswers(
    speedBoost: AdOutcome, coinMagnet: AdOutcome, timeSlow: AdOutcome, shield: AdOutcome, repair: AdOutcome)

  /** The duration asked for each power-up key: fifteen seconds of time slow, twenty of
      shield, thirty of anything else. */
  function RequestedDuration(kind: RewardType): (duration: real)
    ensures 15.0 <= duration <= 30.0
    ensures duration == 30.0 <==> kind != TimeSlow && kind != Shield
    ensures kind == TimeSlow ==> duration == 15.0
    ensures kind == Shield ==> duration == 20.0
  {
    match kind
    case SpeedBoost => 30.0
    case CoinMagnet => 30.0
    case TimeSlow => 15.0
    case Shield => 20.0
    case _ => 30.0
  }

  /** `(300f - raceTime).coerceAtLeast(0f)`. */
  function TimeBonus(raceTime: real): (bonus: real)
    ensures bonus >= 0.0 && bonus >= TimeLimit - raceTime
    ensures bonus == 0.0 || bonus == TimeLimit - raceTime
  {
    if TimeLimit - raceTime < 0.0 then 0.0 else TimeLimit - raceTime
  }

  /** A slower race never earns a larger time bonus, and one over the limit earns none. */
  lemma TimeBonusShrinks(earlier: real, later: real)
    requires earlier <= later
    ensures TimeBonus(later) <= TimeBonus(earlier)
    ensures later >= TimeLimit ==> TimeBonus(later) == 0.0
  {
  }

  /** The race ends on a wrecked bike or past the finish distance. */
  predicate Finished(destroyed: bool, distance: real)
  {
    destroyed || distance > FinishDistance
  }

  /** The types whose key was pressed and whose ad paid out, in a frame. */
  function Granted(controls: Controls, answers: AdAnswers): (kinds: set<RewardType>)
    ensures kinds <= {SpeedBoost, CoinMagnet, TimeSlow, Shield}
    ensures SpeedBoost in kinds <==> controls.speedBoost && answers.speedBoost == Rewarded
    ensures CoinMagnet in kinds <==> controls.coinMagnet && answers.coinMagnet == Rewarded
    ensures TimeSlow in kinds <==> controls.timeSlow && answers.timeSlow == Rewarded
    ensures Shield in kinds <==> controls.shield && answers.shield == Rewarded
  {
    (if controls.speedBoost && answers.speedBoost == Rewarded then {SpeedBoost} else {})
      + (if controls.coinMagnet && answers.coinMagnet == Rewarded then {CoinMagnet} else {})
      + (if controls.timeSlow && answers.timeSlow == Rewarded then {TimeSlow} else {})
      + (if controls.shield && answers.shield == Rewarded then {Shield} else {})
  }

  /** The type a single key grants: none unless it was pressed and its ad paid out. */
  function KeyGrant(pressed: bool, kind: RewardType, outcome: AdOutcome): seq<RewardType>
  {
    if pressed && outcome == Rewarded then [kind] else []
  }

  /** The granted types in the order `handleInput` reads their keys (1, 2, 3, 4). */
  function GrantedInOrder(controls: Controls, answers: AdAnswers): (kinds: seq<RewardType>)
    ensures forall k :: k in kinds <==> k in Granted(controls, answers)
  {
    KeyGrant(controls.speedBoost, SpeedBoost, answers.speedBoost)
      + KeyGrant(controls.coinMagnet, CoinMagnet, answers.coinMagnet)
      + KeyGrant(controls.timeSlow, TimeSlow, answers.timeSlow)
      + KeyGrant(controls.shield, Shield, answers.shield)
  }

  /** The effect list after each type of `kinds`, in turn, is started for its requested
      duration. */
  function StartedEffects(effects: seq<PowerUpEffect>, kinds: seq<RewardType>): seq<PowerUpEffect>
    decreases |kinds|
  {
    if kinds == [] then effects
    else
      var n := |kinds| - 1;
      Activated(StartedEffects(effects, kinds[..n]), kinds[n], RequestedDuration(kinds[n]))
  }

  /** Starting types one after another keeps one active effect per type, adds exactly those
      types, gives each its requested duration and leaves every other type's timer alone. */
  lemma {:induction false} StartedEffectsTimes(effects: seq<PowerUpEffect>, kinds: seq<RewardType>)
    requires OnePerKind(effects) && AllActive(effects)
    ensures OnePerKind(StartedEffects(effects, kinds)) && AllActive(StartedEffects(effects, kinds))
    ensures Kinds(StartedEffects(effects, kinds)) == Kinds(effects) + (set k | k in kinds)
    ensures forall k :: k in kinds ==> TimeRemainingOf(StartedEffects(effects, kinds), k) == RequestedDuration(k)
    ensures forall k :: k !in kinds ==> TimeRemainingOf(StartedEffects(effects, kinds), k) == TimeRemainingOf(effects, k)
    decreases |kinds|
  {
    if kinds != [] {
      var n := |kinds| - 1;
      var front := kinds[..n];
      assert kinds == front + [kinds[n]];
      StartedEffectsTimes(effects, front);
      ActivatedKeepsShape(StartedEffects(effects, front), kinds[n], RequestedDuration(kinds[n]));
      assert (set k | k in kinds) == (set k | k in front) + {kinds[n]};
    }
  }

  /** `StartedEffects` takes one more type by one more activation. */
  lemma StartedEffectsSnoc(effects: seq<PowerUpEffect>, kinds: seq<RewardType>, pressed: bool, kind: RewardType, outcome: AdOutcome)
    ensures StartedEffects(effects, kinds + KeyGrant(pressed, kind, outcome)) ==
      if pressed && outcome == Rewarded then Activated(StartedEffects(effects, kinds), kind, RequestedDuration(kind))
      else StartedEffects(effects, kinds)
  {
    if pressed && outcome == Rewarded {
      assert (kinds + [kind])[..|kinds|] == kinds;
    } else {
      assert kinds + [] == kinds;
    }
  }

  /** The reward system's timer table after each type of `kinds`, in turn, is started for
      its requested duration. */
  function StartedTimers(timers: map<RewardType, real>, kinds: seq<RewardType>): map<RewardType, real>
    decreases |kinds|
  {
    if kinds == [] then timers
    else
      var n := |kinds| - 1;
      StartedTimers(timers, kinds[..n])[kinds[n] := RequestedDuration(kinds[n])]
  }

  /** Starting the types adds exactly their keys, gives each its requested duration and
      keeps every other timer. */
  lemma {:induction false} StartedTimersTimes(timers: map<RewardType, real>, kinds: seq<RewardType>)
    ensures StartedTimers(timers, kinds).Keys == timers.Keys + (set k | k in kinds)
    ensures forall k :: k in kinds ==> StartedTimers(timers, kinds)[k] == RequestedDuration(k)
    ensures forall k :: k in timers && k !in kinds ==> StartedTimers(timers, kinds)[k] == timers[k]
    decreases |kinds|
  {
    if kinds != [] {
      var n := |kinds| - 1;
      var front := kinds[..n];
      assert kinds == front + [kinds[n]];
      StartedTimersTimes(timers, front);
      assert (set k | k in kinds) == (set k | k in front) + {kinds[n]};
    }
  }

  /** `StartedTimers` takes one more type by one more assignment. */
  lemma StartedTimersSnoc(timers: map<RewardType, real>, kinds: seq<RewardType>, pressed: bool, kind: RewardType, outcome: AdOutcome)
    ensures StartedTimers(timers, kinds + KeyGrant(pressed, kind, outcome)) ==
      if pressed && outcome == Rewarded then StartedTimers(timers, kinds)[kind := RequestedDuration(kind)]
      else StartedTimers(timers, kinds)
  {
    if pressed && outcome == Rewarded {
      assert (kinds + [kind])[..|kinds|] == kinds;
    } else {
      assert kinds + [] == kinds;
    }
  }

  /** What a frame's grants do to the effect list and the timer table, in terms of the set of
      granted types. */
  lemma GrantsAdd(effects: seq<PowerUpEffect>, timers: map<RewardType, real>, controls: Controls, answers: AdAnswers)
    requires OnePerKind(effects) && AllActive(effects)
    ensures Kinds(StartedEffects(effects, GrantedInOrder(controls, answers))) == Kinds(effects) + Granted(controls, answers)
    ensures StartedTimers(timers, GrantedInOrder(controls, answers)).Keys == timers.Keys + Granted(controls, answers)
  {
    var ks := GrantedInOrder(controls, answers);
    StartedEffectsTimes(effects, ks);
    StartedTimersTimes(timers, ks);
    assert (set k | k in ks) == Granted(controls, answers);
  }

  /** The dilation in force once a frame's input is handled: slowed exactly when time slow
      was running or has just been granted. */
  function FrameDilation(effects: seq<PowerUpEffect>, controls: Controls, answers: AdAnswers): real
  {
    Dilation(Kinds(effects) + Granted(controls, answers))
  }

  /** The step the power-up timers count down by in a frame of `delta`: the dilation is
      applied by `updateGame` and once more by the power-up engine. */
  function FrameStep(delta: real, effects: seq<PowerUpEffect>, controls: Controls, answers: AdAnswers): real
  {
    Adjusted(Adjusted(delta, FrameDilation(effects, controls, answers)), FrameDilation(effects, controls, answers))
  }

  /** The coins spawned at `positions`: uncollected, of value 10, in order. */
  function CoinsAt(positions: seq<Vec2>): (coins: seq<Coin>)
    ensures |coins| == |positions|
    ensures forall i :: 0 <= i < |positions| ==> coins[i] == Coin(positions[i], CoinValue, false)
    ensures Uncollected(coins) == |positions|
    decreases |positions|
  {
    if positions == [] then []
    else
      var n := |positions| - 1;
      assert positions[..n] + [positions[n]] == positions;
      var front := CoinsAt(positions[..n]);
      var coins := front + [Coin(positions[n], CoinValue, false)];
      assert coins[..n] == front;
      coins
  }

  /** A full repair from anything short of full health ends with a whole, running bike. */
  lemma FullRepair(c: Condition)
    requires Sound(c)
    ensures AfterRepair(c, FullHealth) == Condition(FullHealth, false)
  {
  }

  /** `spawnCoins`: one uncollected coin of value 10 per drawn position, in order. */
  method SpawnCoins(controller: PowerUpController, positions: seq<Vec2>)
    modifies controller`collectibleCoins
    ensures controller.collectibleCoins == old(controller.collectibleCoins) + CoinsAt(positions)
  {
    for i := 0 to |positions|
      invariant controller.collectibleCoins == old(controller.collectibleCoins) + CoinsAt(positions[..i])
    {
      assert positions[..i + 1][..i] == positions[..i];
      controller.AddCoin(Coin(positions[i], CoinValue, false));
    }
    assert positions[..|positions|] == positions;
  }

  /** The bike of `setupGame`: created with the given stats at the start point (2, 5). */
  method NewBike(bikeStats: BikeStats) returns (bike: BikePhysics)
    ensures fresh(bike) && bike.Valid() && bike.jointsCreated
    ensures bike.currentBikeStats == bikeStats && bike.health == FullHealth && !bike.isDestroyed
  {
    bike := new BikePhysics();
    bike.CreateBike(2.0, 5.0, bikeStats);
  }

  /** The power-up engine of `setupGame`, sharing the bike and the reward system, with the
      race's coins spawned at `positions`. */
  method NewPowerUps(bike: BikePhysics, rewards: RewardSystem, positions: seq<Vec2>) returns (controller: PowerUpController)
    ensures fresh(controller) && controller.Valid()
    ensures controller.bikePhysics == bike && controller.rewardSystem == rewards
    ensures controller.activePowerUps == [] && controller.collectibleCoins == CoinsAt(positions)
  {
    controller := new PowerUpController(bike, rewards);
    SpawnCoins(controller, positions);
    assert [] + CoinsAt(positions) == CoinsAt(positions);
  }

  /** The terrain of `setupGame`: the flat runway of segments 0 to 10. */
  method NewTerrain(height: real -> real) returns (terrain: TerrainGenerator)
    ensures fresh(terrain)
    ensures terrain.terrainSegments == Runway(RunwayLast + 1)
    ensures terrain.lastSegmentX == 0.0 && terrain.heightAt == height
  {
    terrain := new TerrainGenerator(height);
    terrain.GenerateInitialTerrain();
    assert [] + Runway(RunwayLast + 1) == Runway(RunwayLast + 1);
  }

  class GameScreen {
    const rewardSystem: RewardSystem
    const gameEconomy: GameEconomy
    const bikePhysics: BikePhysics
    const powerUpController: PowerUpController
    const terrainGenerator: TerrainGenerator
    var raceDistance: real
    var raceTime: real
    var coinsCollected: int
    var stuntsPerformed: int
    var isRaceComplete: bool
    var showPowerUpMenu: bool

    /** The components share one bike and one reward system, each keeps its own invariant,
        and the counters never go negative. */
    ghost predicate Valid()
      reads this, rewardSystem, bikePhysics, powerUpController, gameEconomy
    {
      && powerUpController.bikePhysics == bikePhysics
      && powerUpController.rewardSystem == rewardSystem
      && gameEconomy.rewardSystem == rewardSystem
      && rewardSystem.Valid()
      && bikePhysics.Valid() && bikePhysics.jointsCreated
      && powerUpController.Valid()
      && coinsCollected >= 0 && stuntsPerformed >= 0
    }

    /** `setupGame`: a fresh bike with the selected bike's stats at (2, 5), the runway, and the
        51 coins, whose random positions are given. */
    constructor (rewards: RewardSystem, economy: GameEconomy, height: real -> real, coinPositions: seq<Vec2>)
      requires rewards.Valid() && economy.Valid() && economy.rewardSystem == rewards
      requires ValidBikeId(economy.CurrentBikeId())
      requires |coinPositions| == CoinCount
      ensures Valid()
      ensures rewardSystem == rewards && gameEconomy == economy
      ensures fresh(bikePhysics) && fresh(powerUpController) && fresh(terrainGenerator)
      ensures raceDistance == 0.0 && raceTime == 0.0 && coinsCollected == 0 && stuntsPerformed == 0
      ensures !isRaceComplete && !showPowerUpMenu
      ensures bikePhysics.currentBikeStats == economy.GetCurrentBikeStats()
      ensures bikePhysics.health == FullHealth && !bikePhysics.isDestroyed
      ensures powerUpController.activePowerUps == []
      ensures powerUpController.collectibleCoins == CoinsAt(coinPositions)
      ensures terrainGenerator.terrainSegments == Runway(RunwayLast + 1)
      ensures terrainGenerator.lastSegmentX == 0.0 && terrainGenerator.heightAt == height
    {
      var bikeStats := economy.GetCurrentBikeStats();
      var bike := NewBike(bikeStats);
      var powerUps := NewPowerUps(bike, rewards, coinPositions);
      var terrain := NewTerrain(height);
      rewardSystem := rewards;
      gameEconomy := economy;
      bikePhysics := bike;
      powerUpController := powerUps;
      terrainGenerator := terrain;
      raceDistance := 0.0;
      raceTime := 0.0;
      coinsCollected := 0;
      stuntsPerformed := 0;
      isRaceComplete := false;
      showPowerUpMenu := false;
    }

    /** Asks for a power-up with its duration; a rewarded ad starts it in both the reward
        system's table and the effect engine. */
    method RequestPowerUp(kind: RewardType, outcome: AdOutcome)
      requires Valid()
      modifies rewardSystem`activePowerUps, rewardSystem`powerUpTimers,
        powerUpController`activePowerUps, powerUpController`speedBoostMultiplier, powerUpController`coinMagnetActive,
        powerUpController`shieldActive, powerUpController`timeSlowActive, powerUpController`timeDilation
      ensures Valid()
      ensures outcome == Rewarded ==>
        && powerUpController.activePowerUps == Activated(old(powerUpController.activePowerUps), kind, RequestedDuration(kind))
        && Kinds(powerUpController.activePowerUps) == Kinds(old(powerUpController.activePowerUps)) + {kind}
        && rewardSystem.powerUpTimers == old(rewardSystem.powerUpTimers)[kind := RequestedDuration(kind)]
        && rewardSystem.activePowerUps == old(rewardSystem.activePowerUps) + {kind}
      ensures outcome != Rewarded ==>
        && unchanged(powerUpController)
        && rewardSystem.powerUpTimers == old(rewardSystem.powerUpTimers)
        && rewardSystem.activePowerUps == old(rewardSystem.activePowerUps)
    {
      var duration := RequestedDuration(kind);
      var reply := rewardSystem.RequestPowerUp(kind, duration, outcome);
      if reply == Replied(true) {
        powerUpController.ActivatePowerUp(kind, duration);
      }
    }

    /** Asks for an instant repair; a rewarded ad repairs the bike by 100. */
    method RequestInstantRepair(outcome: AdOutcome)
      requires Valid()
      modifies bikePhysics`health, bikePhysics`isDestroyed
      ensures Valid()
      ensures outcome == Rewarded ==> bikePhysics.CurrentCondition() == AfterRepair(old(bikePhysics.CurrentCondition()), FullHealth)
      ensures outcome != Rewarded ==> bikePhysics.CurrentCondition() == old(bikePhysics.CurrentCondition())
    {
      var reply := rewardSystem.RequestInstantRepair(outcome);
      if reply == Replied(true) {
        bikePhysics.Repair(FullHealth);
      }
    }

    /** The held throttle and brake keys; the brake, read second, wins. */
    method HandleMotor(accelerate: bool, brake: bool)
      requires Valid()
      modifies bikePhysics`frontMotorSpeed, bikePhysics`rearMotorSpeed
      ensures Valid()
      ensures brake ==> bikePhysics.frontMotorSpeed == MaxMotorSpeed * 0.5
      ensures !brake && accelerate ==>
        bikePhysics.frontMotorSpeed == -(MaxMotorSpeed * bikePhysics.currentBikeStats.topSpeed * powerUpController.speedBoostMultiplier)
      ensures !brake && !accelerate ==> bikePhysics.frontMotorSpeed == old(bikePhysics.frontMotorSpeed)
    {
      if accelerate {
        bikePhysics.Accelerate(powerUpController.speedBoostMultiplier);
      }
      if brake {
        bikePhysics.Brake();
      }
    }

    /** One power-up key: when pressed, its ad is requested and a payout starts the power-up. */
    method PowerUpKey(pressed: bool, kind: RewardType, outcome: AdOutcome)
      requires Valid()
      modifies rewardSystem`activePowerUps, rewardSystem`powerUpTimers,
        powerUpController`activePowerUps, powerUpController`speedBoostMultiplier, powerUpController`coinMagnetActive,
        powerUpController`shieldActive, powerUpController`timeSlowActive, powerUpController`timeDilation
      ensures Valid()
      ensures pressed && outcome == Rewarded ==>
        && powerUpController.activePowerUps == Activated(old(powerUpController.activePowerUps), kind, RequestedDuration(kind))
        && rewardSystem.powerUpTimers == old(rewardSystem.powerUpTimers)[kind := RequestedDuration(kind)]
        && rewardSystem.activePowerUps == old(rewardSystem.activePowerUps) + {kind}
      ensures !(pressed && outcome == Rewarded) ==>
        && unchanged(powerUpController)
        && rewardSystem.powerUpTimers == old(rewardSystem.powerUpTimers)
        && rewardSystem.activePowerUps == old(rewardSystem.activePowerUps)
    {
      if pressed {
        RequestPowerUp(kind, outcome);
      }
    }

    /** The four power-up keys, each asking for its ad and, when it pays out, starting its
        power-up. */
    method HandlePowerUpKeys(controls: Controls, answers: AdAnswers)
      requires Valid()
      modifies rewardSystem`activePowerUps, rewardSystem`powerUpTimers,
        powerUpController`activePowerUps, powerUpController`speedBoostMultiplier, powerUpController`coinMagnetActive,
        powerUpController`shieldActive, powerUpController`timeSlowActive, powerUpController`timeDilation
      ensures Valid()
      ensures powerUpController.activePowerUps ==
        StartedEffects(old(powerUpController.activePowerUps), GrantedInOrder(controls, answers))
      ensures Kinds(powerUpController.activePowerUps) == Kinds(old(powerUpController.activePowerUps)) + Granted(controls, answers)
      ensures rewardSystem.powerUpTimers == StartedTimers(old(rewardSystem.powerUpTimers), GrantedInOrder(controls, answers))
      ensures rewardSystem.activePowerUps == old(rewardSystem.activePowerUps) + Granted(controls, answers)
    {
      ghost var effects, timers := powerUpController.activePowerUps, rewardSystem.powerUpTimers;
      PressKey(effects, timers, [], controls.speedBoost, SpeedBoost, answers.speedBoost);
      ghost var ks := KeyGrant(controls.speedBoost, SpeedBoost, answers.speedBoost);
      assert [] + ks == ks;
      PressKey(effects, timers, ks, controls.coinMagnet, CoinMagnet, answers.coinMagnet);
      ks := ks + KeyGrant(controls.coinMagnet, CoinMagnet, answers.coinMagnet);
      PressKey(effects, timers, ks, controls.timeSlow, TimeSlow, answers.timeSlow);
      ks := ks + KeyGrant(controls.timeSlow, TimeSlow, answers.timeSlow);
      PressKey(effects, timers, ks, controls.shield, Shield, answers.shield);
      ks := ks + KeyGrant(controls.shield, Shield, answers.shield);
      assert ks == GrantedInOrder(controls, answers);
      GrantsAdd(effects, timers, controls, answers);
    }

    /** One key of `HandlePowerUpKeys`, after the keys `ks` before it: the effect list and the
        timer table stay the fold of the types granted so far. */
    method PressKey(ghost effects: seq<PowerUpEffect>, ghost timers: map<RewardType, real>, ghost ks: seq<RewardType>,
                    pressed: bool, kind: RewardType, outcome: AdOutcome)
      requires Valid()
      requires powerUpController.activePowerUps == StartedEffects(effects, ks)
      requires rewardSystem.powerUpTimers == StartedTimers(timers, ks)
      modifies rewardSystem`activePowerUps, rewardSystem`powerUpTimers,
        powerUpController`activePowerUps, powerUpController`speedBoostMultiplier, powerUpController`coinMagnetActive,
        powerUpController`shieldActive, powerUpController`timeSlowActive, powerUpController`timeDilation
      ensures Valid()
      ensures powerUpController.activePowerUps == StartedEffects(effects, ks + KeyGrant(pressed, kind, outcome))
      ensures rewardSystem.powerUpTimers == StartedTimers(timers, ks + KeyGrant(pressed, kind, outcome))
    {
      PowerUpKey(pressed, kind, outcome);
      StartedEffectsSnoc(effects, ks, pressed, kind, outcome);
      StartedTimersSnoc(timers, ks, pressed, kind, outcome);
    }

    /** `handleInput`: throttle with the current boost, brake, flips counted as stunts, the
        menu toggle, the four power-up keys, and the repair key while health is below 30.
        The lean and flip torques are the engine's business. */
    method HandleInput(controls: Controls, answers: AdAnswers)
      requires Valid()
      modifies this`stuntsPerformed, this`showPowerUpMenu,
        bikePhysics`frontMotorSpeed, bikePhysics`rearMotorSpeed, bikePhysics`health, bikePhysics`isDestroyed,
        rewardSystem`activePowerUps, rewardSystem`powerUpTimers,
        powerUpController`activePowerUps, powerUpController`speedBoostMultiplier, powerUpController`coinMagnetActive,
        powerUpController`shieldActive, powerUpController`timeSlowActive, powerUpController`timeDilation
      ensures Valid()
      ensures stuntsPerformed == old(stuntsPerformed) + if controls.flip then 1 else 0
      ensures showPowerUpMenu == (old(showPowerUpMenu) != controls.togglePowerUpMenu)
      ensures controls.brake ==> bikePhysics.frontMotorSpeed == MaxMotorSpeed * 0.5
      ensures !controls.brake && controls.accelerate ==>
        bikePhysics.frontMotorSpeed == -(MaxMotorSpeed * bikePhysics.currentBikeStats.topSpeed * old(powerUpController.speedBoostMultiplier))
      ensures !controls.brake && !controls.accelerate ==> bikePhysics.frontMotorSpeed == old(bikePhysics.frontMotorSpeed)
      ensures powerUpController.activePowerUps ==
        StartedEffects(old(powerUpController.activePowerUps), GrantedInOrder(controls, answers))
      ensures Kinds(powerUpController.activePowerUps) == Kinds(old(powerUpController.activePowerUps)) + Granted(controls, answers)
      ensures powerUpController.timeDilation == FrameDilation(old(powerUpController.activePowerUps), controls, answers)
      ensures rewardSystem.powerUpTimers == StartedTimers(old(rewardSystem.powerUpTimers), GrantedInOrder(controls, answers))
      ensures rewardSystem.activePowerUps == old(rewardSystem.activePowerUps) + Granted(controls, answers)
      ensures bikePhysics.CurrentCondition() ==
        if old(bikePhysics.health) < RepairThreshold && controls.repair && answers.repair == Rewarded
        then AfterRepair(old(bikePhysics.CurrentCondition()), FullHealth)
        else old(bikePhysics.CurrentCondition())
    {
      HandleMotor(controls.accelerate, controls.brake);
      if controls.flip {
        stuntsPerformed := stuntsPerformed + 1;
      }
      if controls.togglePowerUpMenu {
        showPowerUpMenu := !showPowerUpMenu;
      }
      HandlePowerUpKeys(controls, answers);
      if bikePhysics.health < RepairThreshold && controls.repair {
        RequestInstantRepair(answers.repair);
      }
    }

    /** `completeRace`: the first call marks the race complete and hands the reward for its
        distance, time bonus and stunts to the reward system; later calls do nothing. */
    method CompleteRace()
      modifies this`isRaceComplete, rewardSystem`currentRaceCoins
      ensures isRaceComplete
      ensures old(isRaceComplete) ==> rewardSystem.currentRaceCoins == old(rewardSystem.currentRaceCoins)
      ensures !old(isRaceComplete) ==>
        rewardSystem.currentRaceCoins == CalculateRaceReward(raceDistance, TimeBonus(raceTime), stuntsPerformed)
    {
      if isRaceComplete {
        return;
      }
      isRaceComplete := true;
      var timeBonus := if TimeLimit - raceTime < 0.0 then 0.0 else TimeLimit - raceTime;
      var totalReward := CalculateRaceReward(raceDistance, timeBonus, stuntsPerformed);
      rewardSystem.OnRaceComplete(totalReward);
    }

    /** The clock part of `updateGame`: the step is dilated by the current dilation, the
        power-up engine counts down by it (dilating it once more inside), and the race clock
        gains it. */
    method CountDown(delta: real)
      requires Valid()
      modifies this`raceTime,
        powerUpController`activePowerUps, powerUpController`speedBoostMultiplier, powerUpController`coinMagnetActive,
        powerUpController`shieldActive, powerUpController`timeSlowActive, powerUpController`timeDilation,
        rewardSystem`activePowerUps, rewardSystem`powerUpTimers
      ensures Valid()
      ensures raceTime == old(raceTime) + Adjusted(delta, old(powerUpController.timeDilation))
      ensures delta >= 0.0 ==> raceTime >= old(raceTime)
      ensures powerUpController.activePowerUps == Survivors(old(powerUpController.activePowerUps),
        Adjusted(Adjusted(delta, old(powerUpController.timeDilation)), old(powerUpController.timeDilation)))
      ensures rewardSystem.powerUpTimers == Ticked(old(rewardSystem.powerUpTimers),
        Adjusted(Adjusted(delta, old(powerUpController.timeDilation)), old(powerUpController.timeDilation)))
    {
      var adjustedDelta := delta * powerUpController.timeDilation;
      powerUpController.Update(adjustedDelta);
      raceTime := raceTime + adjustedDelta;
    }

    /** The coin pass of `updateGame`: coins within 0.5 of the bike are collected, credited
        and counted for the race. */
    method CollectCoins(bikePos: Vec2)
      requires Valid()
      modifies this`coinsCollected, powerUpController`collectibleCoins, rewardSystem`totalCoins
      ensures Valid()
      ensures powerUpController.collectibleCoins == Sweep(old(powerUpController.collectibleCoins), bikePos, CollectRadius)
      ensures coinsCollected == old(coinsCollected) + Gathered(old(powerUpController.collectibleCoins), bikePos, CollectRadius)
      ensures rewardSystem.totalCoins ==
        old(rewardSystem.totalCoins) + GatheredValue(old(powerUpController.collectibleCoins), bikePos, CollectRadius)
    {
      var collected := powerUpController.CheckCoinCollection(bikePos, CollectRadius);
      coinsCollected := coinsCollected + collected;
    }

    /** The bookkeeping of `updateGame` before the end-of-race checks: power-ups count down
        by the dilated step (and dilate it a second time inside), the race clock gains the
        dilated step, the distance is the bike's x, nearby coins are collected and the terrain
        is streamed. */
    method Advance(delta: real, bikePos: Vec2)
      requires Valid()
      modifies this`raceTime, this`raceDistance, this`coinsCollected,
        powerUpController`activePowerUps, powerUpController`speedBoostMultiplier, powerUpController`coinMagnetActive,
        powerUpController`shieldActive, powerUpController`timeSlowActive, powerUpController`timeDilation,
        powerUpController`collectibleCoins,
        rewardSystem`activePowerUps, rewardSystem`powerUpTimers, rewardSystem`totalCoins,
        terrainGenerator`terrainSegments, terrainGenerator`lastSegmentX
      ensures Valid()
      ensures raceTime == old(raceTime) + Adjusted(delta, old(powerUpController.timeDilation))
      ensures delta >= 0.0 ==> raceTime >= old(raceTime)
      ensures raceDistance == bikePos.x
      ensures powerUpController.activePowerUps == Survivors(old(powerUpController.activePowerUps),
        Adjusted(Adjusted(delta, old(powerUpController.timeDilation)), old(powerUpController.timeDilation)))
      ensures powerUpController.collectibleCoins == Sweep(old(powerUpController.collectibleCoins), bikePos, CollectRadius)
      ensures coinsCollected == old(coinsCollected) + Gathered(old(powerUpController.collectibleCoins), bikePos, CollectRadius)
      ensures rewardSystem.powerUpTimers == Ticked(old(rewardSystem.powerUpTimers),
        Adjusted(Adjusted(delta, old(powerUpController.timeDilation)), old(powerUpController.timeDilation)))
      ensures rewardSystem.totalCoins ==
        old(rewardSystem.totalCoins) + GatheredValue(old(powerUpController.collectibleCoins), bikePos, CollectRadius)
      ensures terrainGenerator.terrainSegments == Kept(old(terrainGenerator.terrainSegments), bikePos.x)
        + Generated(old(terrainGenerator.lastSegmentX), bikePos.x, terrainGenerator.heightAt)
      ensures terrainGenerator.lastSegmentX ==
        old(terrainGenerator.lastSegmentX) + SegmentLength * StepCount(old(terrainGenerator.lastSegmentX), bikePos.x) as real
    {
      CountDown(delta);
      raceDistance := bikePos.x;
      CollectCoins(bikePos);
      terrainGenerator.Update(bikePos.x);
    }

    /** `updateGame`: the frame's bookkeeping, then the race ends if the bike is wrecked or
        has passed the finish distance. */
    method UpdateGame(delta: real, bikePos: Vec2)
      requires Valid()
      modifies this`raceTime, this`raceDistance, this`coinsCollected, this`isRaceComplete,
        powerUpController`activePowerUps, powerUpController`speedBoostMultiplier, powerUpController`coinMagnetActive,
        powerUpController`shieldActive, powerUpController`timeSlowActive, powerUpController`timeDilation,
        powerUpController`collectibleCoins,
        rewardSystem`activePowerUps, rewardSystem`powerUpTimers, rewardSystem`totalCoins, rewardSystem`currentRaceCoins,
        terrainGenerator`terrainSegments, terrainGenerator`lastSegmentX
      ensures Valid()
      ensures raceTime == old(raceTime) + Adjusted(delta, old(powerUpController.timeDilation))
      ensures delta >= 0.0 ==> raceTime >= old(raceTime)
      ensures raceDistance == bikePos.x
      ensures powerUpController.activePowerUps == Survivors(old(powerUpController.activePowerUps),
        Adjusted(Adjusted(delta, old(powerUpController.timeDilation)), old(powerUpController.timeDilation)))
      ensures rewardSystem.powerUpTimers == Ticked(old(rewardSystem.powerUpTimers),
        Adjusted(Adjusted(delta, old(powerUpController.timeDilation)), old(powerUpController.timeDilation)))
      ensures powerUpController.collectibleCoins == Sweep(old(powerUpController.collectibleCoins), bikePos, CollectRadius)
      ensures coinsCollected == old(coinsCollected) + Gathered(old(powerUpController.collectibleCoins), bikePos, CollectRadius)
      ensures rewardSystem.totalCoins ==
        old(rewardSystem.totalCoins) + GatheredValue(old(powerUpController.collectibleCoins), bikePos, CollectRadius)
      ensures terrainGenerator.terrainSegments == Kept(old(terrainGenerator.terrainSegments), bikePos.x)
        + Generated(old(terrainGenerator.lastSegmentX), bikePos.x, terrainGenerator.heightAt)
      ensures terrainGenerator.lastSegmentX ==
        old(terrainGenerator.lastSegmentX) + SegmentLength * StepCount(old(terrainGenerator.lastSegmentX), bikePos.x) as real
      ensures isRaceComplete == (old(isRaceComplete) || Finished(bikePhysics.isDestroyed, bikePos.x))
      ensures !old(isRaceComplete) && isRaceComplete ==>
        rewardSystem.currentRaceCoins == CalculateRaceReward(bikePos.x, TimeBonus(raceTime), stuntsPerformed)
      ensures old(isRaceComplete) || !isRaceComplete ==>
        rewardSystem.currentRaceCoins == old(rewardSystem.currentRaceCoins)
      ensures stuntsPerformed == old(stuntsPerformed) && showPowerUpMenu == old(showPowerUpMenu)
      ensures unchanged(bikePhysics)
    {
      Advance(delta, bikePos);
      if bikePhysics.isDestroyed {
        CompleteRace();
      }
      if raceDistance > FinishDistance {
        CompleteRace();
      }
    }

    /** A frame of a race still running: `handleInput`, then `updateGame`. */
    method RunFrame(delta: real, controls: Controls, answers: AdAnswers, bikePos: Vec2)
      requires Valid() && !isRaceComplete
      modifies this, bikePhysics`frontMotorSpeed, bikePhysics`rearMotorSpeed, bikePhysics`health,
        bikePhysics`isDestroyed, rewardSystem`activePowerUps, rewardSystem`powerUpTimers, rewardSystem`totalCoins,
        rewardSystem`currentRaceCoins, powerUpController, terrainGenerator`terrainSegments, terrainGenerator`lastSegmentX
      ensures Valid()
      ensures stuntsPerformed == old(stuntsPerformed) + (if controls.flip then 1 else 0)
      ensures showPowerUpMenu == (old(showPowerUpMenu) != controls.togglePowerUpMenu)
      ensures controls.brake ==> bikePhysics.frontMotorSpeed == MaxMotorSpeed * 0.5
      ensures !controls.brake && controls.accelerate ==>
        bikePhysics.frontMotorSpeed == -(MaxMotorSpeed * bikePhysics.currentBikeStats.topSpeed * old(powerUpController.speedBoostMultiplier))
      ensures !controls.brake && !controls.accelerate ==> bikePhysics.frontMotorSpeed == old(bikePhysics.frontMotorSpeed)
      ensures bikePhysics.CurrentCondition() ==
        if old(bikePhysics.health) < RepairThreshold && controls.repair && answers.repair == Rewarded
        then AfterRepair(old(bikePhysics.CurrentCondition()), FullHealth)
        else old(bikePhysics.CurrentCondition())
      ensures raceTime == old(raceTime) + Adjusted(delta, FrameDilation(old(powerUpController.activePowerUps), controls, answers))
      ensures powerUpController.activePowerUps ==
        Survivors(StartedEffects(old(powerUpController.activePowerUps), GrantedInOrder(controls, answers)),
          FrameStep(delta, old(powerUpController.activePowerUps), controls, answers))
      ensures rewardSystem.powerUpTimers ==
        Ticked(StartedTimers(old(rewardSystem.powerUpTimers), GrantedInOrder(controls, answers)),
          FrameStep(delta, old(powerUpController.activePowerUps), controls, answers))
      ensures raceDistance == bikePos.x
      ensures powerUpController.collectibleCoins == Sweep(old(powerUpController.collectibleCoins), bikePos, CollectRadius)
      ensures coinsCollected == old(coinsCollected) + Gathered(old(powerUpController.collectibleCoins), bikePos, CollectRadius)
      ensures rewardSystem.totalCoins ==
        old(rewardSystem.totalCoins) + GatheredValue(old(powerUpController.collectibleCoins), bikePos, CollectRadius)
      ensures terrainGenerator.terrainSegments == Kept(old(terrainGenerator.terrainSegments), bikePos.x)
        + Generated(old(terrainGenerator.lastSegmentX), bikePos.x, terrainGenerator.heightAt)
      ensures terrainGenerator.lastSegmentX ==
        old(terrainGenerator.lastSegmentX) + SegmentLength * StepCount(old(terrainGenerator.lastSegmentX), bikePos.x) as real
      ensures isRaceComplete == Finished(bikePhysics.isDestroyed, bikePos.x)
      ensures isRaceComplete ==>
        rewardSystem.currentRaceCoins == CalculateRaceReward(bikePos.x, TimeBonus(raceTime), stuntsPerformed)
      ensures !isRaceComplete ==> rewardSystem.currentRaceCoins == old(rewardSystem.currentRaceCoins)
    {
      ghost var effects := powerUpController.activePowerUps;
      HandleInput(controls, answers);
      assert raceTime == old(raceTime) && coinsCollected == old(coinsCollected);
      assert powerUpController.collectibleCoins == old(powerUpController.collectibleCoins);
      assert rewardSystem.totalCoins == old(rewardSystem.totalCoins);
      assert rewardSystem.currentRaceCoins == old(rewardSystem.currentRaceCoins);
      assert unchanged(terrainGenerator);
      assert Adjusted(Adjusted(delta, powerUpController.timeDilation), powerUpController.timeDilation)
        == FrameStep(delta, effects, controls, answers);
      UpdateGame(delta, bikePos);
    }

    /** `render`: the frame's input and update run only while the race is not complete; a
        complete race is frozen. Camera and drawing are not modelled. */
    method Render(delta: real, controls: Controls, answers: AdAnswers, bikePos: Vec2)
      requires Valid()
      modifies this, bikePhysics`frontMotorSpeed, bikePhysics`rearMotorSpeed, bikePhysics`health,
        bikePhysics`isDestroyed, rewardSystem`activePowerUps, rewardSystem`powerUpTimers, rewardSystem`totalCoins,
        rewardSystem`currentRaceCoins, powerUpController, terrainGenerator`terrainSegments, terrainGenerator`lastSegmentX
      ensures Valid()
      ensures old(isRaceComplete) ==> isRaceComplete
      ensures old(isRaceComplete) ==>
        && unchanged(this) && unchanged(bikePhysics) && unchanged(rewardSystem)
        && unchanged(powerUpController) && unchanged(terrainGenerator)
      ensures !old(isRaceComplete) ==>
        && stuntsPerformed == old(stuntsPerformed) + (if controls.flip then 1 else 0)
        && showPowerUpMenu == (old(showPowerUpMenu) != controls.togglePowerUpMenu)
        && (controls.brake ==> bikePhysics.frontMotorSpeed == MaxMotorSpeed * 0.5)
        && (!controls.brake && controls.accelerate ==>
              bikePhysics.frontMotorSpeed ==
                -(MaxMotorSpeed * bikePhysics.currentBikeStats.topSpeed * old(powerUpController.speedBoostMultiplier)))
        && (!controls.brake && !controls.accelerate ==> bikePhysics.frontMotorSpeed == old(bikePhysics.frontMotorSpeed))
        && bikePhysics.CurrentCondition() ==
             (if old(bikePhysics.health) < RepairThreshold && controls.repair && answers.repair == Rewarded
              then AfterRepair(old(bikePhysics.CurrentCondition()), FullHealth)
              else old(bikePhysics.CurrentCondition()))
      ensures !old(isRaceComplete) ==>
        && raceTime == old(raceTime) + Adjusted(delta, FrameDilation(old(powerUpController.activePowerUps), controls, answers))
        && powerUpController.activePowerUps ==
             Survivors(StartedEffects(old(powerUpController.activePowerUps), GrantedInOrder(controls, answers)),
               FrameStep(delta, old(powerUpController.activePowerUps), controls, answers))
        && rewardSystem.powerUpTimers ==
             Ticked(StartedTimers(old(rewardSystem.powerUpTimers), GrantedInOrder(controls, answers)),
               FrameStep(delta, old(powerUpController.activePowerUps), controls, answers))
      ensures !old(isRaceComplete) ==>
        && raceDistance == bikePos.x
        && powerUpController.collectibleCoins == Sweep(old(powerUpController.collectibleCoins), bikePos, CollectRadius)
        && coinsCollected == old(coinsCollected) + Gathered(old(powerUpController.collectibleCoins), bikePos, CollectRadius)
        && rewardSystem.totalCoins ==
             old(rewardSystem.totalCoins) + GatheredValue(old(powerUpController.collectibleCoins), bikePos, CollectRadius)
        && terrainGenerator.terrainSegments == Kept(old(terrainGenerator.terrainSegments), bikePos.x)
             + Generated(old(terrainGenerator.lastSegmentX), bikePos.x, terrainGenerator.heightAt)
        && terrainGenerator.lastSegmentX ==
             old(terrainGenerator.lastSegmentX) + SegmentLength * StepCount(old(terrainGenerator.lastSegmentX), bikePos.x) as real
      ensures !old(isRaceComplete) ==>
        && isRaceComplete == Finished(bikePhysics.isDestroyed, bikePos.x)
        && (isRaceComplete ==>
              rewardSystem.currentRaceCoins == CalculateRaceReward(bikePos.x, TimeBonus(raceTime), stuntsPerformed))
        && (!isRaceComplete ==> rewardSystem.currentRaceCoins == old(rewardSystem.currentRaceCoins))
    {
      if !isRaceComplete {
        RunFrame(delta, controls, answers, bikePos);
      }
    }
  }
}
