/** PowerUpController.kt: the list of timed power-up effects (one per type) with the flags they
    switch on, the coins lying on the track, and the shield's gate in front of bike damage. */
module PowerUps {
  import opened Kotlin
  import opened Ads
  import opened Physics
  import opened Rewards

  datatype PowerUpEffect = PowerUpEffect(kind: RewardType, duration: real, timeRemaining: real, isActive: bool)

  datatype Coin = Coin(position: Vec2, value: int, collected: bool)

  const NormalSpeed: real := 1.0
  const BoostedSpeed: real := 1.5
  const NormalDilation: real := 1.0
  const SlowDilation: real := 0.7

  // ---------------------------------------------------------------- the effect list

  function Kinds(effects: seq<PowerUpEffect>): set<RewardType>
  {
    set i | 0 <= i < |effects| :: effects[i].kind
  }

  /** No two effects in the list have the same type. */
  predicate OnePerKind(effects: seq<PowerUpEffect>)
  {
    forall i, j :: 0 <= i < j < |effects| ==> effects[i].kind != effects[j].kind
  }

  predicate AllActive(effects: seq<PowerUpEffect>)
  {
    forall i :: 0 <= i < |effects| ==> effects[i].isActive
  }

  /** `activePowerUps.firstOrNull { it.type == kind }`, as an index (-1 for none). */
  function IndexOfKind(effects: seq<PowerUpEffect>, kind: RewardType): (i: int)
    ensures -1 <= i < |effects|
    ensures i == -1 <==> kind !in Kinds(effects)
    ensures 0 <= i ==> effects[i].kind == kind
    decreases |effects|
  {
    if effects == [] then -1
    else
      KindsAppend([effects[0]], effects[1..]);
      KindsSingleton(effects[0]);
      assert effects == [effects[0]] + effects[1..];
      if effects[0].kind == kind then 0
      else
        var rest := IndexOfKind(effects[1..], kind);
        if rest == -1 then -1 else rest + 1
  }

  /** The index found is the first effect of that type. */
  lemma {:induction false} IndexOfKindIsFirst(effects: seq<PowerUpEffect>, kind: RewardType, j: int)
    requires 0 <= j < |effects| && effects[j].kind == kind
    ensures 0 <= IndexOfKind(effects, kind) <= j
    decreases |effects|
  {
    if effects[0].kind != kind {
      assert effects[1..][j - 1] == effects[j];
      IndexOfKindIsFirst(effects[1..], kind, j - 1);
    }
  }

  /** In a list with one effect per type, the effect of a type is found wherever it stands. */
  lemma IndexOfUnique(effects: seq<PowerUpEffect>, i: int)
    requires OnePerKind(effects) && 0 <= i < |effects|
    ensures IndexOfKind(effects, effects[i].kind) == i
  {
    assert effects[i].kind in Kinds(effects);
  }

  /** `getPowerUpTimeRemaining` over a list: the first effect's timer, 0 for a type with none. */
  function TimeRemainingOf(effects: seq<PowerUpEffect>, kind: RewardType): (t: real)
    ensures kind !in Kinds(effects) ==> t == 0.0
    ensures kind in Kinds(effects) ==> t == effects[IndexOfKind(effects, kind)].timeRemaining
  {
    var i := IndexOfKind(effects, kind);
    if i < 0 then 0.0 else effects[i].timeRemaining
  }

  lemma TimeOfUnique(effects: seq<PowerUpEffect>, i: int)
    requires OnePerKind(effects) && 0 <= i < |effects|
    ensures TimeRemainingOf(effects, effects[i].kind) == effects[i].timeRemaining
  {
    IndexOfUnique(effects, i);
  }

  lemma KindsAppend(a: seq<PowerUpEffect>, b: seq<PowerUpEffect>)
    ensures Kinds(a + b) == Kinds(a) + Kinds(b)
  {
    forall k | k in Kinds(a + b) ensures k in Kinds(a) + Kinds(b) {
      var i :| 0 <= i < |a + b| && (a + b)[i].kind == k;
      if i < |a| {
        assert (a + b)[i] == a[i];
      } else {
        assert (a + b)[i] == b[i - |a|];
      }
    }
    forall k | k in Kinds(a) + Kinds(b) ensures k in Kinds(a + b) {
      if k in Kinds(a) {
        var i :| 0 <= i < |a| && a[i].kind == k;
        assert (a + b)[i] == a[i];
      } else {
        var i :| 0 <= i < |b| && b[i].kind == k;
        assert (a + b)[|a| + i] == b[i];
      }
    }
  }

  lemma KindsSingleton(x: PowerUpEffect)
    ensures Kinds([x]) == {x.kind}
  {
    assert [x][0] == x;
  }

  /** Dropping one effect from a list with one effect per type removes exactly its type. */
  lemma RemoveOne(p: seq<PowerUpEffect>, x: PowerUpEffect, r: seq<PowerUpEffect>)
    requires OnePerKind(p + [x] + r)
    ensures OnePerKind(p + r)
    ensures Kinds(p + r) == Kinds(p + [x] + r) - {x.kind}
  {
    var whole := p + [x] + r;
    forall i, j | 0 <= i < j < |p + r| ensures (p + r)[i].kind != (p + r)[j].kind {
      var i' := if i < |p| then i else i + 1;
      var j' := if j < |p| then j else j + 1;
      assert (p + r)[i] == whole[i'];
      assert (p + r)[j] == whole[j'];
    }
    KindsAppend(p, r);
    KindsAppend(p + [x], r);
    KindsAppend(p, [x]);
    KindsSingleton(x);
    forall i | 0 <= i < |p| ensures p[i].kind != x.kind {
      assert whole[i] == p[i] && whole[|p|] == x;
    }
    forall i | 0 <= i < |r| ensures r[i].kind != x.kind {
      assert whole[|p| + 1 + i] == r[i] && whole[|p|] == x;
    }
  }

  /** Replacing an effect by one of the same type keeps the types and their uniqueness. */
  lemma ReplaceOne(p: seq<PowerUpEffect>, x: PowerUpEffect, y: PowerUpEffect, r: seq<PowerUpEffect>)
    requires y.kind == x.kind
    ensures Kinds(p + [y] + r) == Kinds(p + [x] + r)
    ensures OnePerKind(p + [x] + r) ==> OnePerKind(p + [y] + r)
  {
    KindsAppend(p + [x], r);
    KindsAppend(p, [x]);
    KindsAppend(p + [y], r);
    KindsAppend(p, [y]);
    KindsSingleton(x);
    KindsSingleton(y);
    var before, after := p + [x] + r, p + [y] + r;
    assert forall i :: 0 <= i < |before| ==> after[i].kind == before[i].kind;
  }

  /** Appending an effect of a new type keeps one effect per type. */
  lemma AppendNew(s: seq<PowerUpEffect>, x: PowerUpEffect)
    requires OnePerKind(s) && x.kind !in Kinds(s)
    ensures OnePerKind(s + [x]) && Kinds(s + [x]) == Kinds(s) + {x.kind}
  {
    KindsAppend(s, [x]);
    KindsSingleton(x);
    forall i | 0 <= i < |s| ensures (s + [x])[i].kind != x.kind {
      assert (s + [x])[i] == s[i];
    }
  }

  /** Setting the timer of an effect keeps the list's shape and types. */
  lemma RefreshKeepsShape(effects: seq<PowerUpEffect>, i: int, duration: real)
    requires OnePerKind(effects) && AllActive(effects) && 0 <= i < |effects|
    ensures OnePerKind(effects[i := effects[i].(timeRemaining := duration)])
    ensures AllActive(effects[i := effects[i].(timeRemaining := duration)])
    ensures Kinds(effects[i := effects[i].(timeRemaining := duration)]) == Kinds(effects)
    ensures TimeRemainingOf(effects[i := effects[i].(timeRemaining := duration)], effects[i].kind) == duration
  {
    var p, x, r := effects[..i], effects[i], effects[i + 1..];
    var refreshed := effects[i := x.(timeRemaining := duration)];
    assert effects == p + [x] + r;
    assert refreshed == p + [x.(timeRemaining := duration)] + r;
    ReplaceOne(p, x, x.(timeRemaining := duration), r);
    TimeOfUnique(refreshed, i);
  }

  /** Appending an active effect of a new type keeps the list's shape. */
  lemma AppendKeepsShape(effects: seq<PowerUpEffect>, x: PowerUpEffect)
    requires OnePerKind(effects) && AllActive(effects) && x.kind !in Kinds(effects) && x.isActive
    ensures OnePerKind(effects + [x]) && AllActive(effects + [x])
    ensures Kinds(effects + [x]) == Kinds(effects) + {x.kind}
    ensures TimeRemainingOf(effects + [x], x.kind) == x.timeRemaining
  {
    AppendNew(effects, x);
    TimeOfUnique(effects + [x], |effects|);
  }

  /** The effect list after `activatePowerUp(kind, duration)`: an effect of that type already
      in the list has its timer set to `duration` in place; otherwise a fresh, active effect
      is appended. */
  function Activated(effects: seq<PowerUpEffect>, kind: RewardType, duration: real): seq<PowerUpEffect>
  {
    var i := IndexOfKind(effects, kind);
    if i >= 0 then effects[i := effects[i].(timeRemaining := duration)]
    else effects + [PowerUpEffect(kind, duration, duration, true)]
  }

  /** Activation keeps one active effect per type, adds the type, sets its timer to the
      duration and leaves the timer of every other type as it was. */
  lemma ActivatedKeepsShape(effects: seq<PowerUpEffect>, kind: RewardType, duration: real)
    requires OnePerKind(effects) && AllActive(effects)
    ensures OnePerKind(Activated(effects, kind, duration)) && AllActive(Activated(effects, kind, duration))
    ensures Kinds(Activated(effects, kind, duration)) == Kinds(effects) + {kind}
    ensures TimeRemainingOf(Activated(effects, kind, duration), kind) == duration
    ensures forall k :: k != kind ==>
      TimeRemainingOf(Activated(effects, kind, duration), k) == TimeRemainingOf(effects, k)
  {
    var i := IndexOfKind(effects, kind);
    var after := Activated(effects, kind, duration);
    if i >= 0 {
      RefreshKeepsShape(effects, i, duration);
    } else {
      AppendKeepsShape(effects, PowerUpEffect(kind, duration, duration, true));
    }
    forall k | k != kind
      ensures TimeRemainingOf(after, k) == TimeRemainingOf(effects, k)
    {
      if k in Kinds(effects) {
        var j := IndexOfKind(effects, k);
        assert after[j] == effects[j].(timeRemaining := after[j].timeRemaining);
        assert after[j].timeRemaining == effects[j].timeRemaining;
        TimeOfUnique(effects, j);
        TimeOfUnique(after, j);
      }
    }
  }

  /** A frame step of `delta` seen through the time dilation `dilation`. */
  function Adjusted(delta: real, dilation: real): real
  {
    delta * dilation
  }

  /** The time dilation that the presence of time slow among `kinds` implies. */
  function Dilation(kinds: set<RewardType>): real
  {
    if TimeSlow in kinds then SlowDilation else NormalDilation
  }

  // ---------------------------------------------------------------- the timer step

  /** The effects left after every one has been counted down by `step`, in their order;
      those reaching zero or below are gone. */
  function Survivors(effects: seq<PowerUpEffect>, step: real): (s: seq<PowerUpEffect>)
    ensures |s| <= |effects|
    decreases |effects|
  {
    if effects == [] then []
    else
      var last := effects[|effects| - 1];
      var rest := Survivors(effects[..|effects| - 1], step);
      if last.timeRemaining - step <= 0.0 then rest
      else rest + [last.(timeRemaining := last.timeRemaining - step)]
  }

  /** One more effect of the list counted down. */
  lemma SurvivorsPrefix(effects: seq<PowerUpEffect>, i: int, step: real)
    requires 0 <= i < |effects|
    ensures Survivors(effects[..i + 1], step) ==
      if effects[i].timeRemaining - step <= 0.0 then Survivors(effects[..i], step)
      else Survivors(effects[..i], step) + [effects[i].(timeRemaining := effects[i].timeRemaining - step)]
  {
    assert effects[..i + 1][..i] == effects[..i];
  }

  /** The expired types of one more effect of the list. */
  lemma ExpiredPrefix(effects: seq<PowerUpEffect>, i: int, step: real)
    requires 0 <= i < |effects|
    ensures ExpiredKinds(effects[..i + 1], step) ==
      ExpiredKinds(effects[..i], step) + (if effects[i].timeRemaining - step <= 0.0 then {effects[i].kind} else {})
  {
    assert effects[..i + 1] == effects[..i] + [effects[i]];
    ExpiredSnoc(effects[..i], effects[i], step);
  }

  /** The types whose effect runs out during the step. */
  function ExpiredKinds(effects: seq<PowerUpEffect>, step: real): set<RewardType>
  {
    set i | 0 <= i < |effects| && effects[i].timeRemaining - step <= 0.0 :: effects[i].kind
  }

  lemma ExpiredSnoc(front: seq<PowerUpEffect>, last: PowerUpEffect, step: real)
    ensures ExpiredKinds(front + [last], step) ==
      ExpiredKinds(front, step) + (if last.timeRemaining - step <= 0.0 then {last.kind} else {})
  {
    var effects := front + [last];
    forall k | k in ExpiredKinds(effects, step)
      ensures k in ExpiredKinds(front, step) + (if last.timeRemaining - step <= 0.0 then {last.kind} else {})
    {
      var i :| 0 <= i < |effects| && effects[i].timeRemaining - step <= 0.0 && effects[i].kind == k;
      if i < |front| { assert front[i] == effects[i]; }
    }
    forall k | k in ExpiredKinds(front, step) ensures k in ExpiredKinds(effects, step) {
      var i :| 0 <= i < |front| && front[i].timeRemaining - step <= 0.0 && front[i].kind == k;
      assert effects[i] == front[i];
    }
    if last.timeRemaining - step <= 0.0 {
      assert effects[|front|] == last;
    }
  }

  /** The timer of a type in a list with one effect per type, read past an appended effect. */
  lemma TimeSnoc(s: seq<PowerUpEffect>, x: PowerUpEffect, k: RewardType)
    requires OnePerKind(s + [x])
    ensures TimeRemainingOf(s + [x], k) == if k == x.kind then x.timeRemaining else TimeRemainingOf(s, k)
  {
    KindsAppend(s, [x]);
    KindsSingleton(x);
    if k == x.kind {
      TimeOfUnique(s + [x], |s|);
    } else if k in Kinds(s) {
      var i := IndexOfKind(s, k);
      assert (s + [x])[i] == s[i];
      TimeOfUnique(s + [x], i);
      assert OnePerKind(s) by {
        forall i, j | 0 <= i < j < |s| ensures s[i].kind != s[j].kind {
          assert s[i] == (s + [x])[i] && s[j] == (s + [x])[j];
        }
      }
      TimeOfUnique(s, i);
    }
  }

  lemma OnePerKindFront(s: seq<PowerUpEffect>, x: PowerUpEffect)
    requires OnePerKind(s + [x])
    ensures OnePerKind(s) && x.kind !in Kinds(s)
  {
    RemoveOne(s, x, []);
    assert s + [x] + [] == s + [x];
    assert s + [] == s;
  }

  /** The timer step keeps one effect per type and keeps exactly the types that did not run out. */
  lemma {:induction false} SurvivorsKinds(effects: seq<PowerUpEffect>, step: real)
    requires OnePerKind(effects)
    ensures OnePerKind(Survivors(effects, step))
    ensures Kinds(Survivors(effects, step)) == Kinds(effects) - ExpiredKinds(effects, step)
    decreases |effects|
  {
    if effects != [] {
      var n := |effects| - 1;
      var front, last := effects[..n], effects[n];
      assert effects == front + [last];
      OnePerKindFront(front, last);
      SurvivorsKinds(front, step);
      KindsAppend(front, [last]);
      KindsSingleton(last);
      ExpiredSnoc(front, last, step);
      if last.timeRemaining - step > 0.0 {
        AppendNew(Survivors(front, step), last.(timeRemaining := last.timeRemaining - step));
      }
    }
  }

  /** Every effect left by the timer step still has time on it. */
  lemma {:induction false} SurvivorsPositive(effects: seq<PowerUpEffect>, step: real)
    ensures forall i :: 0 <= i < |Survivors(effects, step)| ==> Survivors(effects, step)[i].timeRemaining > 0.0
    ensures AllActive(effects) ==> AllActive(Survivors(effects, step))
    decreases |effects|
  {
    if effects != [] {
      SurvivorsPositive(effects[..|effects| - 1], step);
    }
  }

  lemma SurvivorsKeepShape(effects: seq<PowerUpEffect>, step: real)
    requires OnePerKind(effects) && AllActive(effects)
    ensures OnePerKind(Survivors(effects, step)) && AllActive(Survivors(effects, step))
    ensures Kinds(Survivors(effects, step)) == Kinds(effects) - ExpiredKinds(effects, step)
  {
    SurvivorsKinds(effects, step);
    SurvivorsPositive(effects, step);
  }

  /** The timer step counts each surviving type down by exactly `step`. */
  lemma {:induction false} SurvivorsCountDown(effects: seq<PowerUpEffect>, step: real, k: RewardType)
    requires OnePerKind(effects)
    requires k in Kinds(Survivors(effects, step))
    ensures TimeRemainingOf(Survivors(effects, step), k) == TimeRemainingOf(effects, k) - step
    decreases |effects|
  {
    var n := |effects| - 1;
    var front, last := effects[..n], effects[n];
    assert effects == front + [last];
    OnePerKindFront(front, last);
    SurvivorsKinds(front, step);
    TimeSnoc(front, last, k);
    var rest := Survivors(front, step);
    SurvivorsPrefix(effects, n, step);
    assert effects[..n + 1] == effects;
    if last.timeRemaining - step > 0.0 {
      var last' := last.(timeRemaining := last.timeRemaining - step);
      assert Survivors(effects, step) == rest + [last'];
      AppendNew(rest, last');
      TimeSnoc(rest, last', k);
      if k != last.kind {
        SurvivorsCountDown(front, step, k);
      }
    } else {
      assert Survivors(effects, step) == rest;
      SurvivorsCountDown(front, step, k);
    }
  }

  // ---------------------------------------------------------------- coins

  /** `collectCoin` on one coin: the flag goes up once and the coin's value is credited once. */
  function Collect(coin: Coin): (Coin, int)
  {
    if !coin.collected then (coin.(collected := true), coin.value) else (coin, 0)
  }

  lemma CollectIdempotent(coin: Coin)
    ensures Collect(Collect(coin).0) == (Collect(coin).0, 0)
  {
  }

  /** What one `checkCoinCollection` pass does to a coin. */
  function Swept(coin: Coin, bikePosition: Vec2, collectRadius: real): Coin
  {
    if !coin.collected && Within(bikePosition, coin.position, collectRadius) then coin.(collected := true) else coin
  }

  /** One `checkCoinCollection` pass over the coins, in place. */
  function Sweep(coins: seq<Coin>, bikePosition: Vec2, collectRadius: real): seq<Coin>
  {
    seq(|coins|, i requires 0 <= i < |coins| => Swept(coins[i], bikePosition, collectRadius))
  }

  /** The number of coins a pass newly collects. */
  function Gathered(coins: seq<Coin>, bikePosition: Vec2, collectRadius: real): nat
    decreases |coins|
  {
    if coins == [] then 0
    else
      var c := coins[|coins| - 1];
      Gathered(coins[..|coins| - 1], bikePosition, collectRadius)
        + if !c.collected && Within(bikePosition, c.position, collectRadius) then 1 else 0
  }

  /** The coins' worth a pass credits. */
  function GatheredValue(coins: seq<Coin>, bikePosition: Vec2, collectRadius: real): int
    decreases |coins|
  {
    if coins == [] then 0
    else
      var c := coins[|coins| - 1];
      GatheredValue(coins[..|coins| - 1], bikePosition, collectRadius)
        + if !c.collected && Within(bikePosition, c.position, collectRadius) then c.value else 0
  }

  function Uncollected(coins: seq<Coin>): nat
    decreases |coins|
  {
    if coins == [] then 0
    else Uncollected(coins[..|coins| - 1]) + if coins[|coins| - 1].collected then 0 else 1
  }

  /** A pass newly collects exactly as many coins as it takes off the uncollected count, and
      never un-collects one. */
  lemma {:induction false} SweepConserves(coins: seq<Coin>, bikePosition: Vec2, collectRadius: real)
    ensures Gathered(coins, bikePosition, collectRadius) + Uncollected(Sweep(coins, bikePosition, collectRadius))
      == Uncollected(coins)
    ensures forall i :: 0 <= i < |coins| && coins[i].collected ==> Sweep(coins, bikePosition, collectRadius)[i].collected
    decreases |coins|
  {
    if coins != [] {
      var n := |coins| - 1;
      var swept := Sweep(coins, bikePosition, collectRadius);
      assert swept[..n] == Sweep(coins[..n], bikePosition, collectRadius);
      SweepConserves(coins[..n], bikePosition, collectRadius);
    }
  }

  /** A second pass from the same place collects nothing more. */
  lemma {:induction false} SweepIdempotent(coins: seq<Coin>, bikePosition: Vec2, collectRadius: real)
    ensures Sweep(Sweep(coins, bikePosition, collectRadius), bikePosition, collectRadius)
      == Sweep(coins, bikePosition, collectRadius)
    ensures Gathered(Sweep(coins, bikePosition, collectRadius), bikePosition, collectRadius) == 0
    decreases |coins|
  {
    if coins != [] {
      var n := |coins| - 1;
      var swept := Sweep(coins, bikePosition, collectRadius);
      assert swept[..n] == Sweep(coins[..n], bikePosition, collectRadius);
      SweepIdempotent(coins[..n], bikePosition, collectRadius);
    }
  }

  // ---------------------------------------------------------------- the controller

  class PowerUpController {
    const bikePhysics: BikePhysics
    const rewardSystem: RewardSystem
    var activePowerUps: seq<PowerUpEffect>
    var collectibleCoins: seq<Coin>
    var speedBoostMultiplier: real
    var coinMagnetActive: bool
    var shieldActive: bool
    var timeSlowActive: bool
    var timeDilation: real

    /** Every flag is exactly what the presence of its type among `kinds` implies. */
    ghost predicate FlagsAgreeWith(kinds: set<RewardType>)
      reads this
    {
      && speedBoostMultiplier == (if SpeedBoost in kinds then BoostedSpeed else NormalSpeed)
      && coinMagnetActive == (CoinMagnet in kinds)
      && shieldActive == (Shield in kinds)
      && timeSlowActive == (TimeSlow in kinds)
      && timeDilation == Dilation(kinds)
    }

    ghost predicate FlagsAgree()
      reads this
    {
      FlagsAgreeWith(Kinds(activePowerUps))
    }

    ghost predicate Valid()
      reads this
    {
      OnePerKind(activePowerUps) && AllActive(activePowerUps) && FlagsAgree()
    }

    constructor (bike: BikePhysics, rewards: RewardSystem)
      ensures Valid() && bikePhysics == bike && rewardSystem == rewards
      ensures activePowerUps == [] && collectibleCoins == []
      ensures speedBoostMultiplier == NormalSpeed && timeDilation == NormalDilation
    {
      bikePhysics := bike;
      rewardSystem := rewards;
      activePowerUps := [];
      collectibleCoins := [];
      speedBoostMultiplier := NormalSpeed;
      coinMagnetActive := false;
      shieldActive := false;
      timeSlowActive := false;
      timeDilation := NormalDilation;
    }

    /** Resets the flag that `kind` had set, if any. */
    method DeactivatePowerUp(kind: RewardType)
      modifies this`speedBoostMultiplier, this`coinMagnetActive, this`shieldActive, this`timeSlowActive, this`timeDilation
      ensures speedBoostMultiplier == if kind == SpeedBoost then NormalSpeed else old(speedBoostMultiplier)
      ensures coinMagnetActive == (kind != CoinMagnet && old(coinMagnetActive))
      ensures shieldActive == (kind != Shield && old(shieldActive))
      ensures timeSlowActive == (kind != TimeSlow && old(timeSlowActive))
      ensures timeDilation == if kind == TimeSlow then NormalDilation else old(timeDilation)
    {
      match kind {
        case SpeedBoost => speedBoostMultiplier := NormalSpeed;
        case CoinMagnet => coinMagnetActive := false;
        case Shield => shieldActive := false;
        case TimeSlow =>
          timeSlowActive := false;
          timeDilation := NormalDilation;
        case _ =>
      }
    }

    /** The effect loop of `update`: counts every effect down by `step`, dropping (and
        switching off) those that reach zero. */
    method CountDownEffects(step: real)
      requires Valid()
      modifies this`activePowerUps, this`speedBoostMultiplier, this`coinMagnetActive, this`shieldActive,
        this`timeSlowActive, this`timeDilation
      ensures Valid()
      ensures activePowerUps == Survivors(old(activePowerUps), step)
      ensures Kinds(activePowerUps) == Kinds(old(activePowerUps)) - ExpiredKinds(old(activePowerUps), step)
    {
      var effects := activePowerUps;
      var kept: seq<PowerUpEffect> := [];
      ghost var present, expired := Kinds(effects), {};
      var i := 0;
      while i < |effects|
        invariant 0 <= i <= |effects|
        invariant kept == Survivors(effects[..i], step)
        invariant expired == ExpiredKinds(effects[..i], step)
        invariant FlagsAgreeWith(present - expired)
        invariant activePowerUps == effects
      {
        var powerUp := effects[i];
        ExpiredPrefix(effects, i, step);
        SurvivorsPrefix(effects, i, step);
        var counted := powerUp.(timeRemaining := powerUp.timeRemaining - step);
        if counted.timeRemaining <= 0.0 {
          DeactivatePowerUp(counted.kind);
          expired := expired + {counted.kind};
        } else {
          kept := kept + [counted];
        }
        i := i + 1;
      }
      assert effects[..i] == effects;
      SurvivorsKeepShape(effects, step);
      activePowerUps := kept;
    }

    /** Counts every effect down by `delta` times the dilation read on entry, dropping (and
        switching off) those that reach zero, then counts the reward system's timers down by
        the same dilated amount. The magnet's pull on coins is not modelled. */
    method Update(delta: real)
      requires Valid() && rewardSystem.Valid()
      modifies this`activePowerUps, this`speedBoostMultiplier, this`coinMagnetActive, this`shieldActive,
        this`timeSlowActive, this`timeDilation, rewardSystem`activePowerUps, rewardSystem`powerUpTimers
      ensures Valid() && rewardSystem.Valid()
      ensures activePowerUps == Survivors(old(activePowerUps), Adjusted(delta, old(timeDilation)))
      ensures Kinds(activePowerUps) == Kinds(old(activePowerUps)) - ExpiredKinds(old(activePowerUps), Adjusted(delta, old(timeDilation)))
      ensures rewardSystem.powerUpTimers == Ticked(old(rewardSystem.powerUpTimers), Adjusted(delta, old(timeDilation)))
      ensures rewardSystem.activePowerUps ==
        old(rewardSystem.activePowerUps) - Expired(old(rewardSystem.powerUpTimers), Adjusted(delta, old(timeDilation)))
    {
      var adjustedDelta := delta * timeDilation;
      CountDownEffects(adjustedDelta);
      rewardSystem.Update(adjustedDelta);
    }

    /** Starts `kind` for `duration`. An effect already running only has its timer set to
        `duration`; otherwise a new effect is appended and the type's flag, if it has one, is set. */
    method ActivatePowerUp(kind: RewardType, duration: real)
      requires Valid()
      modifies this`activePowerUps, this`speedBoostMultiplier, this`coinMagnetActive, this`shieldActive,
        this`timeSlowActive, this`timeDilation
      ensures Valid()
      ensures activePowerUps == Activated(old(activePowerUps), kind, duration)
      ensures Kinds(activePowerUps) == Kinds(old(activePowerUps)) + {kind}
      ensures TimeRemainingOf(activePowerUps, kind) == duration
      ensures kind in Kinds(old(activePowerUps)) ==>
        && |activePowerUps| == |old(activePowerUps)|
        && speedBoostMultiplier == old(speedBoostMultiplier) && coinMagnetActive == old(coinMagnetActive)
        && shieldActive == old(shieldActive) && timeSlowActive == old(timeSlowActive)
        && timeDilation == old(timeDilation)
    {
      var existing := IndexOfKind(activePowerUps, kind);
      if existing >= 0 {
        RefreshKeepsShape(activePowerUps, existing, duration);
        activePowerUps := activePowerUps[existing := activePowerUps[existing].(timeRemaining := duration)];
        return;
      }
      var powerUpEffect := PowerUpEffect(kind, duration, duration, true);
      AppendKeepsShape(activePowerUps, powerUpEffect);
      activePowerUps := activePowerUps + [powerUpEffect];
      match kind {
        case SpeedBoost => speedBoostMultiplier := BoostedSpeed;
        case CoinMagnet => coinMagnetActive := true;
        case Shield => shieldActive := true;
        case TimeSlow =>
          timeSlowActive := true;
          timeDilation := SlowDilation;
        case _ =>
      }
    }

    /** Credits an uncollected coin once; a collected coin is left as it is. */
    method CollectCoin(index: nat)
      requires index < |collectibleCoins|
      modifies this`collectibleCoins, rewardSystem`totalCoins
      ensures collectibleCoins == old(collectibleCoins)[index := Collect(old(collectibleCoins[index])).0]
      ensures rewardSystem.totalCoins == old(rewardSystem.totalCoins) + Collect(old(collectibleCoins[index])).1
    {
      var coin := collectibleCoins[index];
      if !coin.collected {
        collectibleCoins := collectibleCoins[index := coin.(collected := true)];
        rewardSystem.AddCoins(coin.value);
      }
    }

    /** With the shield up a collision does nothing; otherwise it is exactly `applyDamage`. */
    method HandleCollision(damage: real)
      modifies bikePhysics`health, bikePhysics`isDestroyed
      ensures shieldActive ==> bikePhysics.CurrentCondition() == old(bikePhysics.CurrentCondition())
      ensures !shieldActive ==>
        bikePhysics.CurrentCondition() == AfterDamage(old(bikePhysics.CurrentCondition()), damage, bikePhysics.currentBikeStats.durability)
      ensures old(bikePhysics.Valid()) && damage >= 0.0 && bikePhysics.currentBikeStats.durability <= 10.0 ==>
        bikePhysics.Valid()
    {
      if shieldActive {
        return;
      }
      bikePhysics.ApplyDamage(damage);
    }

    method AddCoin(coin: Coin)
      modifies this`collectibleCoins
      ensures collectibleCoins == old(collectibleCoins) + [coin]
    {
      collectibleCoins := collectibleCoins + [coin];
    }

    /** Collects every uncollected coin strictly within `collectRadius` of the bike, crediting
        each, and returns how many there were. */
    method CheckCoinCollection(bikePosition: Vec2, collectRadius: real) returns (coinsCollected: nat)
      modifies this`collectibleCoins, rewardSystem`totalCoins
      ensures collectibleCoins == Sweep(old(collectibleCoins), bikePosition, collectRadius)
      ensures coinsCollected == Gathered(old(collectibleCoins), bikePosition, collectRadius)
      ensures rewardSystem.totalCoins ==
        old(rewardSystem.totalCoins) + GatheredValue(old(collectibleCoins), bikePosition, collectRadius)
    {
      ghost var coins0 := collectibleCoins;
      coinsCollected := 0;
      var i := 0;
      while i < |collectibleCoins|
        invariant 0 <= i <= |collectibleCoins| == |coins0|
        invariant forall k :: 0 <= k < i ==> collectibleCoins[k] == Swept(coins0[k], bikePosition, collectRadius)
        invariant forall k :: i <= k < |coins0| ==> collectibleCoins[k] == coins0[k]
        invariant coinsCollected == Gathered(coins0[..i], bikePosition, collectRadius)
        invariant rewardSystem.totalCoins ==
          old(rewardSystem.totalCoins) + GatheredValue(coins0[..i], bikePosition, collectRadius)
      {
        assert coins0[..i + 1][..i] == coins0[..i];
        var coin := collectibleCoins[i];
        if !coin.collected && Within(bikePosition, coin.position, collectRadius) {
          CollectCoin(i);
          coinsCollected := coinsCollected + 1;
        }
        i := i + 1;
      }
      assert coins0[..i] == coins0;
    }

    function IsPowerUpActive(kind: RewardType): (active: bool)
      reads this
      ensures Valid() ==> (active <==> kind in Kinds(activePowerUps))
    {
      exists i :: 0 <= i < |activePowerUps| && activePowerUps[i].kind == kind && activePowerUps[i].isActive
    }

    function GetPowerUpTimeRemaining(kind: RewardType): (t: real)
      reads this
      ensures kind !in Kinds(activePowerUps) ==> t == 0.0
      ensures Valid() ==>
        forall i :: 0 <= i < |activePowerUps| && activePowerUps[i].kind == kind ==> t == activePowerUps[i].timeRemaining
    {
      TimeRemainingOf(activePowerUps, kind)
    }

    /** Drops every effect and coin and puts every flag back to its default. */
    method Reset()
      modifies this`activePowerUps, this`speedBoostMultiplier, this`coinMagnetActive, this`shieldActive,
        this`timeSlowActive, this`timeDilation, this`collectibleCoins
      ensures Valid()
      ensures activePowerUps == [] && collectibleCoins == []
      ensures speedBoostMultiplier == NormalSpeed && !coinMagnetActive && !shieldActive && !timeSlowActive
      ensures timeDilation == NormalDilation
    {
      activePowerUps := [];
      speedBoostMultiplier := NormalSpeed;
      coinMagnetActive := false;
      shieldActive := false;
      timeSlowActive := false;
      timeDilation := NormalDilation;
      collectibleCoins := [];
    }
  }
}
