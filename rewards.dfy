/** RewardSystem.kt: the persistent coin balance, the coins of the race just finished and a
    table of ad-granted power-up timers kept beside the set of active power-up types. */
module Rewards {
  import opened Ads

  /** The types whose timer runs out during an `update(delta)`. */
  function Expired(timers: map<RewardType, real>, delta: real): set<RewardType>
  {
    set t | t in timers && timers[t] - delta <= 0.0
  }

  /** The timer table after an `update(delta)`: every surviving timer counts down by `delta`. */
  function Ticked(timers: map<RewardType, real>, delta: real): (r: map<RewardType, real>)
    ensures r.Keys == timers.Keys - Expired(timers, delta)
    ensures forall t :: t in r ==> r[t] > 0.0
  {
    map t | t in timers && timers[t] - delta > 0.0 :: timers[t] - delta
  }

  /** A timer that has not run out ends an update exactly `delta` lower; one that has is gone. */
  lemma TickedCountsDown(timers: map<RewardType, real>, delta: real, t: RewardType)
    requires t in timers
    ensures t in Ticked(timers, delta) <==> timers[t] - delta > 0.0
    ensures t in Ticked(timers, delta) ==> Ticked(timers, delta)[t] == timers[t] - delta
  {
  }

  class RewardSystem {
    /** The persisted balance (the `totalCoins` key of the settings store). */
    var totalCoins: int
    var currentRaceCoins: int
    var pendingDoubleCoins: bool
    var activePowerUps: set<RewardType>
    var powerUpTimers: map<RewardType, real>

    /** The timer table and the active set always name the same types. */
    ghost predicate Valid()
      reads this
    {
      powerUpTimers.Keys == activePowerUps
    }

    constructor (storedCoins: int)
      ensures Valid()
      ensures totalCoins == storedCoins && currentRaceCoins == 0 && !pendingDoubleCoins
      ensures activePowerUps == {} && powerUpTimers == map[]
    {
      totalCoins := storedCoins;
      currentRaceCoins := 0;
      pendingDoubleCoins := false;
      activePowerUps := {};
      powerUpTimers := map[];
    }

    method OnRaceComplete(coinsEarned: int)
      modifies this`currentRaceCoins
      ensures currentRaceCoins == coinsEarned
    {
      currentRaceCoins := coinsEarned;
    }

    /** Offers to double the race's coins: a rewarded ad credits twice `currentRaceCoins`, an
        ad closed without the reward still credits them once, and an ad that is not ready or
        fails changes nothing. */
    method RequestDoubleCoinsReward(outcome: AdOutcome) returns (reply: Reply)
      modifies this`totalCoins, this`pendingDoubleCoins
      ensures reply == ReplyFor(outcome)
      ensures outcome == Rewarded ==>
        totalCoins == old(totalCoins) + 2 * currentRaceCoins && pendingDoubleCoins
      ensures outcome == Dismissed ==>
        totalCoins == old(totalCoins) + currentRaceCoins && pendingDoubleCoins == old(pendingDoubleCoins)
      ensures outcome in {NotReady, Failed} ==>
        totalCoins == old(totalCoins) && pendingDoubleCoins == old(pendingDoubleCoins)
    {
      match outcome {
        case NotReady =>
          reply := Replied(false);
        case Rewarded =>
          var doubledCoins := currentRaceCoins * 2;
          totalCoins := totalCoins + doubledCoins;
          pendingDoubleCoins := true;
          reply := Replied(true);
        case Failed =>
          reply := Replied(false);
        case Dismissed =>
          totalCoins := totalCoins + currentRaceCoins;
          reply := NoReply;
      }
    }

    /** Asks for an instant repair; the repair itself is done by the caller on success. */
    method RequestInstantRepair(outcome: AdOutcome) returns (reply: Reply)
      ensures reply == Replied(true) <==> outcome == Rewarded
      ensures reply == Replied(false) <==> outcome in {NotReady, Failed}
    {
      reply := ReplyFor(outcome);
    }

    /** Asks for a timed power-up; a rewarded ad starts (or restarts) its timer. */
    method RequestPowerUp(kind: RewardType, duration: real, outcome: AdOutcome) returns (reply: Reply)
      requires Valid()
      modifies this`activePowerUps, this`powerUpTimers
      ensures Valid()
      ensures reply == ReplyFor(outcome)
      ensures outcome == Rewarded ==>
        activePowerUps == old(activePowerUps) + {kind} && powerUpTimers == old(powerUpTimers)[kind := duration]
      ensures outcome != Rewarded ==>
        activePowerUps == old(activePowerUps) && powerUpTimers == old(powerUpTimers)
    {
      reply := ReplyFor(outcome);
      if outcome == Rewarded {
        ActivatePowerUp(kind, duration);
      }
    }

    /** Marks `kind` active and sets its timer to `duration`, overwriting any earlier value. */
    method ActivatePowerUp(kind: RewardType, duration: real)
      requires Valid()
      modifies this`activePowerUps, this`powerUpTimers
      ensures Valid()
      ensures activePowerUps == old(activePowerUps) + {kind}
      ensures powerUpTimers == old(powerUpTimers)[kind := duration]
    {
      activePowerUps := activePowerUps + {kind};
      powerUpTimers := powerUpTimers[kind := duration];
    }

    /** Counts every timer down by `delta`; a timer reaching zero or below is dropped from the
        table and its type from the active set. The source walks the table in hash order and
        collects the expired types first; the outcome does not depend on that order. */
    method Update(delta: real)
      requires Valid()
      modifies this`activePowerUps, this`powerUpTimers
      ensures Valid()
      ensures powerUpTimers == Ticked(old(powerUpTimers), delta)
      ensures activePowerUps == old(activePowerUps) - Expired(old(powerUpTimers), delta)
    {
      ghost var timers0 := powerUpTimers;
      var expiredPowerUps: seq<RewardType> := [];
      var toVisit := powerUpTimers.Keys;
      while toVisit != {}
        invariant toVisit <= timers0.Keys
        invariant powerUpTimers.Keys == timers0.Keys && activePowerUps == old(activePowerUps)
        invariant forall t :: t in toVisit ==> powerUpTimers[t] == timers0[t]
        invariant forall t :: t in timers0 && t !in toVisit && timers0[t] - delta > 0.0 ==>
          powerUpTimers[t] == timers0[t] - delta
        invariant forall t :: t in expiredPowerUps <==>
          t in timers0 && t !in toVisit && timers0[t] - delta <= 0.0
        decreases toVisit
      {
        var t :| t in toVisit;
        var newTime := powerUpTimers[t] - delta;
        if newTime <= 0.0 {
          expiredPowerUps := expiredPowerUps + [t];
        } else {
          powerUpTimers := powerUpTimers[t := newTime];
        }
        toVisit := toVisit - {t};
      }
      ghost var counted := powerUpTimers;
      var i := 0;
      while i < |expiredPowerUps|
        invariant 0 <= i <= |expiredPowerUps|
        invariant Valid()
        invariant forall t :: t in powerUpTimers <==> t in counted && t !in expiredPowerUps[..i]
        invariant forall t :: t in powerUpTimers ==> powerUpTimers[t] == counted[t]
      {
        DeactivatePowerUp(expiredPowerUps[i]);
        i := i + 1;
      }
      assert expiredPowerUps[..i] == expiredPowerUps;
    }

    method DeactivatePowerUp(kind: RewardType)
      modifies this`activePowerUps, this`powerUpTimers
      ensures activePowerUps == old(activePowerUps) - {kind}
      ensures powerUpTimers == old(powerUpTimers) - {kind}
    {
      activePowerUps := activePowerUps - {kind};
      powerUpTimers := powerUpTimers - {kind};
    }

    function IsPowerUpActive(kind: RewardType): (b: bool)
      reads this
      requires Valid()
      ensures b <==> kind in powerUpTimers
    {
      kind in activePowerUps
    }

    function GetPowerUpTimeRemaining(kind: RewardType): (r: real)
      reads this
      ensures kind !in activePowerUps && Valid() ==> r == 0.0
      ensures kind in powerUpTimers ==> r == powerUpTimers[kind]
    {
      if kind in powerUpTimers then powerUpTimers[kind] else 0.0
    }

    method AddCoins(amount: int)
      modifies this`totalCoins
      ensures totalCoins == old(totalCoins) + amount
    {
      totalCoins := totalCoins + amount;
    }

    /** Debits `amount` when the balance covers it. There is no guard against a negative
        `amount`, which therefore credits the balance. */
    method SpendCoins(amount: int) returns (spent: bool)
      modifies this`totalCoins
      ensures spent <==> old(totalCoins) >= amount
      ensures totalCoins == if spent then old(totalCoins) - amount else old(totalCoins)
      ensures old(totalCoins) >= 0 && amount >= 0 ==> totalCoins >= 0
    {
      if totalCoins >= amount {
        totalCoins := totalCoins - amount;
        spent := true;
      } else {
        spent := false;
      }
    }

    /** Forgets the race's coins; the balance and the power-up timers are kept. */
    method Reset()
      modifies this`currentRaceCoins, this`pendingDoubleCoins
      ensures currentRaceCoins == 0 && !pendingDoubleCoins
    {
      currentRaceCoins := 0;
      pendingDoubleCoins := false;
    }
  }
}
