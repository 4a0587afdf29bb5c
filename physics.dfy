/** BikePhysics.kt: the bike's health state machine and the motor settings of its two wheel
    joints. The rigid bodies themselves belong to the physics engine and are not modelled:
    each joint is reduced to its `motorSpeed` and `maxMotorTorque` fields. */
module Physics {

  /** The four multipliers a bike carries (`BikeStats`, every field defaulting to 1). */
  datatype BikeStats = BikeStats(topSpeed: real, acceleration: real, handling: real, durability: real)

  const DefaultStats := BikeStats(1.0, 1.0, 1.0, 1.0)

  const MaxMotorSpeed: real := 50.0
  const MotorTorque: real := 80.0
  const FullHealth: real := 100.0

  /** The part of the bike the damage rules act on. */
  datatype Condition = Condition(health: real, destroyed: bool)

  /** The condition every bike keeps: health in [0, 100], destroyed exactly at health 0. */
  predicate Sound(c: Condition)
  {
    0.0 <= c.health <= FullHealth && (c.destroyed <==> c.health == 0.0)
  }

  /** The health a hit of `amount` actually removes, softened by durability (10% per point). */
  function DamageTaken(amount: real, durability: real): real
  {
    amount * (1.0 - durability * 0.1)
  }

  /** `applyDamage`: nothing happens to a destroyed bike; otherwise health drops by the softened
      amount and, on reaching zero or below, is clamped to 0 and the bike is destroyed. */
  function AfterDamage(c: Condition, amount: real, durability: real): (r: Condition)
    ensures c.destroyed ==> r == c
    ensures !c.destroyed && c.health - DamageTaken(amount, durability) <= 0.0 ==> r == Condition(0.0, true)
    ensures !c.destroyed && c.health - DamageTaken(amount, durability) > 0.0 ==>
      r == Condition(c.health - DamageTaken(amount, durability), false)
  {
    if c.destroyed then c
    else
      var h := c.health - DamageTaken(amount, durability);
      if h <= 0.0 then Condition(0.0, true) else Condition(h, c.destroyed)
  }

  /** `repair`: health rises by `amount` but never above 100, and a bike with health left
      is no longer destroyed. */
  function AfterRepair(c: Condition, amount: real): (r: Condition)
    ensures r.health <= FullHealth
    ensures r.health <= c.health + amount
    ensures r.health == FullHealth || r.health == c.health + amount
    ensures r.health > 0.0 ==> !r.destroyed
    ensures r.health <= 0.0 ==> r.destroyed == c.destroyed
  {
    var h := if c.health + amount > FullHealth then FullHealth else c.health + amount;
    Condition(h, if h > 0.0 then false else c.destroyed)
  }

  lemma DamageStaysSound(c: Condition, amount: real, durability: real)
    requires Sound(c) && amount >= 0.0 && durability <= 10.0
    ensures Sound(AfterDamage(c, amount, durability))
    ensures AfterDamage(c, amount, durability).health <= c.health
  {
    var f := 1.0 - durability * 0.1;
    assert f >= 0.0;
    assert DamageTaken(amount, durability) == amount * f;
    assert amount * f >= 0.0;
  }

  lemma RepairStaysSound(c: Condition, amount: real)
    requires Sound(c) && amount >= 0.0
    ensures Sound(AfterRepair(c, amount))
    ensures AfterRepair(c, amount).health >= c.health
  {
  }

  /** One health event the game can send to the bike. */
  datatype HealthEvent = Hit(amount: real) | Mend(amount: real)

  function Replay(c: Condition, events: seq<HealthEvent>, durability: real): Condition
    decreases |events|
  {
    if events == [] then c
    else
      var next := match events[0]
        case Hit(a) => AfterDamage(c, a, durability)
        case Mend(a) => AfterRepair(c, a);
      Replay(next, events[1..], durability)
  }

  predicate NonNegative(events: seq<HealthEvent>)
  {
    forall i :: 0 <= i < |events| ==> events[i].amount >= 0.0
  }

  /** Any run of hits and repairs with non-negative amounts, on a bike whose durability is at
      most 10, keeps health within [0, 100] and `isDestroyed` exactly at health 0. */
  lemma {:induction false} ReplayStaysSound(c: Condition, events: seq<HealthEvent>, durability: real)
    requires Sound(c) && NonNegative(events) && durability <= 10.0
    ensures Sound(Replay(c, events, durability))
    decreases |events|
  {
    if events != [] {
      var next := match events[0]
        case Hit(a) => AfterDamage(c, a, durability)
        case Mend(a) => AfterRepair(c, a);
      match events[0] {
        case Hit(a) => DamageStaysSound(c, a, durability);
        case Mend(a) => RepairStaysSound(c, a);
      }
      assert NonNegative(events[1..]) by {
        forall i | 0 <= i < |events[1..]| ensures events[1..][i].amount >= 0.0 {
          assert events[1..][i] == events[i + 1];
        }
      }
      ReplayStaysSound(next, events[1..], durability);
    }
  }

  /** A destroyed bike shrugs off any run of hits. */
  lemma {:induction false} HitsIgnoredWhenDestroyed(c: Condition, amounts: seq<real>, durability: real)
    requires c.destroyed
    ensures Replay(c, seq(|amounts|, i requires 0 <= i < |amounts| => Hit(amounts[i])), durability) == c
    decreases |amounts|
  {
    var events := seq(|amounts|, i requires 0 <= i < |amounts| => Hit(amounts[i]));
    if amounts != [] {
      assert events[1..] == seq(|amounts[1..]|, i requires 0 <= i < |amounts[1..]| => Hit(amounts[1..][i]));
      HitsIgnoredWhenDestroyed(c, amounts[1..], durability);
    }
  }

  class BikePhysics {
    var health: real
    var isDestroyed: bool
    var currentBikeStats: BikeStats
    var frontMotorSpeed: real
    var rearMotorSpeed: real
    var frontMaxMotorTorque: real
    var rearMaxMotorTorque: real
    /** Whether `createBike` has run: the joints are `lateinit` and exist only after it. */
    var jointsCreated: bool

    function CurrentCondition(): Condition
      reads this
    {
      Condition(health, isDestroyed)
    }

    /** The two wheel joints are always driven alike. */
    ghost predicate JointsAgree()
      reads this
    {
      frontMotorSpeed == rearMotorSpeed && frontMaxMotorTorque == rearMaxMotorTorque
    }

    ghost predicate Valid()
      reads this
    {
      Sound(CurrentCondition()) && JointsAgree()
    }

    constructor ()
      ensures Valid() && !jointsCreated
      ensures health == FullHealth && !isDestroyed && currentBikeStats == DefaultStats
    {
      health := FullHealth;
      isDestroyed := false;
      currentBikeStats := DefaultStats;
      frontMotorSpeed, rearMotorSpeed := 0.0, 0.0;
      frontMaxMotorTorque, rearMaxMotorTorque := 0.0, 0.0;
      jointsCreated := false;
    }

    /** Takes the stats, makes fresh joints (motor off, torque 80 times acceleration) and
        restores full health. Where the frame and wheels are placed is the engine's business. */
    method CreateBike(startX: real, startY: real, bikeStats: BikeStats)
      modifies this
      ensures Valid() && jointsCreated
      ensures currentBikeStats == bikeStats
      ensures health == FullHealth && !isDestroyed
      ensures frontMotorSpeed == 0.0 && rearMotorSpeed == 0.0
      ensures frontMaxMotorTorque == MotorTorque * bikeStats.acceleration
      ensures rearMaxMotorTorque == MotorTorque * bikeStats.acceleration
    {
      currentBikeStats := bikeStats;
      frontMaxMotorTorque := MotorTorque * currentBikeStats.acceleration;
      frontMotorSpeed := 0.0;
      rearMaxMotorTorque := MotorTorque * currentBikeStats.acceleration;
      rearMotorSpeed := 0.0;
      jointsCreated := true;
      health := FullHealth;
      isDestroyed := false;
    }

    /** Drives both wheels backwards-spinning (forward travel) at 50 times top speed times the multiplier. */
    method Accelerate(speedMultiplier: real)
      requires jointsCreated && Valid()
      modifies this`frontMotorSpeed, this`rearMotorSpeed
      ensures Valid()
      ensures frontMotorSpeed == -(MaxMotorSpeed * currentBikeStats.topSpeed * speedMultiplier)
    {
      var speed := MaxMotorSpeed * currentBikeStats.topSpeed * speedMultiplier;
      frontMotorSpeed := -speed;
      rearMotorSpeed := -speed;
    }

    method Brake()
      requires jointsCreated && Valid()
      modifies this`frontMotorSpeed, this`rearMotorSpeed
      ensures Valid()
      ensures frontMotorSpeed == MaxMotorSpeed * 0.5
    {
      frontMotorSpeed := MaxMotorSpeed * 0.5;
      rearMotorSpeed := MaxMotorSpeed * 0.5;
    }

    method StopMotor()
      requires jointsCreated && Valid()
      modifies this`frontMotorSpeed, this`rearMotorSpeed
      ensures Valid()
      ensures frontMotorSpeed == 0.0
    {
      frontMotorSpeed := 0.0;
      rearMotorSpeed := 0.0;
    }

    method ApplyDamage(amount: real)
      modifies this`health, this`isDestroyed
      ensures CurrentCondition() == AfterDamage(old(CurrentCondition()), amount, currentBikeStats.durability)
      ensures old(Valid()) && amount >= 0.0 && currentBikeStats.durability <= 10.0 ==> Valid()
    {
      if isDestroyed {
        return;
      }
      health := health - amount * (1.0 - currentBikeStats.durability * 0.1);
      if health <= 0.0 {
        health := 0.0;
        isDestroyed := true;
      }
      if old(Valid()) && amount >= 0.0 && currentBikeStats.durability <= 10.0 {
        DamageStaysSound(old(CurrentCondition()), amount, currentBikeStats.durability);
      }
    }

    method Repair(amount: real)
      modifies this`health, this`isDestroyed
      ensures CurrentCondition() == AfterRepair(old(CurrentCondition()), amount)
      ensures old(Valid()) && amount >= 0.0 ==> Valid()
    {
      health := if health + amount > FullHealth then FullHealth else health + amount;
      if health > 0.0 {
        isDestroyed := false;
      }
    }
  }
}
