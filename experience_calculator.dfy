/**
 * The stand-alone capacity calculator (ExperienceCalculator.java): a tank of
 * level `l` holds 1000 * 2^(l-1) XP, computed with a doubling loop on a Java `long`.
 */
module ExperienceCalculator {
  import opened Wrappers
  import opened JavaInt

  const BaseCapacity: int := 1000

  /** The intended capacity of a tank level, in unbounded integers. */
  function TankCapacity(tankLevel: int): (r: int)
    ensures r >= BaseCapacity
    ensures tankLevel <= 1 ==> r == BaseCapacity
  {
    if tankLevel <= 1 then BaseCapacity else BaseCapacity * Pow2(tankLevel - 1)
  }

  lemma TankCapacityDoubles(tankLevel: int)
    requires tankLevel >= 1
    ensures TankCapacity(tankLevel + 1) == 2 * TankCapacity(tankLevel)
  {
  }

  lemma {:induction false} TankCapacityMonotone(a: int, b: int)
    requires 1 <= a <= b
    ensures TankCapacity(a) <= TankCapacity(b)
    decreases b - a
  {
    if a < b {
      TankCapacityMonotone(a, b - 1);
      TankCapacityDoubles(b - 1);
    }
  }

  /** Levels 1..54 fit a `long` exactly; level 54 is the last one. */
  lemma TankCapacityFitsLong(tankLevel: int)
    requires tankLevel <= 54
    ensures IsLong(TankCapacity(tankLevel))
  {
    Pow2Landmarks();
    if tankLevel > 1 {
      Pow2Monotone(tankLevel - 1, 53);
    }
  }

  /**
   * calculateTankCapacity: start at 1000 and double once per level above 1,
   * on a `long`, so the result is the intended capacity wrapped to 64 bits.
   */
  method CalculateTankCapacity(tankLevel: int) returns (capacity: int)
    ensures capacity == Wrap64(TankCapacity(tankLevel))
    ensures tankLevel <= 54 ==> capacity == TankCapacity(tankLevel)
  {
    capacity := BaseCapacity;
    var i := 1;
    while i < tankLevel
      invariant 1 <= i && (i <= tankLevel || i == 1)
      invariant capacity == Wrap64(TankCapacity(i))
    {
      Wrap64Double(TankCapacity(i));
      TankCapacityDoubles(i);
      capacity := Wrap64(capacity * 2);
      i := i + 1;
    }
    if tankLevel <= 54 {
      TankCapacityFitsLong(tankLevel);
    }
  }

  /**
   * calculateRequiredTankLevel as the source writes it: double a `long`
   * capacity until it reaches `requiredXp`. `fuel` bounds the number of
   * doublings; None means the loop was still running when the fuel ran out.
   */
  function RequiredTankLevelLoop(requiredXp: int, capacity: int, tankLevel: int, fuel: nat): (r: Option<int>)
    ensures r.Some? ==> r.value >= tankLevel
    decreases fuel
  {
    if capacity >= requiredXp then Some(tankLevel)
    else if fuel == 0 then None
    else RequiredTankLevelLoop(requiredXp, Wrap64(capacity * 2), tankLevel + 1, fuel - 1)
  }

  function RequiredTankLevelAsWritten(requiredXp: int, fuel: nat): (r: Option<int>)
    ensures r.Some? ==> r.value >= 1
  {
    RequiredTankLevelLoop(requiredXp, BaseCapacity, 1, fuel)
  }

  lemma {:induction false} LoopNeverReachesLongMax(capacity: int, tankLevel: int, fuel: nat)
    requires IsLong(capacity) && capacity % 2 == 0
    ensures RequiredTankLevelLoop(LongMax, capacity, tankLevel, fuel).None?
    decreases fuel
  {
    if fuel > 0 {
      Wrap64Even(capacity * 2);
      LoopNeverReachesLongMax(Wrap64(capacity * 2), tankLevel + 1, fuel - 1);
    }
  }

  /**
   * Counterexample: for requiredXp = Long.MAX_VALUE the wrapped capacity stays
   * even, hence always below the odd bound, so the source's loop never exits,
   * however many doublings it is given.
   */
  lemma RequiredTankLevelAsWrittenDiverges(fuel: nat)
    ensures RequiredTankLevelAsWritten(LongMax, fuel).None?
  {
    LoopNeverReachesLongMax(BaseCapacity, 1, fuel);
  }

  /**
   * While the doubled capacity still fits a `long` (up to level 54), the
   * source's loop runs exactly like the unbounded one: a level it stops at
   * is the smallest whose capacity holds the XP.
   */
  lemma {:induction false} LoopAgreesWithin54(requiredXp: int, tankLevel: int, fuel: nat)
    requires tankLevel >= 1
    requires tankLevel == 1 || TankCapacity(tankLevel - 1) < requiredXp
    requires RequiredTankLevelLoop(requiredXp, TankCapacity(tankLevel), tankLevel, fuel).Some?
    requires RequiredTankLevelLoop(requiredXp, TankCapacity(tankLevel), tankLevel, fuel).value <= 54
    ensures var l := RequiredTankLevelLoop(requiredXp, TankCapacity(tankLevel), tankLevel, fuel).value;
      TankCapacity(l) >= requiredXp && (l == 1 || TankCapacity(l - 1) < requiredXp)
    decreases fuel
  {
    if TankCapacity(tankLevel) < requiredXp {
      var l := RequiredTankLevelLoop(requiredXp, TankCapacity(tankLevel), tankLevel, fuel).value;
      assert RequiredTankLevelLoop(requiredXp, TankCapacity(tankLevel), tankLevel, fuel)
          == RequiredTankLevelLoop(requiredXp, Wrap64(TankCapacity(tankLevel) * 2), tankLevel + 1, fuel - 1);
      TankCapacityDoubles(tankLevel);
      TankCapacityFitsLong(tankLevel + 1);
      LoopAgreesWithin54(requiredXp, tankLevel + 1, fuel - 1);
    }
  }

  /**
   * The search as written agrees with the intended one whenever it stops at
   * a level up to 54: that level is the smallest whose capacity holds the XP,
   * which is what CalculateRequiredTankLevel returns.
   */
  lemma RequiredTankLevelAsWrittenAgrees(requiredXp: int, fuel: nat)
    requires RequiredTankLevelAsWritten(requiredXp, fuel).Some?
    requires RequiredTankLevelAsWritten(requiredXp, fuel).value <= 54
    ensures var l := RequiredTankLevelAsWritten(requiredXp, fuel).value;
      TankCapacity(l) >= requiredXp && (l == 1 || TankCapacity(l - 1) < requiredXp)
  {
    LoopAgreesWithin54(requiredXp, 1, fuel);
  }

  /**
   * calculateRequiredTankLevel with the doubling done in unbounded integers:
   * the smallest tank level whose capacity holds `requiredXp`.
   */
  method CalculateRequiredTankLevel(requiredXp: int) returns (tankLevel: int)
    ensures tankLevel >= 1
    ensures TankCapacity(tankLevel) >= requiredXp
    ensures tankLevel == 1 || TankCapacity(tankLevel - 1) < requiredXp
    ensures requiredXp <= BaseCapacity ==> tankLevel == 1
  {
    var capacity := BaseCapacity;
    tankLevel := 1;
    while capacity < requiredXp
      invariant tankLevel >= 1
      invariant capacity == TankCapacity(tankLevel)
      invariant tankLevel == 1 || TankCapacity(tankLevel - 1) < requiredXp
      decreases requiredXp - capacity
    {
      TankCapacityDoubles(tankLevel);
      capacity := capacity * 2;
      tankLevel := tankLevel + 1;
    }
  }
}
