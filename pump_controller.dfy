/**
 * ExperiencePumpController (moremod and rsring trees): scroll-wheel
 * fine-tuning, level/XP conversion, level-based extraction, and moving XP
 * between the player and all scanned tanks. The player is reduced to its
 * total XP (None for a null player); tanks are reduced to TankDistribution.Tank.
 */
module PumpController {
  import opened Wrappers
  import opened JavaInt
  import opened XpHelper
  import opened TankDistribution

  const ModeOff: int := 2
  /** The highest level whose total XP still fits in an int. */
  const MaxConvertibleLevel: int := 21863

  /**
   * processScrollInput: one scroll step moves the amount by a tenth of it
   * (at least 1); scrolling down never goes below 1. The extraction flag
   * plays no part.
   */
  function ProcessScrollInput(scrollDelta: int, isExtraction: bool, baseAmount: int): (r: int)
    ensures scrollDelta == 0 ==> r == baseAmount
    ensures scrollDelta > 0 ==> r == baseAmount + Max(1, JavaDiv(baseAmount, 10)) && r > baseAmount
    ensures scrollDelta < 0 ==> r == Max(1, baseAmount - Max(1, JavaDiv(baseAmount, 10))) && r >= 1
    ensures scrollDelta < 0 && baseAmount > 1 ==> r < baseAmount
  {
    if scrollDelta == 0 then baseAmount
    else
      var adjustment := Max(1, JavaDiv(baseAmount, 10));
      if scrollDelta > 0 then baseAmount + adjustment
      else Max(1, baseAmount - adjustment)
  }

  /**
   * convertLevelToXP (moremod, any real level) as intended: 0 for level <= 0,
   * otherwise the exact total XP of the whole level reached, with levels
   * above 21863 treated as 21863 so that the result fits in an int
   * (ConvertLevelToXpAsWritten is the wrapped value the source computes).
   */
  function ConvertLevelToXp(level: real): (r: int)
    ensures level <= 0.0 ==> r == 0
    ensures level > 0.0 ==> r == ExperienceForLevel(Min(level.Floor, MaxConvertibleLevel))
    ensures 0 <= r <= IntMax
  {
    if level <= 0.0 then 0
    else
      var whole := Min(level.Floor, MaxConvertibleLevel);
      ExperienceFitsIntUpTo21863(whole);
      ExperienceForLevel(whole)
  }

  /** Higher levels never convert to less XP. */
  lemma ConvertLevelToXpMonotone(a: real, b: real)
    requires a <= b
    ensures ConvertLevelToXp(a) <= ConvertLevelToXp(b)
  {
    if a > 0.0 {
      ExperienceMonotone(Min(a.Floor, MaxConvertibleLevel), Min(b.Floor, MaxConvertibleLevel));
    }
  }

  /** A level strictly between two whole levels converts to the lower one's total. */
  lemma ConvertLevelToXpIgnoresFraction(level: real)
    requires level > 0.0
    ensures ConvertLevelToXp(level) == ConvertLevelToXp(level.Floor as real)
  {
  }

  /**
   * convertLevelToXP as written: the same cap at 21863, but the total is
   * getExperienceForLevel's wrapped `int` value.
   */
  function ConvertLevelToXpAsWritten(level: real): (r: int)
    ensures level <= 0.0 ==> r == 0
    ensures IsInt(r)
  {
    if level <= 0.0 then 0
    else ExperienceForLevelAsWritten(Min(level.Floor, MaxConvertibleLevel))
  }

  /**
   * Below level 15466 the cap is enough and the result is the level's total;
   * from 15466 up, including every level the cap clamps to 21863, the result
   * is negative, so it is neither the total nor monotone.
   */
  lemma ConvertLevelToXpAsWrittenWraps(level: real)
    requires level > 0.0
    ensures level < 15466.0 ==> ConvertLevelToXpAsWritten(level) == ConvertLevelToXp(level)
    ensures ConvertLevelToXpAsWritten(15466.0) < 0 < ConvertLevelToXpAsWritten(15465.0)
    ensures level >= 21863.0 ==> ConvertLevelToXpAsWritten(level) == -75705
  {
    ExperienceAsWrittenWraps();
    assert (15466.0).Floor == 15466 && (15465.0).Floor == 15465;
    if level < 15466.0 {
      ExperienceAsWrittenAgrees(level.Floor);
    }
  }

  /**
   * convertLevelToXP (rsring) on whole levels: the fractional part, the
   * only place the two trees differ, is floating point and not modelled.
   */
  function ConvertIntegerLevelToXp(level: int): (r: int)
    ensures level <= 0 ==> r == 0
    ensures 0 < level <= MaxConvertibleLevel ==> r == ExperienceForLevel(level)
    ensures level > MaxConvertibleLevel ==> r == ExperienceForLevel(MaxConvertibleLevel)
    ensures r == ConvertLevelToXp(level as real)
  {
    if level <= 0 then 0
    else
      var whole := Min(level, MaxConvertibleLevel);
      assert (level as real).Floor == level;
      ExperienceForLevel(whole)
  }

  /**
   * calculateLevelBasedExtraction: how much XP the player can give while
   * keeping the total of the target level; 0 for a null player, a negative
   * target, or a player at or below that total.
   */
  function CalculateLevelBasedExtraction(playerXp: Option<int>, targetLevel: int): (r: int)
    ensures r >= 0
    ensures playerXp.None? || targetLevel < 0 ==> r == 0
    ensures playerXp.Some? && targetLevel >= 0 ==>
      var keep := ConvertIntegerLevelToXp(targetLevel);
      (r == 0 <==> playerXp.value <= keep) && (r > 0 ==> playerXp.value - r == keep)
  {
    if playerXp.None? || targetLevel < 0 then 0
    else
      var currentXp := playerXp.value;
      var targetXp := ConvertIntegerLevelToXp(targetLevel);
      if currentXp <= targetXp then 0 else currentXp - targetXp
  }

  /** isTankManagedByController: a pump whose capability exists with a mode other than OFF, while the tank config is enabled. */
  function IsTankManagedByController(isPump: bool, capabilityMode: Option<int>, configEnabled: bool): (r: bool)
    ensures r <==> isPump && capabilityMode.Some? && capabilityMode.value != ModeOff && configEnabled
  {
    if !isPump || capabilityMode.None? then false
    else capabilityMode.value != ModeOff && configEnabled
  }

  /** Sort key for extraction: descending stored XP. */
  function StoredDescending(t: Tank): int { -t.stored }

  /** Sort key for moremod injection: ascending free space. */
  function FreeAscending(t: Tank): int { t.Free() }

  /**
   * extractExperienceFromTanks: tanks sorted fullest first (stably), then
   * drained greedily; the result is what the player receives.
   */
  method ExtractExperienceFromTanks(tanks: seq<Tank>, amount: int) returns (total: int, after: seq<Tank>)
    ensures var order := SortBy(tanks, StoredDescending);
      && multiset(order) == multiset(tanks)
      && (forall i, j :: 0 <= i < j < |order| ==> order[i].stored >= order[j].stored)
      && after == Drained(order, amount)
    ensures total == if amount <= 0 then 0 else Min(amount, SumOf(tanks, PositiveStored))
    ensures 0 <= total
  {
    var order := SortBy(tanks, StoredDescending);
    SortByPermutes(tanks, StoredDescending);
    assert forall i, j :: 0 <= i < j < |order| ==> StoredDescending(order[i]) <= StoredDescending(order[j]);
    total, after := DrainInOrder(order, amount);
    SumOfSortBy(tanks, StoredDescending, PositiveStored);
    SumOfNonNegative(tanks, PositiveStored);
  }

  /**
   * injectExperienceToTanks (moremod): the amount is capped by the player's
   * XP, tanks are sorted by ascending free space (stably) and filled
   * greedily; the result is what the player loses.
   */
  method InjectExperienceToTanks(tanks: seq<Tank>, amount: int, playerXp: int) returns (total: int, after: seq<Tank>)
    ensures var wanted := Min(amount, playerXp);
      && (wanted <= 0 ==> total == 0 && after == tanks)
      && (wanted > 0 ==> after == Filled(SortBy(tanks, FreeAscending), wanted)
                         && total == Min(wanted, SumOf(tanks, PositiveFree)))
    ensures 0 <= total <= Max(0, playerXp)
    ensures var order := SortBy(tanks, FreeAscending);
      && multiset(order) == multiset(tanks)
      && forall i, j :: 0 <= i < j < |order| ==> order[i].Free() <= order[j].Free()
  {
    SortByPermutes(tanks, FreeAscending);
    var order := SortBy(tanks, FreeAscending);
    assert forall i, j :: 0 <= i < j < |order| ==> FreeAscending(order[i]) <= FreeAscending(order[j]);
    var wanted := amount;
    if playerXp < wanted {
      wanted := playerXp;
    }
    if wanted <= 0 {
      return 0, tanks;
    }
    total, after := FillInOrder(order, wanted);
    SumOfSortBy(tanks, FreeAscending, PositiveFree);
    SumOfNonNegative(tanks, PositiveFree);
  }

  /**
   * injectExperienceToTanks (rsring): the same loop over tanks already put in
   * ascending fill-ratio order (that comparator is floating point, so the
   * order is an input here).
   */
  method InjectExperienceInOrder(fillOrder: seq<Tank>, amount: int, playerXp: int) returns (total: int, after: seq<Tank>)
    ensures var wanted := Min(amount, playerXp);
      && (wanted <= 0 ==> total == 0 && after == fillOrder)
      && (wanted > 0 ==> after == Filled(fillOrder, wanted) && total == Min(wanted, SumOf(fillOrder, PositiveFree)))
    ensures 0 <= total <= Max(0, playerXp)
  {
    var wanted := amount;
    if playerXp < wanted {
      wanted := playerXp;
    }
    if wanted <= 0 {
      return 0, fillOrder;
    }
    total, after := FillInOrder(fillOrder, wanted);
    SumOfNonNegative(fillOrder, PositiveFree);
  }

  /**
   * performExperienceOperation (moremod): nothing for a null player or an
   * amount <= 0, otherwise extraction (tanks to player) or injection.
   */
  method PerformExperienceOperation(playerXp: Option<int>, tanks: seq<Tank>, amount: int, isExtraction: bool)
    returns (moved: int, after: seq<Tank>)
    ensures playerXp.None? || amount <= 0 ==> moved == 0 && after == tanks
    ensures playerXp.Some? && amount > 0 && isExtraction ==> moved == Min(amount, SumOf(tanks, PositiveStored))
    ensures playerXp.Some? && amount > 0 && !isExtraction ==>
      moved == (if playerXp.value <= 0 then 0 else Min(Min(amount, playerXp.value), SumOf(tanks, PositiveFree)))
    ensures 0 <= moved && (amount > 0 ==> moved <= amount)
  {
    if playerXp.None? || amount <= 0 {
      return 0, tanks;
    }
    if isExtraction {
      moved, after := ExtractExperienceFromTanks(tanks, amount);
    } else {
      moved, after := InjectExperienceToTanks(tanks, amount, playerXp.value);
    }
  }

  /**
   * performExperienceOperation (rsring): as above, with the injection
   * order given.
   */
  method PerformExperienceOperationInOrder(playerXp: Option<int>, tanks: seq<Tank>, fillOrder: seq<Tank>, amount: int, isExtraction: bool)
    returns (moved: int, after: seq<Tank>)
    ensures playerXp.None? || amount <= 0 ==> moved == 0 && after == tanks
    ensures playerXp.Some? && amount > 0 && isExtraction ==> moved == Min(amount, SumOf(tanks, PositiveStored))
    ensures playerXp.Some? && amount > 0 && !isExtraction ==>
      moved == (if playerXp.value <= 0 then 0 else Min(Min(amount, playerXp.value), SumOf(fillOrder, PositiveFree)))
    ensures 0 <= moved && (amount > 0 ==> moved <= amount)
  {
    if playerXp.None? || amount <= 0 {
      return 0, tanks;
    }
    if isExtraction {
      moved, after := ExtractExperienceFromTanks(tanks, amount);
    } else {
      moved, after := InjectExperienceInOrder(fillOrder, amount, playerXp.value);
    }
  }
}
