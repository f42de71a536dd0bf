/**
 * Vanilla experience arithmetic shared by both package trees: the functions
 * modelled here (the level formulas, the level search, formatExperience) are
 * the same in com.rsring.util.XpHelper and com.moremod.util.XpHelper.
 * `ExperienceForLevel(l)` is the total XP a player holds at the start of level `l`.
 */
module XpHelper {
  import opened Wrappers
  import opened JavaInt
  import opened IntText

  /** getExperienceForLevel: three closed forms split at levels 15 and 30. */
  function ExperienceForLevel(level: int): (r: int)
    ensures r >= 0
    ensures level > 0 ==> r >= 7 * level
  {
    ExperienceDivisionExact(level);
    if level == 0 then 0
    else if 0 < level < 16 then level * (12 + level * 2) / 2
    else if 15 < level < 31 then (level - 15) * (69 + (level - 15) * 5) / 2 + 315
    else (level - 30) * (215 + (level - 30) * 9) / 2 + 1395
  }

  /**
   * Every numerator halved in ExperienceForLevel is even and (for the branch
   * taken) non-negative, so Java's truncating `/` and Dafny's `/` agree; the
   * branch values are quadratics without any rounding.
   */
  lemma ExperienceDivisionExact(level: int)
    ensures 0 < level < 16 ==> level * (12 + level * 2) == 2 * (level * level + 6 * level)
    ensures 15 < level < 31 ==> var m := level - 15;
      m * (69 + m * 5) > 0 && (m * (69 + m * 5)) % 2 == 0
    ensures (level <= 0 || level >= 31) ==> var m := level - 30;
      m * (215 + m * 9) > 0 && (m * (215 + m * 9)) % 2 == 0
  {
    if 15 < level < 31 {
      MidNumeratorEven(level - 15);
    } else if level <= 0 || level >= 31 {
      HighNumeratorEven(level - 30);
    }
  }

  /** The numerator of the middle branch, for m = level - 15 in 1..15. */
  lemma MidNumeratorEven(m: int)
    requires 0 < m < 16
    ensures m * (69 + m * 5) > 0 && (m * (69 + m * 5)) % 2 == 0
  {
    if m % 2 == 0 {
      EvenTimes(m, 69 + m * 5);
    } else {
      EvenTimes(69 + m * 5, m);
    }
    PositiveTimes(m, 69 + m * 5);
  }

  /** The numerator of the last branch, for m = level - 30 outside -29..0. */
  lemma HighNumeratorEven(m: int)
    requires m <= -30 || m >= 1
    ensures m * (215 + m * 9) > 0 && (m * (215 + m * 9)) % 2 == 0
  {
    if m % 2 == 0 {
      EvenTimes(m, 215 + m * 9);
    } else {
      EvenTimes(215 + m * 9, m);
    }
    if m >= 1 {
      PositiveTimes(m, 215 + m * 9);
    } else {
      PositiveTimes(-m, -(215 + m * 9));
      assert m * (215 + m * 9) == (-m) * (-(215 + m * 9));
    }
  }

  lemma EvenTimes(a: int, b: int)
    requires a % 2 == 0
    ensures (a * b) % 2 == 0 && (b * a) % 2 == 0
  {
    var k := a / 2;
    assert a * b == 2 * (k * b);
    assert b * a == a * b;
  }

  lemma PositiveTimes(a: int, b: int)
    requires a > 0 && b > 0
    ensures a * b > 0
  {
  }

  /** The three branches as polynomials, so the step lemma needs no division. */
  lemma ExperienceClosedForm(level: int)
    ensures 0 <= level < 16 ==> ExperienceForLevel(level) == level * level + 6 * level
    ensures 15 < level < 31 ==> 2 * (ExperienceForLevel(level) - 315) == (level - 15) * (69 + (level - 15) * 5)
    ensures level >= 31 ==> 2 * (ExperienceForLevel(level) - 1395) == (level - 30) * (215 + (level - 30) * 9)
  {
    ExperienceDivisionExact(level);
  }

  /** getExperienceLimitOnLevel: the XP needed to go from `level` to `level + 1`. */
  function ExperienceLimitOnLevel(level: int): (r: int)
    ensures level >= 0 ==> r >= 7
    ensures level >= 0 ==> r == ExperienceForLevel(level + 1) - ExperienceForLevel(level)
  {
    ExperienceStep(level);
    if level >= 30 then 112 + (level - 30) * 9
    else if level >= 15 then 37 + (level - 15) * 5
    else 7 + level * 2
  }

  lemma ExperienceStep(level: int)
    ensures level >= 0 ==> (ExperienceForLevel(level + 1) - ExperienceForLevel(level) ==
      if level >= 30 then 112 + (level - 30) * 9
      else if level >= 15 then 37 + (level - 15) * 5
      else 7 + level * 2)
  {
    if level < 0 {
    } else if level < 15 {
      ExperienceStepLow(level);
    } else if level < 30 {
      ExperienceStepMid(level);
    } else {
      ExperienceStepHigh(level);
    }
  }

  lemma ExperienceStepLow(level: int)
    requires 0 <= level < 15
    ensures ExperienceForLevel(level + 1) - ExperienceForLevel(level) == 7 + level * 2
  {
    ExperienceClosedForm(level);
    ExperienceClosedForm(level + 1);
    assert (level + 1) * (level + 1) - level * level == 2 * level + 1;
  }

  lemma ExperienceStepMid(level: int)
    requires 15 <= level < 30
    ensures ExperienceForLevel(level + 1) - ExperienceForLevel(level) == 37 + (level - 15) * 5
  {
    ExperienceClosedForm(level);
    ExperienceClosedForm(level + 1);
    if level > 15 {
      var m := level - 15;
      assert (m + 1) * (69 + (m + 1) * 5) - m * (69 + m * 5) == 10 * m + 74;
    }
  }

  lemma ExperienceStepHigh(level: int)
    requires level >= 30
    ensures ExperienceForLevel(level + 1) - ExperienceForLevel(level) == 112 + (level - 30) * 9
  {
    ExperienceClosedForm(level);
    ExperienceClosedForm(level + 1);
    if level > 30 {
      var m := level - 30;
      assert (m + 1) * (215 + (m + 1) * 9) - m * (215 + m * 9) == 18 * m + 224;
    }
  }

  /** E is strictly increasing on levels >= 0 (so the level search terminates). */
  lemma {:induction false} ExperienceStrictlyIncreasing(a: int, b: int)
    requires 0 <= a < b
    ensures ExperienceForLevel(a) < ExperienceForLevel(b)
  {
    var _ := ExperienceLimitOnLevel(b - 1);
    if a < b - 1 {
      ExperienceStrictlyIncreasing(a, b - 1);
    }
  }

  lemma ExperienceMonotone(a: int, b: int)
    requires 0 <= a <= b
    ensures ExperienceForLevel(a) <= ExperienceForLevel(b)
  {
    if a < b {
      ExperienceStrictlyIncreasing(a, b);
    }
  }

  /**
   * A negative level does not count as "no XP": it falls into the third
   * branch and yields more XP than level 30, so callers must pass level >= 0.
   */
  lemma NegativeLevelExceedsLevelThirty(level: int)
    requires level < 0
    ensures ExperienceForLevel(level) > ExperienceForLevel(30)
  {
    var m := level - 30;
    assert m <= -31 && 215 + m * 9 <= -64;
    assert m * (215 + m * 9) == (-m) * (-(215 + m * 9));
    assert (-m) * (-(215 + m * 9)) >= 31 * 64 by {
      MulMonotone(31, -m, 64, -(215 + m * 9));
    }
  }

  lemma MulMonotone(a: int, b: int, c: int, d: int)
    requires 0 <= a <= b && 0 <= c <= d
    ensures a * c <= b * d
  {
    assert a * c <= b * c;
    assert b * c <= b * d;
  }

  /** The largest level whose total XP still fits in a Java `int` is 21863. */
  lemma ExperienceFitsIntUpTo21863(level: int)
    requires 0 <= level
    ensures level <= 21863 ==> ExperienceForLevel(level) <= IntMax
    ensures level > 21863 ==> ExperienceForLevel(level) > IntMax
  {
    ExperienceClosedForm(21863);
    ExperienceClosedForm(21864);
    assert ExperienceForLevel(21863) == 2147407943;
    assert ExperienceForLevel(21864) == 2147604552;
    if level <= 21863 {
      ExperienceMonotone(level, 21863);
    } else {
      ExperienceMonotone(21864, level);
    }
  }

  /**
   * getExperienceForLevel as Java evaluates it on `int`: every operation
   * keeps its low 32 bits and `/ 2` truncates toward zero.
   */
  function ExperienceForLevelAsWritten(level: int): (r: int)
    requires IsInt(level)
    ensures IsInt(r)
  {
    if level == 0 then 0
    else if 0 < level < 16 then JavaDiv(Wrap32(level * Wrap32(12 + Wrap32(level * 2))), 2)
    else if 15 < level < 31 then
      var m := Wrap32(level - 15);
      Wrap32(JavaDiv(Wrap32(m * Wrap32(69 + Wrap32(m * 5))), 2) + 315)
    else
      var m := Wrap32(level - 30);
      Wrap32(JavaDiv(Wrap32(m * Wrap32(215 + Wrap32(m * 9))), 2) + 1395)
  }

  /** Up to level 15465 no `int` operation of getExperienceForLevel overflows. */
  lemma ExperienceAsWrittenAgrees(level: int)
    requires 0 <= level <= 15465
    ensures ExperienceForLevelAsWritten(level) == ExperienceForLevel(level)
  {
    ExperienceDivisionExact(level);
    if 0 < level < 16 {
      MulMonotone(level, 15, 12 + level * 2, 42);
    } else if 15 < level < 31 {
      var m := level - 15;
      MulMonotone(m, 15, 69 + m * 5, 144);
    } else if level >= 31 {
      var m := level - 30;
      MulMonotone(m, 15435, 215 + m * 9, 139130);
    }
  }

  /**
   * From level 15466 the product in the third branch passes Integer.MAX_VALUE
   * and wraps: the total turns negative, also at level 21863, the cap
   * convertLevelToXP applies.
   */
  lemma ExperienceAsWrittenWraps()
    ensures ExperienceForLevelAsWritten(15465) == ExperienceForLevel(15465) == 1073737170
    ensures ExperienceForLevelAsWritten(15466) == -1073607451
    ensures ExperienceForLevel(15466) == 1073876197
    ensures ExperienceForLevelAsWritten(21863) == -75705
  {
    ExperienceAsWrittenAgrees(15465);
    AsWrittenAt15466();
    AsWrittenAt21863();
  }

  lemma AsWrittenAt15466()
    ensures ExperienceForLevelAsWritten(15466) == -1073607451
  {
    assert Wrap32(15466 - 30) == 15436;
    assert Wrap32(15436 * 9) == 138924;
    assert Wrap32(215 + 138924) == 139139;
    assert Wrap32(15436 * 139139) == -2147217692;
    assert JavaDiv(-2147217692, 2) == -1073608846;
    assert Wrap32(-1073608846 + 1395) == -1073607451;
  }

  lemma AsWrittenAt21863()
    ensures ExperienceForLevelAsWritten(21863) == -75705
  {
    assert Wrap32(21863 - 30) == 21833;
    assert Wrap32(21833 * 9) == 196497;
    assert Wrap32(215 + 196497) == 196712;
    assert Wrap32(21833 * 196712) == -154200;
    assert JavaDiv(-154200, 2) == -77100;
    assert Wrap32(-77100 + 1395) == -75705;
  }

  /**
   * getLevelForExperience as written, over the wrapped totals and with `i++`
   * wrapping, from level `i`: the loop's answer `i - 1`, or None when it has
   * not stopped after `fuel` steps (the Java loop has no bound).
   */
  function LevelSearchAsWritten(x: int, i: int, fuel: nat): (r: Option<int>)
    requires IsInt(x) && IsInt(i)
    ensures r.Some? ==> IsInt(r.value)
    decreases fuel
  {
    if fuel == 0 then None
    else if ExperienceForLevelAsWritten(i) <= x then LevelSearchAsWritten(x, Wrap32(i + 1), fuel - 1)
    else Some(Wrap32(i - 1))
  }

  /** The search only stops before a level whose wrapped total exceeds `x`. */
  lemma {:induction false} LevelSearchAsWrittenStopsAbove(x: int, i: int, fuel: nat)
    requires IsInt(x) && IsInt(i)
    ensures var r := LevelSearchAsWritten(x, i, fuel);
      r.Some? ==> ExperienceForLevelAsWritten(Wrap32(r.value + 1)) > x
    decreases fuel
  {
    if fuel > 0 {
      if ExperienceForLevelAsWritten(i) <= x {
        SearchGoesOn(x, i, fuel);
        LevelSearchAsWrittenStopsAbove(x, Wrap32(i + 1), fuel - 1);
      } else {
        SearchStops(x, i, fuel);
        Wrap32PredSucc(i);
      }
    }
  }

  /** Java's `i - 1` followed by `+ 1` gives back `i`, also across the wrap at Integer.MIN_VALUE. */
  lemma Wrap32PredSucc(i: int)
    requires IsInt(i)
    ensures Wrap32(Wrap32(i - 1) + 1) == i
  {
    if i > IntMin {
      assert Wrap32(i - 1) == i - 1;
    } else {
      assert Wrap32(i - 1) == IntMax;
      assert Wrap32(IntMax + 1) == IntMin;
    }
  }

  /** Below the total of level 15465 the floor level is at most 15464. */
  lemma FloorLevelBelowWrap(x: int)
    requires x < 1073737170
    ensures FloorLevel(x) <= 15464
  {
    var f := FloorLevel(x);
    if f > 15464 {
      ExperienceMonotone(15465, f);
      ExperienceAsWrittenWraps();
    }
  }

  /** Counting up from `i` while the total is at most `x` reaches the floor level. */
  lemma {:induction false} LevelSearchAsWrittenFrom(x: int, i: int, fuel: nat)
    requires IntMin <= x < 1073737170 && FloorLevel(x) <= 15464
    requires 0 <= i <= FloorLevel(x) + 1 && fuel >= FloorLevel(x) + 2 - i
    ensures LevelSearchAsWritten(x, i, fuel) == Some(FloorLevel(x))
    decreases FloorLevel(x) + 1 - i
  {
    var f := FloorLevel(x);
    ExperienceAsWrittenAgrees(i);
    if i <= f {
      ExperienceMonotone(i, f);
      SearchGoesOn(x, i, fuel);
      assert Wrap32(i + 1) == i + 1;
      LevelSearchAsWrittenFrom(x, i + 1, fuel - 1);
    } else {
      SearchStops(x, i, fuel);
      assert Wrap32(i - 1) == f;
    }
  }

  lemma SearchGoesOn(x: int, i: int, fuel: nat)
    requires IsInt(x) && IsInt(i) && fuel > 0 && ExperienceForLevelAsWritten(i) <= x
    ensures LevelSearchAsWritten(x, i, fuel) == LevelSearchAsWritten(x, Wrap32(i + 1), fuel - 1)
  {
  }

  lemma SearchStops(x: int, i: int, fuel: nat)
    requires IsInt(x) && IsInt(i) && fuel > 0 && ExperienceForLevelAsWritten(i) > x
    ensures LevelSearchAsWritten(x, i, fuel) == Some(Wrap32(i - 1))
  {
  }

  /** Below 1073737170 XP (the total at level 15465) the loop as written answers the floor level within 15466 steps. */
  lemma LevelSearchAsWrittenAgrees(x: int, fuel: nat)
    requires IntMin <= x < 1073737170 && fuel >= 15466
    ensures LevelSearchAsWritten(x, 0, fuel) == Some(FloorLevel(x))
  {
    FloorLevelBelowWrap(x);
    LevelSearchAsWrittenFrom(x, 0, fuel);
  }

  /**
   * Between the totals of levels 15465 and 15466 the loop as written does
   * not answer the floor level 15465: the wrapped total of level 15466 is
   * negative, so the loop runs past it.
   */
  lemma LevelSearchAsWrittenMissesFloor(x: int, fuel: nat)
    requires 1073737170 <= x < 1073876197
    ensures FloorLevel(x) == 15465
    ensures LevelSearchAsWritten(x, 0, fuel) != Some(15465)
  {
    ExperienceAsWrittenWraps();
    FloorLevelUnique(x, 15465);
    LevelSearchAsWrittenStopsAbove(x, 0, fuel);
  }

  /** For Integer.MAX_VALUE XP every wrapped total is at most x: the loop as written never ends. */
  lemma {:induction false} LevelSearchAsWrittenDiverges(i: int, fuel: nat)
    requires IsInt(i)
    ensures LevelSearchAsWritten(IntMax, i, fuel) == None
    decreases fuel
  {
    if fuel > 0 {
      LevelSearchAsWrittenDiverges(Wrap32(i + 1), fuel - 1);
    }
  }

  /** The floor level of `x` found by counting up from level `i`. */
  function FloorLevelFrom(x: int, i: nat): (r: int)
    requires i == 0 || ExperienceForLevel(i - 1) <= x
    ensures r >= i - 1
    ensures r >= 0 ==> ExperienceForLevel(r) <= x
    ensures x < ExperienceForLevel(r + 1)
    decreases x - i + 1
  {
    if ExperienceForLevel(i) <= x then
      assert i <= x by {
        if i > 0 { assert ExperienceForLevel(i) >= 7 * i; }
      }
      FloorLevelFrom(x, i + 1)
    else i - 1
  }

  /** The level a player with `x` total XP is at (the floor level); -1 for x < 0. */
  function FloorLevel(x: int): (r: int)
    ensures x < 0 ==> r == -1
    ensures x >= 0 ==> r >= 0 && ExperienceForLevel(r) <= x < ExperienceForLevel(r + 1)
  {
    FloorLevelFrom(x, 0)
  }

  /** The bracket E(L) <= x < E(L+1) determines L. */
  lemma FloorLevelUnique(x: int, level: int)
    requires 0 <= level && ExperienceForLevel(level) <= x < ExperienceForLevel(level + 1)
    ensures FloorLevel(x) == level
  {
    var f := FloorLevel(x);
    if f < level {
      ExperienceMonotone(f + 1, level);
    } else if f > level {
      ExperienceMonotone(level + 1, f);
    }
  }

  /** getLevelForExperience: count up while E(i) <= x, answer i - 1. */
  method LevelForExperience(x: int) returns (r: int)
    ensures x < 0 ==> r == -1
    ensures x >= 0 ==> r >= 0 && ExperienceForLevel(r) <= x < ExperienceForLevel(r + 1)
    ensures r == FloorLevel(x)
  {
    var i := 0;
    while ExperienceForLevel(i) <= x
      invariant i >= 0
      invariant i > 0 ==> ExperienceForLevel(i - 1) <= x
      decreases x - i + 1
    {
      assert i <= x by {
        if i > 0 { assert ExperienceForLevel(i) >= 7 * i; }
      }
      i := i + 1;
    }
    r := i - 1;
    if r >= 0 {
      FloorLevelUnique(x, r);
    }
  }

  /**
   * getExperienceBetweenLevels: 0 for equal levels, otherwise the distance
   * between the two totals; for levels >= 0 it is the XP to climb from the
   * lower level to the higher one.
   */
  function ExperienceBetweenLevels(current: int, target: int): (r: int)
    ensures r >= 0
    ensures current == target ==> r == 0
    ensures 0 <= current <= target ==> r == ExperienceForLevel(target) - ExperienceForLevel(current)
    ensures 0 <= target <= current ==> r == ExperienceForLevel(current) - ExperienceForLevel(target)
  {
    if current == target then 0
    else
      var d := ExperienceForLevel(target) - ExperienceForLevel(current);
      if 0 <= current <= target then ExperienceMonotone(current, target); d
      else if 0 <= target <= current then ExperienceMonotone(target, current); -d
      else if d < 0 then -d else d
  }

  lemma ExperienceBetweenLevelsSymmetric(a: int, b: int)
    ensures ExperienceBetweenLevels(a, b) == ExperienceBetweenLevels(b, a)
  {
  }

  /** formatExperience: "0 XP (0 levels)" for xp <= 0, else "<xp> XP (<floor level> levels)". */
  function FormatExperience(xp: int): (r: string)
    ensures xp <= 0 ==> r == "0 XP (0 levels)"
    ensures xp > 0 ==>
      exists level ::
        && 0 <= level
        && ExperienceForLevel(level) <= xp < ExperienceForLevel(level + 1)
        && r == IntToString(xp) + " XP (" + IntToString(level) + " levels)"
  {
    if xp <= 0 then "0 XP (0 levels)"
    else
      var level := FloorLevel(xp);
      IntToString(xp) + " XP (" + IntToString(level) + " levels)"
  }
}
