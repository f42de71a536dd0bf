/**
 * The capacity of an experience pump with `levels` capacity levels, as both
 * ExperiencePumpCapability classes and ItemExperiencePump.getMaxXpFromNBT
 * compute it: 1000 * 2^(levels - 1), limited to Integer.MAX_VALUE.
 */
module PumpCapacity {
  import opened JavaInt

  /** BASE_XP_PER_LEVEL (XP_PER_LEVEL in the moremod interface). */
  const BaseXpPerLevel: int := 1000

  /** The intended capacity: doubling per level, saturating at Integer.MAX_VALUE. */
  function CappedCapacity(levels: int): (r: int)
    requires levels >= 1
    ensures BaseXpPerLevel <= r <= IntMax
    ensures levels <= 22 ==> r == BaseXpPerLevel * Pow2(levels - 1)
    ensures levels > 22 ==> r == IntMax
  {
    ExactCapacityRange(levels);
    var exact := BaseXpPerLevel * Pow2(levels - 1);
    if exact > IntMax then IntMax else exact
  }

  lemma ExactCapacityRange(levels: int)
    requires levels >= 1
    ensures levels <= 22 ==> BaseXpPerLevel <= BaseXpPerLevel * Pow2(levels - 1) <= IntMax
    ensures levels > 22 ==> BaseXpPerLevel * Pow2(levels - 1) > IntMax
  {
    Pow2Landmarks();
    if levels > 22 {
      Pow2Monotone(22, levels - 1);
    } else {
      Pow2Monotone(levels - 1, 21);
    }
  }

  lemma {:induction false} CappedCapacityMonotone(a: int, b: int)
    requires 1 <= a <= b
    ensures CappedCapacity(a) <= CappedCapacity(b)
  {
    if a <= 22 && b <= 22 {
      Pow2Monotone(a - 1, b - 1);
    }
  }

  /**
   * getMaxXp's computation as the source writes it:
   * `(long) 1000 * (1L << (levels - 1))`, Integer.MAX_VALUE when that exceeds
   * it, otherwise the `(int)` cast. The shift distance is masked to six bits.
   */
  function ShiftedCapacity(levels: int): (r: int)
    ensures 0 <= r <= IntMax
  {
    ShiftedCapacityCases(levels);
    var m := Wrap64(BaseXpPerLevel * ShiftLeftLong(1, levels - 1));
    if m > IntMax then IntMax else Wrap32(m)
  }

  /** The raw value before the range check, in unbounded terms. */
  lemma ShiftedProduct(levels: int)
    ensures Wrap64(BaseXpPerLevel * ShiftLeftLong(1, levels - 1)) ==
      Wrap64(BaseXpPerLevel * Pow2((levels - 1) % 64))
  {
    var p := Pow2((levels - 1) % 64);
    assert ShiftLeftLong(1, levels - 1) == Wrap64(p);
    Wrap64Scale(BaseXpPerLevel, p);
  }

  /**
   * With k = (levels - 1) mod 64: exact for k <= 21, Integer.MAX_VALUE for
   * 22 <= k <= 53, and for k >= 54 the long has wrapped and its low 32 bits
   * are zero, so the result is 0 or Integer.MAX_VALUE.
   */
  lemma ShiftedCapacityCases(levels: int)
    ensures var k := (levels - 1) % 64;
      var m := Wrap64(BaseXpPerLevel * ShiftLeftLong(1, levels - 1));
      var r := if m > IntMax then IntMax else Wrap32(m);
      && (k <= 21 ==> r == BaseXpPerLevel * Pow2(k))
      && (22 <= k <= 53 ==> r == IntMax)
      && (k >= 54 ==> r == 0 || r == IntMax)
  {
    var k := (levels - 1) % 64;
    ShiftedProduct(levels);
    var m := Wrap64(BaseXpPerLevel * Pow2(k));
    if k <= 53 {
      WrapLowExponent(k);
      Pow2Landmarks();
      if k <= 21 {
        Pow2Monotone(k, 21);
      } else {
        Pow2Monotone(22, k);
      }
    } else {
      WrapHighExponent(k);
      Wrap32OfMultiple(m);
    }
  }

  /** Up to 2^53, 1000 * 2^k still fits a long, so the multiplication does not wrap. */
  lemma WrapLowExponent(k: nat)
    requires k <= 53
    ensures Wrap64(BaseXpPerLevel * Pow2(k)) == BaseXpPerLevel * Pow2(k)
  {
    Pow2Landmarks();
    Pow2Monotone(k, 53);
  }

  /** From 2^54 on, the wrapped product is a multiple of 2^32, so its int cast is 0. */
  lemma WrapHighExponent(k: nat)
    requires 54 <= k < 64
    ensures Wrap64(BaseXpPerLevel * Pow2(k)) % TwoTo32 == 0
  {
    var exact := BaseXpPerLevel * Pow2(k);
    var m := Wrap64(exact);
    Pow2Landmarks();
    Pow2Add(32, k - 32);
    var j := (exact - m) / TwoTo64;
    DivisibleTimes(exact - m, TwoTo64);
    assert exact == TwoTo32 * (BaseXpPerLevel * Pow2(k - 32));
    assert m == TwoTo32 * (BaseXpPerLevel * Pow2(k - 32) - j * TwoTo32);
    MultipleOfMod(BaseXpPerLevel * Pow2(k - 32) - j * TwoTo32, TwoTo32);
  }


  lemma MultipleOfMod(q: int, n: int)
    requires n > 0
    ensures (n * q) % n == 0
  {
    ModUnique(n * q, n, q, 0);
  }

  /** For 1..54 levels the source's computation is the intended capped capacity. */
  lemma ShiftedCapacityIsCapped(levels: int)
    requires 1 <= levels <= 54
    ensures ShiftedCapacity(levels) == CappedCapacity(levels)
  {
    assert (levels - 1) % 64 == levels - 1;
    ShiftedCapacityCases(levels);
  }

  /**
   * Counterexample: at 55 levels `1000L << 54` overflows the long and the
   * `(int)` cast keeps only zero bits, so the pump holds nothing; at 65 levels
   * the shift distance 64 is masked to 0 and the capacity drops back to 1000.
   */
  lemma ShiftedCapacityWrapsPast54()
    ensures ShiftedCapacity(55) == 0
    ensures ShiftedCapacity(65) == BaseXpPerLevel
    ensures CappedCapacity(55) == IntMax && CappedCapacity(65) == IntMax
  {
    ShiftedCapacityAt55();
    assert (65 - 1) % 64 == 0;
    ShiftedCapacityCases(65);
  }

  lemma ShiftedCapacityAt55()
    ensures ShiftedCapacity(55) == 0
  {
    Pow2Landmarks();
    ShiftedProduct(55);
    assert (55 - 1) % 64 == 54;
    var m := Wrap64(BaseXpPerLevel * Pow2(54));
    assert BaseXpPerLevel * Pow2(54) == 18014398509481984000;
    Wrap64Literal55();
    assert m < 0;
    ShiftedCapacityCases(55);
  }

  lemma Wrap64Literal55()
    ensures Wrap64(18014398509481984000) == -432345564227567616
  {
    assert 18014398509481984000 % TwoTo64 == 18014398509481984000;
  }
}
