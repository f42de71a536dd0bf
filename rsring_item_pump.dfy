/**
 * com.rsring.item.ItemExperiencePump: reading a pump's XP and capacity from
 * its stack NBT, the texture fill level, storing extracted XP with overflow
 * bottles, pumping between player and tank, and absorbing XP orbs and
 * bottles from the surroundings. World entities are reduced to the fields
 * the loops read and write; configuration values are parameters.
 */
module RsringItemPump {
  import opened Wrappers
  import opened JavaInt
  import opened Nbt
  import opened PumpCapacity
  import opened XpHelper
  import Cap = RsringPumpCapability

  const XpTag: string := "ExperiencePumpData"
  const XpPerBottle: int := 36
  const DefaultCapacityLevels: int := 1
  const CapacityLevelsKey: string := "capacityLevels"
  const XpKey: string := "xp"

  const FillLevelEmpty: int := 0
  const FillLevelQuarter: int := 1
  const FillLevelHalf: int := 2
  const FillLevelThreeQuarters: int := 3
  const FillLevelFull: int := 4

  /** The item classes getMaxXpFromNBT tells apart. */
  datatype PumpKind = BasicPump | Tank100 | Tank500 | Tank1000 | Tank2000

  /** An item stack holding a pump: its item, whether it is empty, and its tag compound. */
  datatype PumpStack = PumpStack(kind: PumpKind, isEmpty: bool, tag: Option<Compound>)

  /** getDataFromNBT: the ExperiencePumpData compound, or null. */
  function GetDataFromNbt(stack: Option<PumpStack>): (r: Option<Compound>)
    ensures r.Some? <==> stack.Some? && !stack.value.isEmpty && stack.value.tag.Some? && HasKey(stack.value.tag.value, XpTag)
    ensures r.Some? ==> r.value == GetCompound(stack.value.tag.value, XpTag)
  {
    if stack.None? || stack.value.isEmpty || stack.value.tag.None? || !HasKey(stack.value.tag.value, XpTag) then None
    else Some(GetCompound(stack.value.tag.value, XpTag))
  }

  /** getXpStoredFromNBT: the xp key of the data, 0 when there is none. */
  function GetXpStoredFromNbt(stack: Option<PumpStack>): (r: int)
    ensures GetDataFromNbt(stack).None? ==> r == 0
    ensures GetDataFromNbt(stack).Some? ==> r == GetInteger(GetDataFromNbt(stack).value, XpKey)
  {
    var data := GetDataFromNbt(stack);
    if data.Some? then GetInteger(data.value, XpKey) else 0
  }

  /** getCapacityLevelsFromNBT: the capacityLevels key, 1 when it or the data is missing. */
  function GetCapacityLevelsFromNbt(stack: Option<PumpStack>): (r: int)
    ensures GetDataFromNbt(stack).None? ==> r == DefaultCapacityLevels
    ensures GetDataFromNbt(stack).Some? && !HasKey(GetDataFromNbt(stack).value, CapacityLevelsKey) ==> r == DefaultCapacityLevels
    ensures GetDataFromNbt(stack).Some? && HasKey(GetDataFromNbt(stack).value, CapacityLevelsKey) ==>
      r == GetInteger(GetDataFromNbt(stack).value, CapacityLevelsKey)
  {
    var data := GetDataFromNbt(stack);
    if data.Some? && HasKey(data.value, CapacityLevelsKey) then GetInteger(data.value, CapacityLevelsKey)
    else DefaultCapacityLevels
  }

  /** The fixed capacities of the four special tanks. */
  function SpecialCapacity(kind: PumpKind): (r: Option<int>)
    ensures kind == BasicPump <==> r.None?
  {
    match kind
    case BasicPump => None
    case Tank100 => Some(30970)
    case Tank500 => Some(1045970)
    case Tank1000 => Some(4339720)
    case Tank2000 => Some(17677220)
  }

  /**
   * getMaxXpFromNBT: 1000 for a null stack, the fixed capacity of a special
   * tank, otherwise the capacity-level formula on the unclamped NBT value
   * (exactly 1000 * 2^(levels-1) capped at Integer.MAX_VALUE for 1..54 levels).
   */
  function GetMaxXpFromNbt(stack: Option<PumpStack>): (r: int)
    ensures stack.None? ==> r == BaseXpPerLevel
    ensures stack.Some? && stack.value.kind != BasicPump ==> r == SpecialCapacity(stack.value.kind).value
    ensures stack.Some? && stack.value.kind == BasicPump ==> r == ShiftedCapacity(GetCapacityLevelsFromNbt(stack))
    ensures stack.Some? && stack.value.kind == BasicPump && 1 <= GetCapacityLevelsFromNbt(stack) <= 54 ==>
      r == CappedCapacity(GetCapacityLevelsFromNbt(stack))
    ensures 0 <= r <= IntMax
  {
    if stack.None? then BaseXpPerLevel
    else if stack.value.kind != BasicPump then SpecialCapacity(stack.value.kind).value
    else
      var levels := GetCapacityLevelsFromNbt(stack);
      if 1 <= levels <= 54 then ShiftedCapacityIsCapped(levels); ShiftedCapacity(levels)
      else ShiftedCapacity(levels)
  }

  /** A stack without pump data is an empty level-1 pump: 0 XP of 1000. */
  lemma MissingDataDefaults(kind: PumpKind, isEmpty: bool, tag: Option<Compound>)
    requires GetDataFromNbt(Some(PumpStack(kind, isEmpty, tag))).None?
    ensures GetXpStoredFromNbt(Some(PumpStack(kind, isEmpty, tag))) == 0
    ensures GetCapacityLevelsFromNbt(Some(PumpStack(kind, isEmpty, tag))) == DefaultCapacityLevels
    ensures kind == BasicPump ==> GetMaxXpFromNbt(Some(PumpStack(kind, isEmpty, tag))) == BaseXpPerLevel
  {
    assert Pow2(0) == 1;
  }

  /** hasXp: the stored XP read from NBT is positive. */
  predicate HasXp(stack: Option<PumpStack>)
  {
    GetXpStoredFromNbt(stack) > 0
  }

  lemma DivBelow(a: int, b: int, c: int)
    requires a >= 0 && b > 0
    ensures a / b < c <==> a < c * b
  {
    var q, r := a / b, a % b;
    assert a == q * b + r && 0 <= r < b;
    if q < c {
      assert q * b <= (c - 1) * b by { MulMonotoneRight(q, c - 1, b); }
    } else {
      assert c * b <= q * b by { MulMonotoneRight(c, q, b); }
    }
  }

  lemma MulMonotoneRight(x: int, y: int, b: int)
    requires x <= y && b > 0
    ensures x * b <= y * b
  {
    assert y * b - x * b == (y - x) * b;
    if y > x {
      MulAtLeast(b, y - x);
    }
  }

  /**
   * The fill level for a stored amount and capacity: empty, full at or
   * above 90%, otherwise the band below 30%, 60% or 90% the ratio falls in
   * (computed as stored * 10000 / max in long arithmetic).
   */
  function FillLevel(stored: int, max: int): (r: int)
    ensures FillLevelEmpty <= r <= FillLevelFull
    ensures r == FillLevelEmpty <==> stored <= 0 || max <= 0
    ensures stored > 0 && max > 0 ==>
      && (r == FillLevelQuarter <==> 10 * stored < 3 * max)
      && (r == FillLevelHalf <==> 3 * max <= 10 * stored < 6 * max)
      && (r == FillLevelThreeQuarters <==> 6 * max <= 10 * stored < 9 * max)
      && (r == FillLevelFull <==> 9 * max <= 10 * stored)
  {
    if stored <= 0 || max <= 0 then FillLevelEmpty
    else if stored >= max then FillLevelFull
    else
      var fillRatio := stored * 10000 / max;
      DivBelow(stored * 10000, max, 3000);
      DivBelow(stored * 10000, max, 6000);
      DivBelow(stored * 10000, max, 9000);
      if fillRatio < 3000 then FillLevelQuarter
      else if fillRatio < 6000 then FillLevelHalf
      else if fillRatio < 9000 then FillLevelThreeQuarters
      else FillLevelFull
  }

  /** More XP in the same tank never shows a lower fill level. */
  lemma FillLevelMonotone(a: int, b: int, max: int)
    requires a <= b
    ensures FillLevel(a, max) <= FillLevel(b, max)
  {
  }

  /**
   * getXpFillLevel: from the stack's NBT data when present, otherwise from
   * its capability's (stored, max) when there is one; empty otherwise.
   */
  function GetXpFillLevel(stack: Option<PumpStack>, capability: Option<(int, int)>): (r: int)
    ensures stack.None? || stack.value.isEmpty ==> r == FillLevelEmpty
    ensures GetDataFromNbt(stack).Some? ==> r == FillLevel(GetXpStoredFromNbt(stack), GetMaxXpFromNbt(stack))
    ensures stack.Some? && !stack.value.isEmpty && GetDataFromNbt(stack).None? ==>
      r == (if capability.Some? then FillLevel(capability.value.0, capability.value.1) else FillLevelEmpty)
  {
    if stack.None? || stack.value.isEmpty then FillLevelEmpty
    else if GetDataFromNbt(stack).Some? then FillLevel(GetXpStoredFromNbt(stack), GetMaxXpFromNbt(stack))
    else if capability.Some? then FillLevel(capability.value.0, capability.value.1)
    else FillLevelEmpty
  }

  // -----------------------------------------------------------------------
  // Storing extracted XP and pumping between player and tank
  // -----------------------------------------------------------------------

  /**
   * The overflow bottles storeExtractedXp spawns: one per whole bottle's
   * worth of XP above the capacity, when overflow bottles are enabled.
   */
  function OverflowBottles(stored: int, max: int, amount: int, xpPerBottle: int, enabled: bool): (bottles: int)
    requires xpPerBottle >= 1
    ensures bottles >= 0
    ensures amount <= 0 || stored + amount <= max || !enabled ==> bottles == 0
    ensures bottles * xpPerBottle <= Max(0, stored + amount - max)
    ensures enabled && amount > 0 && stored + amount > max ==> stored + amount - max - bottles * xpPerBottle < xpPerBottle
  {
    if amount <= 0 || stored + amount <= max then 0
    else
      var overflowXp := stored + amount - max;
      var overflowBottles := JavaDiv(overflowXp, xpPerBottle);
      if overflowBottles > 0 && enabled then overflowBottles else 0
  }

  /**
   * storeExtractedXp: the tank keeps min(stored + amount, max); what does not
   * fit becomes overflow bottles (whole bottles only), the rest is lost.
   */
  method StoreExtractedXp(cap: Cap.ExperiencePumpCapability, xpAmount: int, xpPerBottle: int, overflowEnabled: bool)
    returns (bottles: int)
    requires cap.Valid() && xpPerBottle >= 1
    modifies cap
    ensures bottles == OverflowBottles(old(cap.xpStored), old(cap.State().MaxXp()), xpAmount, xpPerBottle, overflowEnabled)
    ensures xpAmount <= 0 ==> cap.State() == old(cap.State())
    ensures xpAmount > 0 ==> cap.State() == old(cap.State()).(xpStored := Min(old(cap.xpStored) + xpAmount, old(cap.State().MaxXp())))
    ensures cap.Valid()
  {
    bottles := 0;
    if xpAmount <= 0 {
      return;
    }
    ghost var s0 := cap.State();
    var currentXp := cap.xpStored;
    var maxXp := cap.State().MaxXp();
    var newXp := currentXp + xpAmount;
    if newXp > maxXp {
      var overflowXp := newXp - maxXp;
      var overflowBottles := JavaDiv(overflowXp, xpPerBottle);
      if overflowBottles > 0 && overflowEnabled {
        bottles := overflowBottles;
      }
      newXp := maxXp;
    }
    assert newXp == Min(currentXp + xpAmount, maxXp) && 0 <= newXp <= maxXp;
    Cap.XpSetterValid(cap.config, s0, newXp);
    cap.SetXpStored(newXp);
    assert cap.State() == s0.(xpStored := newXp);
  }

  /**
   * pumpExperienceBetweenPlayerAndTank: FROM_PLAYER moves the player's XP
   * above the retain level's total into the tank, as far as it has room;
   * TO_PLAYER gives the player up to max(1, rate) XP per call toward that
   * total, as far as the tank holds it. The result is the change to the
   * player's XP; a controller-managed tank is left alone.
   */
  method PumpExperienceBetweenPlayerAndTank(cap: Cap.ExperiencePumpCapability, managed: bool, playerTotal: int, extractionRate: int)
    returns (playerDelta: int)
    requires cap.Valid()
    modifies cap
    ensures cap.Valid()
    ensures cap.State() == old(cap.State()).(xpStored := old(cap.xpStored) - playerDelta)
    ensures managed || cap.mode == Cap.ModeOff ==> playerDelta == 0
    ensures !managed && cap.mode == Cap.ModeFromPlayer ==>
      var excess := playerTotal - ExperienceForLevel(cap.retainLevel);
      var room := old(cap.State().MaxXp()) - old(cap.xpStored);
      playerDelta == -Max(0, Min(excess, room))
    ensures !managed && cap.mode == Cap.ModeToPlayer ==>
      var need := ExperienceForLevel(cap.retainLevel) - playerTotal;
      playerDelta == (if need > 0 then Min(Min(need, Max(1, extractionRate)), old(cap.xpStored)) else 0)
    ensures cap.mode == Cap.ModeFromPlayer && playerDelta < 0 ==> playerTotal + playerDelta >= ExperienceForLevel(cap.retainLevel)
    ensures cap.mode == Cap.ModeToPlayer ==> playerDelta >= 0 && (playerDelta > 0 ==> playerTotal + playerDelta <= ExperienceForLevel(cap.retainLevel))
  {
    playerDelta := 0;
    if managed {
      return;
    }
    var retain := cap.retainLevel;
    var targetXp := ExperienceForLevel(retain);
    if cap.mode == Cap.ModeFromPlayer {
      var excess := playerTotal - targetXp;
      if excess > 0 {
        var canStore := cap.State().MaxXp() - cap.xpStored;
        var take := Min(excess, canStore);
        if take > 0 {
          var added := cap.AddXp(take);
          playerDelta := -take;
        }
      }
    } else if cap.mode == Cap.ModeToPlayer {
      var need := targetXp - playerTotal;
      if need > 0 {
        var perTickLimit := Max(1, extractionRate);
        var toTake := Min(need, perTickLimit);
        var give := cap.TakeXp(toTake);
        playerDelta := give;
      }
    }
  }

  // -----------------------------------------------------------------------
  // Absorbing XP from the surroundings
  // -----------------------------------------------------------------------

  /** The sum of f over a sequence of entities. */
  function Total<T>(s: seq<T>, f: T -> int): int
  {
    if s == [] then 0 else f(s[0]) + Total(s[1..], f)
  }

  /** Replacing one element changes the total by the difference of the two values. */
  lemma {:induction false} TotalUpdate<T>(s: seq<T>, i: int, x: T, f: T -> int)
    requires 0 <= i < |s|
    ensures Total(s[i := x], f) == Total(s, f) - f(s[i]) + f(x)
  {
    if i == 0 {
      assert s[i := x][1..] == s[1..];
    } else {
      TotalUpdate(s[1..], i - 1, x, f);
      assert s[i := x][1..] == s[1..][i - 1 := x];
    }
  }

  /** An XP orb in range: its XP value and whether it is dead. */
  datatype Orb = Orb(xpValue: int, isDead: bool)

  function OrbValue(o: Orb): int { o.xpValue }

  /**
   * What extractXpFromOrbs may do to one orb: nothing, or take part of a live
   * orb's XP (at most the tank's free space as read before the loop) and kill
   * it once its XP is used up.
   */
  predicate OrbDrained(before: Orb, after: Orb, maxCanStore: int)
  {
    after == before ||
    (!before.isDead && 0 <= after.xpValue < before.xpValue &&
     before.xpValue - after.xpValue <= maxCanStore &&
     after.isDead == (after.xpValue == 0))
  }

  /**
   * One iteration of extractXpFromOrbs' loop: once `extracted` reaches
   * maxExtract the loop has stopped; a dead or empty orb is skipped; a live orb
   * gives the smaller of the budget left, its XP and the tank's free space.
   */
  function OrbStep(orb: Orb, extracted: int, maxExtract: int, maxCanStore: int): (r: (Orb, int))
  {
    if extracted >= maxExtract || orb.isDead || orb.xpValue <= 0 then (orb, extracted)
    else
      var amount := Min(maxExtract - extracted, Min(orb.xpValue, maxCanStore));
      if amount > 0 then (Orb(orb.xpValue - amount, orb.xpValue - amount <= 0), extracted + amount)
      else (orb, extracted)
  }

  /** The orbs and the XP extracted after the loop has visited every orb of `orbs`, in order. */
  function OrbsPass(orbs: seq<Orb>, maxExtract: int, maxCanStore: int): (r: (seq<Orb>, int))
    ensures |r.0| == |orbs|
  {
    if orbs == [] then ([], 0)
    else
      var p := OrbsPass(orbs[..|orbs| - 1], maxExtract, maxCanStore);
      var st := OrbStep(orbs[|orbs| - 1], p.1, maxExtract, maxCanStore);
      (p.0 + [st.0], st.1)
  }

  /** What one orb can give when the budget is not the limit: its XP, at most the free space. */
  function OrbAvailable(orb: Orb, maxCanStore: int): (r: int)
    ensures r >= 0
  {
    if orb.isDead || orb.xpValue <= 0 then 0 else Max(0, Min(orb.xpValue, maxCanStore))
  }

  function OrbsAvailable(orbs: seq<Orb>, maxCanStore: int): (r: int)
    ensures r >= 0
  {
    if orbs == [] then 0 else OrbsAvailable(orbs[..|orbs| - 1], maxCanStore) + OrbAvailable(orbs[|orbs| - 1], maxCanStore)
  }

  /**
   * The loop is greedy: it extracts the smaller of the budget and what all
   * the orbs can give, each orb capped by the free space.
   */
  lemma {:induction false} OrbsPassTotal(orbs: seq<Orb>, maxExtract: int, maxCanStore: int)
    ensures OrbsPass(orbs, maxExtract, maxCanStore).1 == Min(Max(0, maxExtract), OrbsAvailable(orbs, maxCanStore))
  {
    if orbs != [] {
      OrbsPassTotal(orbs[..|orbs| - 1], maxExtract, maxCanStore);
    }
  }

  /** Once the budget is used up, the orbs not yet visited stay as they are. */
  lemma {:induction false} OrbsPassSettled(orbs: seq<Orb>, i: nat, maxExtract: int, maxCanStore: int)
    requires i <= |orbs|
    requires OrbsPass(orbs[..i], maxExtract, maxCanStore).1 >= maxExtract
    ensures OrbsPass(orbs, maxExtract, maxCanStore) ==
      (OrbsPass(orbs[..i], maxExtract, maxCanStore).0 + orbs[i..], OrbsPass(orbs[..i], maxExtract, maxCanStore).1)
  {
    if i == |orbs| {
      assert orbs[..i] == orbs;
      var p := OrbsPass(orbs, maxExtract, maxCanStore);
      assert p.0 + orbs[i..] == p.0;
    } else {
      var n := |orbs| - 1;
      assert orbs[..n][..i] == orbs[..i];
      OrbsPassSettled(orbs[..n], i, maxExtract, maxCanStore);
      var p := OrbsPass(orbs[..n], maxExtract, maxCanStore);
      assert OrbStep(orbs[n], p.1, maxExtract, maxCanStore) == (orbs[n], p.1);
      assert orbs[..n][i..] + [orbs[n]] == orbs[i..];
      assert p.0 + [orbs[n]] == OrbsPass(orbs[..i], maxExtract, maxCanStore).0 + orbs[i..];
    }
  }

  /**
   * extractXpFromOrbs: walks the orbs in order until maxExtract XP has been
   * taken. The tank's free space is read from the capability, which the loop
   * does not update, so each orb is bounded by the same free space.
   */
  method ExtractXpFromOrbs(orbs: array<Orb>, maxExtract: int, maxCanStore: int) returns (extracted: int)
    modifies orbs
    ensures (orbs[..], extracted) == OrbsPass(old(orbs[..]), maxExtract, maxCanStore)
  {
    ghost var orig := orbs[..];
    extracted := 0;
    var i := 0;
    while i < orbs.Length
      invariant 0 <= i <= orbs.Length
      invariant orbs[..] == OrbsPass(orig[..i], maxExtract, maxCanStore).0 + orig[i..]
      invariant extracted == OrbsPass(orig[..i], maxExtract, maxCanStore).1
    {
      ghost var done := OrbsPass(orig[..i], maxExtract, maxCanStore).0;
      OrbsPassStep(orig, i, maxExtract, maxCanStore);
      Splice(done, orig[i..], orig[i]);
      assert orbs[i] == orig[i];
      if extracted >= maxExtract {
        break;
      }
      var orb := orbs[i];
      if orb.isDead || orb.xpValue <= 0 {
        assert OrbStep(orb, extracted, maxExtract, maxCanStore) == (orb, extracted);
        i := i + 1;
        continue;
      }
      var amount := Min(maxExtract - extracted, Min(orb.xpValue, maxCanStore));
      if amount > 0 {
        var drained := Orb(orb.xpValue - amount, orb.xpValue - amount <= 0);
        OrbStepTakes(orb, extracted, maxExtract, maxCanStore, amount);
        Splice(done, orig[i..], drained);
        orbs[i] := drained;
        extracted := extracted + amount;
      } else {
        assert OrbStep(orb, extracted, maxExtract, maxCanStore) == (orb, extracted);
      }
      i := i + 1;
    }
    if i < orbs.Length {
      OrbsPassSettled(orig, i, maxExtract, maxCanStore);
      assert orbs[..] == OrbsPass(orig, maxExtract, maxCanStore).0;
      assert extracted == OrbsPass(orig, maxExtract, maxCanStore).1;
    } else {
      assert orig[..i] == orig && orig[i..] == [];
      assert orbs[..] == OrbsPass(orig, maxExtract, maxCanStore).0 + [];
      assert extracted == OrbsPass(orig, maxExtract, maxCanStore).1;
    }
    ghost var r := OrbsPass(orig, maxExtract, maxCanStore);
    assert orbs[..] == r.0 && extracted == r.1;
    assert r == (r.0, r.1);
  }

  /** Writing x over the first element of `rest` right after `done`. */
  lemma Splice<T>(done: seq<T>, rest: seq<T>, x: T)
    requires rest != []
    ensures (done + rest)[|done| := x] == (done + [x]) + rest[1..]
    ensures done + rest == (done + [rest[0]]) + rest[1..]
  {
    assert rest == [rest[0]] + rest[1..];
  }

  /** A live orb below the budget gives `amount` when that is positive. */
  lemma OrbStepTakes(orb: Orb, extracted: int, maxExtract: int, maxCanStore: int, amount: int)
    requires extracted < maxExtract && !orb.isDead && orb.xpValue > 0
    requires amount == Min(maxExtract - extracted, Min(orb.xpValue, maxCanStore)) && amount > 0
    ensures OrbStep(orb, extracted, maxExtract, maxCanStore) ==
      (Orb(orb.xpValue - amount, orb.xpValue - amount <= 0), extracted + amount)
  {
  }

  /** The pass over one more orb is the pass so far and one OrbStep. */
  lemma OrbsPassStep(orbs: seq<Orb>, i: nat, maxExtract: int, maxCanStore: int)
    requires i < |orbs|
    ensures var p := OrbsPass(orbs[..i], maxExtract, maxCanStore);
      var st := OrbStep(orbs[i], p.1, maxExtract, maxCanStore);
      OrbsPass(orbs[..i + 1], maxExtract, maxCanStore) == (p.0 + [st.0], st.1)
  {
    assert orbs[..i + 1][..i] == orbs[..i];
  }

  lemma TotalSnoc<T>(s: seq<T>, x: T, f: T -> int)
    ensures Total(s + [x], f) == Total(s, f) + f(x)
  {
    TotalUpdate(s + [x], |s|, x, f);
    assert s + [x] == (s + [x])[|s| := x];
    if s == [] {
      assert s + [x] == [x];
    } else {
      assert (s + [x])[1..] == s[1..] + [x];
      TotalSnoc(s[1..], x, f);
    }
  }

  /**
   * What the loop does to the orbs: it extracts between 0 and the budget,
   * exactly the XP the orbs lose, and each orb is untouched or drained by at
   * most the free space, dying when it is emptied.
   */
  lemma {:induction false} OrbsPassDrains(orbs: seq<Orb>, maxExtract: int, maxCanStore: int)
    ensures var r := OrbsPass(orbs, maxExtract, maxCanStore);
      && 0 <= r.1 <= Max(0, maxExtract)
      && (maxCanStore <= 0 ==> r.1 == 0 && r.0 == orbs)
      && Total(orbs, OrbValue) - Total(r.0, OrbValue) == r.1
      && forall j :: 0 <= j < |orbs| ==> OrbDrained(orbs[j], r.0[j], maxCanStore)
  {
    if orbs != [] {
      var n := |orbs| - 1;
      OrbsPassDrains(orbs[..n], maxExtract, maxCanStore);
      var p := OrbsPass(orbs[..n], maxExtract, maxCanStore);
      var st := OrbStep(orbs[n], p.1, maxExtract, maxCanStore);
      TotalSnoc(orbs[..n], orbs[n], OrbValue);
      TotalSnoc(p.0, st.0, OrbValue);
      assert orbs[..n] + [orbs[n]] == orbs;
      var r := OrbsPass(orbs, maxExtract, maxCanStore);
      assert r.0 == p.0 + [st.0];
      forall j | 0 <= j < |orbs|
        ensures OrbDrained(orbs[j], r.0[j], maxCanStore)
      {
        if j < n {
          assert r.0[j] == p.0[j] && orbs[j] == orbs[..n][j];
        }
      }
    }
  }

  /**
   * How one stack of XP bottles is converted against the free space: whole
   * bottles first, then one more bottle for a partial remainder. The result is
   * (XP taken, bottles consumed).
   */
  function BottleYield(count: int, free: int, xpPerBottle: int): (r: (int, int))
    requires count > 0 && free > 0 && xpPerBottle >= 1
    ensures r.0 == Min(count * xpPerBottle, free)
    ensures 1 <= r.1 <= count
    ensures (r.1 - 1) * xpPerBottle < r.0 <= r.1 * xpPerBottle
    ensures r.1 < count ==> r.0 == free
  {
    var maxBottles := free / xpPerBottle;
    var partial := free % xpPerBottle;
    var convert := Min(count, maxBottles);
    var rest := count - convert;
    var canStore := free - convert * xpPerBottle;
    BottleYieldFacts(count, free, xpPerBottle);
    if partial > 0 && rest > 0 && canStore > 0 then
      (convert * xpPerBottle + Min(partial, canStore), convert + 1)
    else
      (convert * xpPerBottle, convert)
  }

  lemma BottleYieldFacts(count: int, free: int, xpPerBottle: int)
    requires count > 0 && free > 0 && xpPerBottle >= 1
    ensures var maxBottles := free / xpPerBottle;
      free == maxBottles * xpPerBottle + free % xpPerBottle && 0 <= free % xpPerBottle < xpPerBottle &&
      maxBottles >= 0 &&
      (count <= maxBottles ==> count * xpPerBottle <= free) &&
      (count > maxBottles ==> free < count * xpPerBottle) &&
      (count - 1) * xpPerBottle == count * xpPerBottle - xpPerBottle &&
      (maxBottles - 1) * xpPerBottle == maxBottles * xpPerBottle - xpPerBottle &&
      (maxBottles + 1) * xpPerBottle == maxBottles * xpPerBottle + xpPerBottle
  {
    var maxBottles := free / xpPerBottle;
    DivBounds(free, xpPerBottle);
    if count <= maxBottles {
      MulMonotoneRight(count, maxBottles, xpPerBottle);
    } else {
      MulMonotoneRight(maxBottles + 1, count, xpPerBottle);
    }
  }

  /** A dropped item entity: whether it holds XP bottles, its stack size, and whether it is dead. */
  datatype ItemEntity = ItemEntity(isBottle: bool, count: int, isDead: bool)

  function StackCount(e: ItemEntity): int { e.count }

  /**
   * What extractXpFromBottleItems may do to one entity: nothing, or consume
   * the bottles BottleYield takes from a live, non-empty bottle stack and kill
   * the entity once its stack is used up.
   */
  predicate BottlesDrained(before: ItemEntity, after: ItemEntity, maxCanStore: int, xpPerBottle: int)
    requires xpPerBottle >= 1
  {
    after == before ||
    (before.isBottle && !before.isDead && before.count > 0 && maxCanStore > 0 &&
     var used := BottleYield(before.count, maxCanStore, xpPerBottle).1;
     after == ItemEntity(true, before.count - used, before.count - used <= 0))
  }

  /**
   * One iteration of extractXpFromBottleItems' loop: once the running total
   * reaches maxExtract, or the tank has no room, nothing more changes; a dead,
   * empty or non-bottle entity is skipped; a live bottle stack is converted
   * by BottleYield, shrinks by the bottles used and dies when it is used up.
   */
  function BottleStep(e: ItemEntity, extracted: int, currentExtracted: int, maxExtract: int, maxCanStore: int, xpPerBottle: int)
    : (r: (ItemEntity, int))
    requires xpPerBottle >= 1
  {
    if currentExtracted + extracted >= maxExtract || e.isDead || !e.isBottle || e.count <= 0 || maxCanStore <= 0 then (e, extracted)
    else
      var y := BottleYield(e.count, maxCanStore, xpPerBottle);
      (ItemEntity(true, e.count - y.1, e.count - y.1 <= 0), extracted + y.0)
  }

  /** The entities and the XP gained after the loop has visited every entity of `items`, in order. */
  function BottlesPass(items: seq<ItemEntity>, currentExtracted: int, maxExtract: int, maxCanStore: int, xpPerBottle: int)
    : (r: (seq<ItemEntity>, int))
    requires xpPerBottle >= 1
    ensures |r.0| == |items|
  {
    if items == [] then ([], 0)
    else
      var p := BottlesPass(items[..|items| - 1], currentExtracted, maxExtract, maxCanStore, xpPerBottle);
      var st := BottleStep(items[|items| - 1], p.1, currentExtracted, maxExtract, maxCanStore, xpPerBottle);
      (p.0 + [st.0], st.1)
  }

  /** The XP every live bottle stack would yield against the free space, added up. */
  function BottlesAvailable(items: seq<ItemEntity>, maxCanStore: int, xpPerBottle: int): (r: int)
    requires xpPerBottle >= 1
    ensures r >= 0
  {
    if items == [] then 0
    else
      var e := items[|items| - 1];
      BottlesAvailable(items[..|items| - 1], maxCanStore, xpPerBottle) +
      (if e.isDead || !e.isBottle || e.count <= 0 || maxCanStore <= 0 then 0
       else BottleYield(e.count, maxCanStore, xpPerBottle).0)
  }

  /**
   * A pass that ends below the budget has converted every live bottle stack,
   * each by its full BottleYield; the XP gained never shrinks along the pass.
   */
  lemma {:induction false} BottlesPassAll(items: seq<ItemEntity>, currentExtracted: int, maxExtract: int, maxCanStore: int, xpPerBottle: int)
    requires xpPerBottle >= 1
    ensures var r := BottlesPass(items, currentExtracted, maxExtract, maxCanStore, xpPerBottle);
      currentExtracted + r.1 < maxExtract ==> r.1 == BottlesAvailable(items, maxCanStore, xpPerBottle)
    ensures items != [] ==>
      BottlesPass(items[..|items| - 1], currentExtracted, maxExtract, maxCanStore, xpPerBottle).1 <=
      BottlesPass(items, currentExtracted, maxExtract, maxCanStore, xpPerBottle).1
  {
    if items != [] {
      var n := |items| - 1;
      BottlesPassAll(items[..n], currentExtracted, maxExtract, maxCanStore, xpPerBottle);
      var p := BottlesPass(items[..n], currentExtracted, maxExtract, maxCanStore, xpPerBottle);
      var e := items[n];
      assert BottlesAvailable(items, maxCanStore, xpPerBottle) == BottlesAvailable(items[..n], maxCanStore, xpPerBottle) +
        (if e.isDead || !e.isBottle || e.count <= 0 || maxCanStore <= 0 then 0 else BottleYield(e.count, maxCanStore, xpPerBottle).0);
      assert BottlesPass(items, currentExtracted, maxExtract, maxCanStore, xpPerBottle).1 ==
        BottleStep(e, p.1, currentExtracted, maxExtract, maxCanStore, xpPerBottle).1;
    }
  }

  /** Once the budget is used up or the tank has no room, the entities not yet visited stay as they are. */
  lemma {:induction false} BottlesPassSettled(items: seq<ItemEntity>, i: nat, currentExtracted: int, maxExtract: int, maxCanStore: int, xpPerBottle: int)
    requires xpPerBottle >= 1 && i <= |items|
    requires currentExtracted + BottlesPass(items[..i], currentExtracted, maxExtract, maxCanStore, xpPerBottle).1 >= maxExtract
             || maxCanStore <= 0
    ensures BottlesPass(items, currentExtracted, maxExtract, maxCanStore, xpPerBottle) ==
      (BottlesPass(items[..i], currentExtracted, maxExtract, maxCanStore, xpPerBottle).0 + items[i..],
       BottlesPass(items[..i], currentExtracted, maxExtract, maxCanStore, xpPerBottle).1)
  {
    if i == |items| {
      assert items[..i] == items;
      var p := BottlesPass(items, currentExtracted, maxExtract, maxCanStore, xpPerBottle);
      assert p.0 + items[i..] == p.0;
    } else {
      var n := |items| - 1;
      assert items[..n][..i] == items[..i];
      BottlesPassSettled(items[..n], i, currentExtracted, maxExtract, maxCanStore, xpPerBottle);
      var p := BottlesPass(items[..n], currentExtracted, maxExtract, maxCanStore, xpPerBottle);
      assert BottleStep(items[n], p.1, currentExtracted, maxExtract, maxCanStore, xpPerBottle) == (items[n], p.1);
      assert items[..n][i..] + [items[n]] == items[i..];
      assert p.0 + [items[n]] == BottlesPass(items[..i], currentExtracted, maxExtract, maxCanStore, xpPerBottle).0 + items[i..];
    }
  }

  /**
   * What the loop does to the entities: nothing once the budget is used up or
   * the tank is full; otherwise the XP gained stays below budget plus free
   * space and within the worth of the bottles consumed, and each entity is
   * untouched or drained by BottleYield.
   */
  lemma BottlesPassDrains(items: seq<ItemEntity>, currentExtracted: int, maxExtract: int, maxCanStore: int, xpPerBottle: int)
    requires xpPerBottle >= 1
    ensures var r := BottlesPass(items, currentExtracted, maxExtract, maxCanStore, xpPerBottle);
      && r.1 >= 0
      && (currentExtracted >= maxExtract || maxCanStore <= 0 ==> r.1 == 0 && r.0 == items)
      && (r.1 == 0 || currentExtracted + r.1 < maxExtract + maxCanStore)
      && r.1 <= xpPerBottle * (Total(items, StackCount) - Total(r.0, StackCount))
      && forall j :: 0 <= j < |items| ==> BottlesDrained(items[j], r.0[j], maxCanStore, xpPerBottle)
  {
    BottlesPassBelow(items, currentExtracted, maxExtract, maxCanStore, xpPerBottle);
    BottlesPassWorth(items, currentExtracted, maxExtract, maxCanStore, xpPerBottle);
    BottlesPassEach(items, currentExtracted, maxExtract, maxCanStore, xpPerBottle);
  }

  /** The XP bounds of BottlesPassDrains, by induction over the entities. */
  lemma {:induction false} BottlesPassBelow(items: seq<ItemEntity>, currentExtracted: int, maxExtract: int, maxCanStore: int, xpPerBottle: int)
    requires xpPerBottle >= 1
    ensures var r := BottlesPass(items, currentExtracted, maxExtract, maxCanStore, xpPerBottle);
      && r.1 >= 0
      && (currentExtracted >= maxExtract || maxCanStore <= 0 ==> r.1 == 0 && r.0 == items)
      && (r.1 == 0 || currentExtracted + r.1 < maxExtract + maxCanStore)
  {
    if items != [] {
      var n := |items| - 1;
      BottlesPassBelow(items[..n], currentExtracted, maxExtract, maxCanStore, xpPerBottle);
      var p := BottlesPass(items[..n], currentExtracted, maxExtract, maxCanStore, xpPerBottle);
      var st := BottleStep(items[n], p.1, currentExtracted, maxExtract, maxCanStore, xpPerBottle);
      BottleStepBelow(items[n], p.1, currentExtracted, maxExtract, maxCanStore, xpPerBottle);
      assert BottlesPass(items, currentExtracted, maxExtract, maxCanStore, xpPerBottle) == (p.0 + [st.0], st.1);
      assert items[..n] + [items[n]] == items;
    }
  }

  /** One BottleStep keeps the bounds of BottlesPassBelow. */
  lemma BottleStepBelow(e: ItemEntity, extracted: int, currentExtracted: int, maxExtract: int, maxCanStore: int, xpPerBottle: int)
    requires xpPerBottle >= 1 && extracted >= 0
    requires extracted == 0 || currentExtracted + extracted < maxExtract + maxCanStore
    ensures var st := BottleStep(e, extracted, currentExtracted, maxExtract, maxCanStore, xpPerBottle);
      && st.1 >= 0
      && (currentExtracted >= maxExtract || maxCanStore <= 0 ==> st == (e, extracted))
      && (st.1 == 0 || currentExtracted + st.1 < maxExtract + maxCanStore)
  {
  }

  /** The XP gained is within the worth of the bottles consumed, by induction over the entities. */
  lemma {:induction false} BottlesPassWorth(items: seq<ItemEntity>, currentExtracted: int, maxExtract: int, maxCanStore: int, xpPerBottle: int)
    requires xpPerBottle >= 1
    ensures var r := BottlesPass(items, currentExtracted, maxExtract, maxCanStore, xpPerBottle);
      r.1 <= xpPerBottle * (Total(items, StackCount) - Total(r.0, StackCount))
  {
    if items != [] {
      var n := |items| - 1;
      BottlesPassWorth(items[..n], currentExtracted, maxExtract, maxCanStore, xpPerBottle);
      var p := BottlesPass(items[..n], currentExtracted, maxExtract, maxCanStore, xpPerBottle);
      var st := BottleStep(items[n], p.1, currentExtracted, maxExtract, maxCanStore, xpPerBottle);
      assert BottlesPass(items, currentExtracted, maxExtract, maxCanStore, xpPerBottle) == (p.0 + [st.0], st.1);
      TotalSnoc(items[..n], items[n], StackCount);
      TotalSnoc(p.0, st.0, StackCount);
      assert items[..n] + [items[n]] == items;
      var consumed := Total(items[..n], StackCount) - Total(p.0, StackCount);
      if st.0 != items[n] || st.1 != p.1 {
        var y := BottleYield(items[n].count, maxCanStore, xpPerBottle);
        WorthAdds(xpPerBottle, p.1, consumed, y.0, y.1);
      } else {
        assert Total(items, StackCount) - Total(p.0 + [st.0], StackCount) == consumed;
      }
    }
  }

  /** Each entity after the pass is its own or drained by BottleYield, by induction over the entities. */
  lemma {:induction false} BottlesPassEach(items: seq<ItemEntity>, currentExtracted: int, maxExtract: int, maxCanStore: int, xpPerBottle: int)
    requires xpPerBottle >= 1
    ensures var r := BottlesPass(items, currentExtracted, maxExtract, maxCanStore, xpPerBottle);
      forall j :: 0 <= j < |items| ==> BottlesDrained(items[j], r.0[j], maxCanStore, xpPerBottle)
  {
    if items != [] {
      var n := |items| - 1;
      BottlesPassEach(items[..n], currentExtracted, maxExtract, maxCanStore, xpPerBottle);
      var p := BottlesPass(items[..n], currentExtracted, maxExtract, maxCanStore, xpPerBottle);
      var r := BottlesPass(items, currentExtracted, maxExtract, maxCanStore, xpPerBottle);
      assert r.0 == p.0 + [BottleStep(items[n], p.1, currentExtracted, maxExtract, maxCanStore, xpPerBottle).0];
      forall j | 0 <= j < |items|
        ensures BottlesDrained(items[j], r.0[j], maxCanStore, xpPerBottle)
      {
        if j < n {
          assert r.0[j] == p.0[j] && items[j] == items[..n][j];
        }
      }
    }
  }

  /**
   * extractXpFromBottleItems: converts XP-bottle stacks lying in range, stack
   * by stack, until the running total reaches maxExtract. A stack is converted
   * against the free space read from the unchanged capability, so one stack
   * can carry the total past maxExtract.
   */
  method ExtractXpFromBottleItems(items: array<ItemEntity>, maxExtract: int, currentExtracted: int, maxCanStore: int, xpPerBottle: int)
    returns (extracted: int)
    requires xpPerBottle >= 1
    modifies items
    ensures (items[..], extracted) == BottlesPass(old(items[..]), currentExtracted, maxExtract, maxCanStore, xpPerBottle)
  {
    ghost var orig := items[..];
    extracted := 0;
    var i := 0;
    while i < items.Length
      invariant 0 <= i <= items.Length
      invariant items[..] == BottlesPass(orig[..i], currentExtracted, maxExtract, maxCanStore, xpPerBottle).0 + orig[i..]
      invariant extracted == BottlesPass(orig[..i], currentExtracted, maxExtract, maxCanStore, xpPerBottle).1
    {
      ghost var done := BottlesPass(orig[..i], currentExtracted, maxExtract, maxCanStore, xpPerBottle).0;
      BottlesPassStep(orig, i, currentExtracted, maxExtract, maxCanStore, xpPerBottle);
      Splice(done, orig[i..], orig[i]);
      assert items[i] == orig[i];
      if currentExtracted + extracted >= maxExtract {
        break;
      }
      var entity := items[i];
      if entity.isDead || !entity.isBottle || entity.count <= 0 {
        assert BottleStep(entity, extracted, currentExtracted, maxExtract, maxCanStore, xpPerBottle) == (entity, extracted);
        i := i + 1;
        continue;
      }
      if maxCanStore <= 0 {
        break;
      }
      var taken := BottleYield(entity.count, maxCanStore, xpPerBottle);
      var left := entity.count - taken.1;
      var drained := ItemEntity(true, left, left <= 0);
      BottleStepTakes(entity, extracted, currentExtracted, maxExtract, maxCanStore, xpPerBottle, drained, taken.0);
      Splice(done, orig[i..], drained);
      items[i] := drained;
      extracted := extracted + taken.0;
      i := i + 1;
    }
    if i < items.Length {
      BottlesPassSettled(orig, i, currentExtracted, maxExtract, maxCanStore, xpPerBottle);
    } else {
      assert orig[..i] == orig && orig[i..] == [];
      assert items[..] == BottlesPass(orig, currentExtracted, maxExtract, maxCanStore, xpPerBottle).0 + [];
    }
    ghost var r := BottlesPass(orig, currentExtracted, maxExtract, maxCanStore, xpPerBottle);
    assert items[..] == r.0 && extracted == r.1;
    assert r == (r.0, r.1);
  }

  /** A live bottle stack below the budget, with room in the tank, is converted by BottleYield. */
  lemma BottleStepTakes(e: ItemEntity, extracted: int, currentExtracted: int, maxExtract: int, maxCanStore: int, xpPerBottle: int,
                        drained: ItemEntity, gained: int)
    requires xpPerBottle >= 1 && currentExtracted + extracted < maxExtract
    requires !e.isDead && e.isBottle && e.count > 0 && maxCanStore > 0
    requires var y := BottleYield(e.count, maxCanStore, xpPerBottle);
      drained == ItemEntity(true, e.count - y.1, e.count - y.1 <= 0) && gained == y.0
    ensures BottleStep(e, extracted, currentExtracted, maxExtract, maxCanStore, xpPerBottle) == (drained, extracted + gained)
  {
  }

  /** The pass over one more entity is the pass so far and one BottleStep. */
  lemma BottlesPassStep(items: seq<ItemEntity>, i: nat, currentExtracted: int, maxExtract: int, maxCanStore: int, xpPerBottle: int)
    requires xpPerBottle >= 1 && i < |items|
    ensures var p := BottlesPass(items[..i], currentExtracted, maxExtract, maxCanStore, xpPerBottle);
      var st := BottleStep(items[i], p.1, currentExtracted, maxExtract, maxCanStore, xpPerBottle);
      BottlesPass(items[..i + 1], currentExtracted, maxExtract, maxCanStore, xpPerBottle) == (p.0 + [st.0], st.1)
  {
    assert items[..i + 1][..i] == items[..i];
  }

  /** XP within the worth of the bottles consumed so far stays within it after one more stack. */
  lemma WorthAdds(xpPerBottle: int, extracted: int, consumed: int, gained: int, used: int)
    requires extracted <= xpPerBottle * consumed && gained <= used * xpPerBottle
    ensures extracted + gained <= xpPerBottle * (consumed + used)
  {
  }

  function DeadFlag(isDead: bool): int { if isDead then 1 else 0 }

  /**
   * One iteration of extractXpFromThrownBottles' loop: once the running total
   * reaches maxExtract nothing more changes; a dead bottle is skipped; a live
   * one is absorbed (killed) for the smaller of one bottle's worth, the budget
   * left and the free space, when that is positive.
   */
  function ThrownStep(dead: bool, extracted: int, currentExtracted: int, maxExtract: int, maxCanStore: int, xpPerBottle: int)
    : (r: (bool, int))
  {
    if currentExtracted + extracted >= maxExtract || dead then (dead, extracted)
    else
      var canTake := Min(xpPerBottle, Min(maxExtract - (currentExtracted + extracted), maxCanStore));
      if canTake > 0 then (true, extracted + canTake) else (dead, extracted)
  }

  /** The dead flags and the XP gained after the loop has visited every thrown bottle, in order. */
  function ThrownPass(thrownDead: seq<bool>, currentExtracted: int, maxExtract: int, maxCanStore: int, xpPerBottle: int)
    : (r: (seq<bool>, int))
    ensures |r.0| == |thrownDead|
  {
    if thrownDead == [] then ([], 0)
    else
      var p := ThrownPass(thrownDead[..|thrownDead| - 1], currentExtracted, maxExtract, maxCanStore, xpPerBottle);
      var st := ThrownStep(thrownDead[|thrownDead| - 1], p.1, currentExtracted, maxExtract, maxCanStore, xpPerBottle);
      (p.0 + [st.0], st.1)
  }

  /** What the live thrown bottles can give when the budget is not the limit. */
  function ThrownAvailable(thrownDead: seq<bool>, maxCanStore: int, xpPerBottle: int): (r: int)
    ensures r >= 0
  {
    if thrownDead == [] then 0
    else
      ThrownAvailable(thrownDead[..|thrownDead| - 1], maxCanStore, xpPerBottle) +
      (if thrownDead[|thrownDead| - 1] then 0 else Max(0, Min(xpPerBottle, maxCanStore)))
  }

  /**
   * The loop is greedy: it gains the smaller of the budget left and what the
   * live thrown bottles can give, each at most one bottle's worth and the free space.
   */
  lemma {:induction false} ThrownPassTotal(thrownDead: seq<bool>, currentExtracted: int, maxExtract: int, maxCanStore: int, xpPerBottle: int)
    ensures ThrownPass(thrownDead, currentExtracted, maxExtract, maxCanStore, xpPerBottle).1 ==
      Min(Max(0, maxExtract - currentExtracted), ThrownAvailable(thrownDead, maxCanStore, xpPerBottle))
  {
    if thrownDead != [] {
      ThrownPassTotal(thrownDead[..|thrownDead| - 1], currentExtracted, maxExtract, maxCanStore, xpPerBottle);
    }
  }

  /** Once the budget is used up, the bottles not yet visited stay as they are. */
  lemma {:induction false} ThrownPassSettled(thrownDead: seq<bool>, i: nat, currentExtracted: int, maxExtract: int, maxCanStore: int, xpPerBottle: int)
    requires i <= |thrownDead|
    requires currentExtracted + ThrownPass(thrownDead[..i], currentExtracted, maxExtract, maxCanStore, xpPerBottle).1 >= maxExtract
    ensures ThrownPass(thrownDead, currentExtracted, maxExtract, maxCanStore, xpPerBottle) ==
      (ThrownPass(thrownDead[..i], currentExtracted, maxExtract, maxCanStore, xpPerBottle).0 + thrownDead[i..],
       ThrownPass(thrownDead[..i], currentExtracted, maxExtract, maxCanStore, xpPerBottle).1)
  {
    if i == |thrownDead| {
      assert thrownDead[..i] == thrownDead;
      var p := ThrownPass(thrownDead, currentExtracted, maxExtract, maxCanStore, xpPerBottle);
      assert p.0 + thrownDead[i..] == p.0;
    } else {
      var n := |thrownDead| - 1;
      assert thrownDead[..n][..i] == thrownDead[..i];
      ThrownPassSettled(thrownDead[..n], i, currentExtracted, maxExtract, maxCanStore, xpPerBottle);
      var p := ThrownPass(thrownDead[..n], currentExtracted, maxExtract, maxCanStore, xpPerBottle);
      assert ThrownStep(thrownDead[n], p.1, currentExtracted, maxExtract, maxCanStore, xpPerBottle) == (thrownDead[n], p.1);
      assert thrownDead[..n][i..] + [thrownDead[n]] == thrownDead[i..];
      assert p.0 + [thrownDead[n]] == ThrownPass(thrownDead[..i], currentExtracted, maxExtract, maxCanStore, xpPerBottle).0 + thrownDead[i..];
    }
  }

  /**
   * What the loop does to the thrown bottles: the XP gained stays within the
   * budget left, nothing happens when the tank has no room, every bottle
   * absorbed is killed and gives 1..xpPerBottle XP, and none is revived.
   */
  lemma ThrownPassAbsorbs(thrownDead: seq<bool>, currentExtracted: int, maxExtract: int, maxCanStore: int, xpPerBottle: int)
    requires xpPerBottle >= 1
    ensures var r := ThrownPass(thrownDead, currentExtracted, maxExtract, maxCanStore, xpPerBottle);
      && 0 <= r.1 <= Max(0, maxExtract - currentExtracted)
      && (maxCanStore <= 0 ==> r.1 == 0 && r.0 == thrownDead)
      && (var killed := Total(r.0, DeadFlag) - Total(thrownDead, DeadFlag);
          killed <= r.1 <= killed * xpPerBottle)
      && forall j :: 0 <= j < |thrownDead| ==> thrownDead[j] ==> r.0[j]
  {
    ThrownPassBelow(thrownDead, currentExtracted, maxExtract, maxCanStore, xpPerBottle);
    ThrownPassWorth(thrownDead, currentExtracted, maxExtract, maxCanStore, xpPerBottle);
    ThrownPassKeepsDead(thrownDead, currentExtracted, maxExtract, maxCanStore, xpPerBottle);
  }

  /** The XP stays within the budget left, by induction over the thrown bottles. */
  lemma {:induction false} ThrownPassBelow(thrownDead: seq<bool>, currentExtracted: int, maxExtract: int, maxCanStore: int, xpPerBottle: int)
    requires xpPerBottle >= 1
    ensures var r := ThrownPass(thrownDead, currentExtracted, maxExtract, maxCanStore, xpPerBottle);
      && 0 <= r.1 <= Max(0, maxExtract - currentExtracted)
      && (maxCanStore <= 0 ==> r.1 == 0 && r.0 == thrownDead)
  {
    if thrownDead != [] {
      var n := |thrownDead| - 1;
      ThrownPassBelow(thrownDead[..n], currentExtracted, maxExtract, maxCanStore, xpPerBottle);
      var p := ThrownPass(thrownDead[..n], currentExtracted, maxExtract, maxCanStore, xpPerBottle);
      var st := ThrownStep(thrownDead[n], p.1, currentExtracted, maxExtract, maxCanStore, xpPerBottle);
      assert ThrownPass(thrownDead, currentExtracted, maxExtract, maxCanStore, xpPerBottle) == (p.0 + [st.0], st.1);
      assert thrownDead[..n] + [thrownDead[n]] == thrownDead;
    }
  }

  /** Each bottle killed gave between 1 and xpPerBottle XP, by induction over the thrown bottles. */
  lemma {:induction false} ThrownPassWorth(thrownDead: seq<bool>, currentExtracted: int, maxExtract: int, maxCanStore: int, xpPerBottle: int)
    requires xpPerBottle >= 1
    ensures var r := ThrownPass(thrownDead, currentExtracted, maxExtract, maxCanStore, xpPerBottle);
      var killed := Total(r.0, DeadFlag) - Total(thrownDead, DeadFlag);
      killed <= r.1 <= killed * xpPerBottle
  {
    if thrownDead != [] {
      var n := |thrownDead| - 1;
      ThrownPassWorth(thrownDead[..n], currentExtracted, maxExtract, maxCanStore, xpPerBottle);
      var p := ThrownPass(thrownDead[..n], currentExtracted, maxExtract, maxCanStore, xpPerBottle);
      var st := ThrownStep(thrownDead[n], p.1, currentExtracted, maxExtract, maxCanStore, xpPerBottle);
      assert ThrownPass(thrownDead, currentExtracted, maxExtract, maxCanStore, xpPerBottle) == (p.0 + [st.0], st.1);
      TotalSnoc(thrownDead[..n], thrownDead[n], DeadFlag);
      TotalSnoc(p.0, st.0, DeadFlag);
      assert thrownDead[..n] + [thrownDead[n]] == thrownDead;
      var killed := Total(p.0, DeadFlag) - Total(thrownDead[..n], DeadFlag);
      assert (killed + 1) * xpPerBottle == killed * xpPerBottle + xpPerBottle;
    }
  }

  /** A bottle already dead stays dead, by induction over the thrown bottles. */
  lemma {:induction false} ThrownPassKeepsDead(thrownDead: seq<bool>, currentExtracted: int, maxExtract: int, maxCanStore: int, xpPerBottle: int)
    ensures var r := ThrownPass(thrownDead, currentExtracted, maxExtract, maxCanStore, xpPerBottle);
      forall j :: 0 <= j < |thrownDead| ==> thrownDead[j] ==> r.0[j]
  {
    if thrownDead != [] {
      var n := |thrownDead| - 1;
      ThrownPassKeepsDead(thrownDead[..n], currentExtracted, maxExtract, maxCanStore, xpPerBottle);
      var p := ThrownPass(thrownDead[..n], currentExtracted, maxExtract, maxCanStore, xpPerBottle);
      var r := ThrownPass(thrownDead, currentExtracted, maxExtract, maxCanStore, xpPerBottle);
      assert r.0 == p.0 + [ThrownStep(thrownDead[n], p.1, currentExtracted, maxExtract, maxCanStore, xpPerBottle).0];
      forall j | 0 <= j < |thrownDead| && thrownDead[j]
        ensures r.0[j]
      {
        if j < n {
          assert r.0[j] == p.0[j] && thrownDead[j] == thrownDead[..n][j];
        }
      }
    }
  }

  /**
   * extractXpFromThrownBottles: each live thrown bottle in range is absorbed
   * whole, for up to one bottle's worth of XP, while the running total stays
   * within maxExtract.
   */
  method ExtractXpFromThrownBottles(thrownDead: array<bool>, maxExtract: int, currentExtracted: int, maxCanStore: int, xpPerBottle: int)
    returns (extracted: int)
    requires xpPerBottle >= 1
    modifies thrownDead
    ensures (thrownDead[..], extracted) == ThrownPass(old(thrownDead[..]), currentExtracted, maxExtract, maxCanStore, xpPerBottle)
  {
    ghost var orig := thrownDead[..];
    extracted := 0;
    var i := 0;
    while i < thrownDead.Length
      invariant 0 <= i <= thrownDead.Length
      invariant thrownDead[..] == ThrownPass(orig[..i], currentExtracted, maxExtract, maxCanStore, xpPerBottle).0 + orig[i..]
      invariant extracted == ThrownPass(orig[..i], currentExtracted, maxExtract, maxCanStore, xpPerBottle).1
    {
      ghost var done := ThrownPass(orig[..i], currentExtracted, maxExtract, maxCanStore, xpPerBottle).0;
      ThrownPassStep(orig, i, currentExtracted, maxExtract, maxCanStore, xpPerBottle);
      Splice(done, orig[i..], orig[i]);
      assert thrownDead[i] == orig[i];
      if currentExtracted + extracted >= maxExtract {
        break;
      }
      if thrownDead[i] {
        i := i + 1;
        continue;
      }
      var canTake := Min(xpPerBottle, Min(maxExtract - (currentExtracted + extracted), maxCanStore));
      if canTake > 0 {
        ThrownStepTakes(orig[i], extracted, currentExtracted, maxExtract, maxCanStore, xpPerBottle, canTake);
        Splice(done, orig[i..], true);
        extracted := extracted + canTake;
        thrownDead[i] := true;
      }
      i := i + 1;
    }
    if i < thrownDead.Length {
      ThrownPassSettled(orig, i, currentExtracted, maxExtract, maxCanStore, xpPerBottle);
    } else {
      assert orig[..i] == orig && orig[i..] == [];
      assert thrownDead[..] == ThrownPass(orig, currentExtracted, maxExtract, maxCanStore, xpPerBottle).0 + [];
    }
    ghost var r := ThrownPass(orig, currentExtracted, maxExtract, maxCanStore, xpPerBottle);
    assert thrownDead[..] == r.0 && extracted == r.1;
    assert r == (r.0, r.1);
  }

  /** A live thrown bottle below the budget is absorbed when it can give something. */
  lemma ThrownStepTakes(dead: bool, extracted: int, currentExtracted: int, maxExtract: int, maxCanStore: int, xpPerBottle: int, canTake: int)
    requires !dead && currentExtracted + extracted < maxExtract
    requires canTake == Min(xpPerBottle, Min(maxExtract - (currentExtracted + extracted), maxCanStore)) && canTake > 0
    ensures ThrownStep(dead, extracted, currentExtracted, maxExtract, maxCanStore, xpPerBottle) == (true, extracted + canTake)
  {
  }

  /** The pass over one more thrown bottle is the pass so far and one ThrownStep. */
  lemma ThrownPassStep(thrownDead: seq<bool>, i: nat, currentExtracted: int, maxExtract: int, maxCanStore: int, xpPerBottle: int)
    requires i < |thrownDead|
    ensures var p := ThrownPass(thrownDead[..i], currentExtracted, maxExtract, maxCanStore, xpPerBottle);
      var st := ThrownStep(thrownDead[i], p.1, currentExtracted, maxExtract, maxCanStore, xpPerBottle);
      ThrownPass(thrownDead[..i + 1], currentExtracted, maxExtract, maxCanStore, xpPerBottle) == (p.0 + [st.0], st.1)
  {
    assert thrownDead[..i + 1][..i] == thrownDead[..i];
  }

  /** The XP budget of one extraction: the rate times the interval (at least 1). */
  function Budget(baseRate: int, interval: int): int
  {
    baseRate * Max(1, interval)
  }

  /** The surroundings after one extraction with room left: the orbs, then the bottle stacks, then the thrown bottles. */
  datatype Surroundings = Surroundings(orbs: seq<Orb>, items: seq<ItemEntity>, thrownDead: seq<bool>, total: int)

  /**
   * The three passes of extractXpFromSurroundings in order: the bottle passes
   * run only when bottle extraction is enabled and the running total is still
   * below the budget.
   */
  function SurroundingsPass(orbs: seq<Orb>, items: seq<ItemEntity>, thrownDead: seq<bool>,
                            maxExtract: int, maxCanStore: int, extractBottles: bool, xpPerBottle: int): (r: Surroundings)
    requires xpPerBottle >= 1
  {
    var o := OrbsPass(orbs, maxExtract, maxCanStore);
    var b := if o.1 < maxExtract && extractBottles
             then BottlesPass(items, o.1, maxExtract, maxCanStore, xpPerBottle) else (items, 0);
    var t := if o.1 + b.1 < maxExtract && extractBottles
             then ThrownPass(thrownDead, o.1 + b.1, maxExtract, maxCanStore, xpPerBottle) else (thrownDead, 0);
    Surroundings(o.0, b.0, t.0, o.1 + b.1 + t.1)
  }

  /**
   * What one extraction amounts to: a non-negative total, at least the XP the
   * orbs lost, below budget plus free space; bottles are only touched when
   * bottle extraction is enabled.
   */
  lemma SurroundingsPassBounds(orbs: seq<Orb>, items: seq<ItemEntity>, thrownDead: seq<bool>,
                               maxExtract: int, maxCanStore: int, extractBottles: bool, xpPerBottle: int)
    requires xpPerBottle >= 1
    ensures var r := SurroundingsPass(orbs, items, thrownDead, maxExtract, maxCanStore, extractBottles, xpPerBottle);
      && r.total >= 0
      && (!extractBottles ==> r.items == items && r.thrownDead == thrownDead)
      && (r.total == 0 || r.total < maxExtract + maxCanStore)
      && Total(orbs, OrbValue) - Total(r.orbs, OrbValue) <= r.total
  {
    var o := OrbsPass(orbs, maxExtract, maxCanStore);
    assert 0 <= o.1 <= Max(0, maxExtract) && (maxCanStore <= 0 ==> o.1 == 0)
        && Total(orbs, OrbValue) - Total(o.0, OrbValue) == o.1 by {
      OrbsPassDrains(orbs, maxExtract, maxCanStore);
    }
    var runB := o.1 < maxExtract && extractBottles;
    var b := if runB then BottlesPass(items, o.1, maxExtract, maxCanStore, xpPerBottle) else (items, 0);
    assert b.1 >= 0 && (maxCanStore <= 0 ==> b.1 == 0) && (b.1 == 0 || o.1 + b.1 < maxExtract + maxCanStore) by {
      if runB {
        BottlesPassDrains(items, o.1, maxExtract, maxCanStore, xpPerBottle);
      }
    }
    var runT := o.1 + b.1 < maxExtract && extractBottles;
    var t := if runT then ThrownPass(thrownDead, o.1 + b.1, maxExtract, maxCanStore, xpPerBottle) else (thrownDead, 0);
    assert 0 <= t.1 && (maxCanStore <= 0 ==> t.1 == 0) && (runT ==> o.1 + b.1 + t.1 <= maxExtract) by {
      if runT {
        ThrownPassAbsorbs(thrownDead, o.1 + b.1, maxExtract, maxCanStore, xpPerBottle);
      }
    }
  }

  /**
   * extractXpFromSurroundings: nothing when the tank is full; otherwise orbs,
   * then (when bottle extraction is enabled and the budget rate * interval is
   * not yet used up) dropped bottle stacks, then thrown bottles. The capability
   * is only read; the caller stores the total.
   */
  method ExtractXpFromSurroundings(cap: Cap.ExperiencePumpCapability, orbs: array<Orb>, items: array<ItemEntity>, thrownDead: array<bool>,
                                   baseRate: int, interval: int, extractBottles: bool, xpPerBottle: int)
    returns (total: int)
    requires xpPerBottle >= 1
    modifies orbs, items, thrownDead
    ensures cap.xpStored >= cap.State().MaxXp() ==>
      total == 0 && orbs[..] == old(orbs[..]) && items[..] == old(items[..]) && thrownDead[..] == old(thrownDead[..])
    ensures cap.xpStored < cap.State().MaxXp() ==>
      Surroundings(orbs[..], items[..], thrownDead[..], total) ==
      SurroundingsPass(old(orbs[..]), old(items[..]), old(thrownDead[..]), Budget(baseRate, interval),
                       cap.State().MaxXp() - cap.xpStored, extractBottles, xpPerBottle)
  {
    if cap.xpStored >= cap.State().MaxXp() {
      return 0;
    }
    total := ExtractWithRoom(orbs, items, thrownDead, Budget(baseRate, interval),
                             cap.State().MaxXp() - cap.xpStored, extractBottles, xpPerBottle);
  }

  /** SurroundingsPass put together from the results of its three passes. */
  lemma SurroundingsPassOf(orbs: seq<Orb>, items: seq<ItemEntity>, thrownDead: seq<bool>,
                           maxExtract: int, maxCanStore: int, extractBottles: bool, xpPerBottle: int,
                           o: (seq<Orb>, int), b: (seq<ItemEntity>, int), t: (seq<bool>, int))
    requires xpPerBottle >= 1
    requires o == OrbsPass(orbs, maxExtract, maxCanStore)
    requires b == if o.1 < maxExtract && extractBottles
                  then BottlesPass(items, o.1, maxExtract, maxCanStore, xpPerBottle) else (items, 0)
    requires t == if o.1 + b.1 < maxExtract && extractBottles
                  then ThrownPass(thrownDead, o.1 + b.1, maxExtract, maxCanStore, xpPerBottle) else (thrownDead, 0)
    ensures SurroundingsPass(orbs, items, thrownDead, maxExtract, maxCanStore, extractBottles, xpPerBottle)
      == Surroundings(o.0, b.0, t.0, o.1 + b.1 + t.1)
  {
  }

  /** The three extraction passes of extractXpFromSurroundings once the tank has room. */
  method ExtractWithRoom(orbs: array<Orb>, items: array<ItemEntity>, thrownDead: array<bool>,
                         maxExtract: int, maxCanStore: int, extractBottles: bool, xpPerBottle: int)
    returns (total: int)
    requires xpPerBottle >= 1
    modifies orbs, items, thrownDead
    ensures Surroundings(orbs[..], items[..], thrownDead[..], total) ==
      SurroundingsPass(old(orbs[..]), old(items[..]), old(thrownDead[..]), maxExtract, maxCanStore, extractBottles, xpPerBottle)
  {
    ghost var o0, i0, t0 := orbs[..], items[..], thrownDead[..];
    total := ExtractXpFromOrbs(orbs, maxExtract, maxCanStore);
    ghost var o := OrbsPass(o0, maxExtract, maxCanStore);
    assert orbs[..] == o.0 && total == o.1;
    ghost var b := (i0, 0);
    if total < maxExtract && extractBottles {
      var fromItems := ExtractXpFromBottleItems(items, maxExtract, total, maxCanStore, xpPerBottle);
      b := BottlesPass(i0, o.1, maxExtract, maxCanStore, xpPerBottle);
      total := total + fromItems;
    }
    assert orbs[..] == o.0 && items[..] == b.0 && total == o.1 + b.1;
    ghost var t := (t0, 0);
    if total < maxExtract && extractBottles {
      var fromThrown := ExtractXpFromThrownBottles(thrownDead, maxExtract, total, maxCanStore, xpPerBottle);
      t := ThrownPass(t0, o.1 + b.1, maxExtract, maxCanStore, xpPerBottle);
      total := total + fromThrown;
    }
    assert orbs[..] == o.0 && items[..] == b.0 && thrownDead[..] == t.0 && total == o.1 + b.1 + t.1;
    SurroundingsPassOf(o0, i0, t0, maxExtract, maxCanStore, extractBottles, xpPerBottle, o, b, t);
  }

  /**
   * Every pass bounds each entity by the free space read once before the
   * loops, and the bottle passes start from that same free space again, so one
   * extraction can take more than the tank has room for: with 10 XP of room
   * and two live 10-XP orbs the orbs give 20, and storeExtractedXp keeps 10.
   */
  lemma SurroundingsPassOverfills()
    ensures var r := SurroundingsPass([Orb(10, false), Orb(10, false)], [], [], 100, 10, false, XpPerBottle);
      && r.orbs == [Orb(0, true), Orb(0, true)]
      && r.total == 20
      && Min(990 + r.total, 1000) == 1000
      && OverflowBottles(990, 1000, r.total, XpPerBottle, true) == 0
  {
    var orbs := [Orb(10, false), Orb(10, false)];
    var first := [Orb(10, false)];
    assert orbs[..1] == first && first[..0] == [];
    var p0 := OrbsPass([], 100, 10);
    assert p0 == ([], 0);
    OrbStepTakes(Orb(10, false), 0, 100, 10, 10);
    var p1 := OrbsPass(first, 100, 10);
    assert p1 == ([] + [Orb(0, true)], 10);
    OrbStepTakes(Orb(10, false), 10, 100, 10, 10);
    assert OrbsPass(orbs, 100, 10) == (p1.0 + [Orb(0, true)], 20);
    assert JavaDiv(10, XpPerBottle) == 0;
  }

  /**
   * The passes as evidently intended: each entity is bounded by the free
   * space that is left after what the passes have taken so far.
   */
  function OrbsPassLive(orbs: seq<Orb>, maxExtract: int, room: int): (r: (seq<Orb>, int))
    ensures |r.0| == |orbs|
    ensures 0 <= r.1 <= Max(0, room)
  {
    if orbs == [] then ([], 0)
    else
      var p := OrbsPassLive(orbs[..|orbs| - 1], maxExtract, room);
      var st := OrbStep(orbs[|orbs| - 1], p.1, maxExtract, room - p.1);
      (p.0 + [st.0], st.1)
  }

  function BottlesPassLive(items: seq<ItemEntity>, currentExtracted: int, maxExtract: int, room: int, xpPerBottle: int)
    : (r: (seq<ItemEntity>, int))
    requires xpPerBottle >= 1 && currentExtracted >= 0
    ensures |r.0| == |items|
    ensures 0 <= r.1 && currentExtracted + r.1 <= Max(currentExtracted, room)
  {
    if items == [] then ([], 0)
    else
      var p := BottlesPassLive(items[..|items| - 1], currentExtracted, maxExtract, room, xpPerBottle);
      var st := BottleStep(items[|items| - 1], p.1, currentExtracted, maxExtract,
                           room - (currentExtracted + p.1), xpPerBottle);
      (p.0 + [st.0], st.1)
  }

  function ThrownPassLive(thrownDead: seq<bool>, currentExtracted: int, maxExtract: int, room: int, xpPerBottle: int)
    : (r: (seq<bool>, int))
    requires currentExtracted >= 0
    ensures |r.0| == |thrownDead|
    ensures 0 <= r.1 && currentExtracted + r.1 <= Max(currentExtracted, room)
  {
    if thrownDead == [] then ([], 0)
    else
      var p := ThrownPassLive(thrownDead[..|thrownDead| - 1], currentExtracted, maxExtract, room, xpPerBottle);
      var st := ThrownStep(thrownDead[|thrownDead| - 1], p.1, currentExtracted, maxExtract,
                           room - (currentExtracted + p.1), xpPerBottle);
      (p.0 + [st.0], st.1)
  }

  /** extractXpFromSurroundings with the free space re-read after every entity. */
  function SurroundingsPassLive(orbs: seq<Orb>, items: seq<ItemEntity>, thrownDead: seq<bool>,
                                maxExtract: int, room: int, extractBottles: bool, xpPerBottle: int): (r: Surroundings)
    requires xpPerBottle >= 1
    ensures 0 <= r.total <= Max(0, room)
    ensures !extractBottles ==> r.items == items && r.thrownDead == thrownDead
  {
    var o := OrbsPassLive(orbs, maxExtract, room);
    var b := if o.1 < maxExtract && extractBottles
             then BottlesPassLive(items, o.1, maxExtract, room, xpPerBottle) else (items, 0);
    var t := if o.1 + b.1 < maxExtract && extractBottles
             then ThrownPassLive(thrownDead, o.1 + b.1, maxExtract, room, xpPerBottle) else (thrownDead, 0);
    Surroundings(o.0, b.0, t.0, o.1 + b.1 + t.1)
  }

  /**
   * With the free space re-read, one extraction never takes more than the
   * tank has room for, so storing it loses nothing and spawns no overflow
   * bottle.
   */
  lemma SurroundingsPassLiveFits(orbs: seq<Orb>, items: seq<ItemEntity>, thrownDead: seq<bool>, stored: int, max: int,
                                 maxExtract: int, extractBottles: bool, xpPerBottle: int, overflowEnabled: bool)
    requires xpPerBottle >= 1
    ensures var r := SurroundingsPassLive(orbs, items, thrownDead, maxExtract, max - stored, extractBottles, xpPerBottle);
      && 0 <= r.total <= Max(0, max - stored)
      && (stored <= max ==> stored + r.total <= max)
      && OverflowBottles(stored, max, r.total, xpPerBottle, overflowEnabled) == 0
  {
  }

  /** On the example of SurroundingsPassOverfills the corrected pass takes the first orb only. */
  lemma SurroundingsPassLiveTakesRoom()
    ensures SurroundingsPassLive([Orb(10, false), Orb(10, false)], [], [], 100, 10, false, XpPerBottle)
      == Surroundings([Orb(0, true), Orb(10, false)], [], [], 10)
  {
    var orbs := [Orb(10, false), Orb(10, false)];
    var o := OrbsPassLive(orbs, 100, 10);
    assert o == ([Orb(0, true), Orb(10, false)], 10) by {
      var first := [Orb(10, false)];
      assert orbs[..1] == first && first[..0] == [];
      var p0 := OrbsPassLive([], 100, 10);
      assert p0 == ([], 0);
      OrbStepTakes(Orb(10, false), 0, 100, 10, 10);
      var p1 := OrbsPassLive(first, 100, 10);
      assert p1 == ([] + [Orb(0, true)], 10);
      assert OrbStep(Orb(10, false), 10, 100, 0) == (Orb(10, false), 10);
      assert o == (p1.0 + [Orb(10, false)], 10);
      assert p1.0 + [Orb(10, false)] == [Orb(0, true), Orb(10, false)];
    }
  }

}
