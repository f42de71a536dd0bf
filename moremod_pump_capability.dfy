/**
 * com.moremod.capability.ExperiencePumpCapability: the same tank state as the
 * rsring tree without the fixed capacity, with a hard 1000-level cap and
 * fixed defaults (mode OFF, retain level 10, mending off).
 */
module MoremodPumpCapability {
  import opened Wrappers
  import opened JavaInt
  import opened Nbt
  import opened PumpCapacity

  const ModeFromPlayer: int := 0
  const ModeToPlayer: int := 1
  const ModeOff: int := 2
  const DefaultCapacityLevels: int := 1
  const MaxCapacityLevels: int := 1000
  const MinCapacityLevels: int := 1
  const MinRetainLevel: int := 0
  const DefaultRetainLevel: int := 10

  const XpKey: string := "xp"
  const CapacityLevelsKey: string := "capacityLevels"
  const ModeKey: string := "mode"
  const RetainLevelKey: string := "retainLevel"
  const MendingKey: string := "mending"

  /** The five fields of one capability instance. */
  datatype PumpState = PumpState(
    xpStored: int,
    capacityLevels: int,
    mode: int,
    retainLevel: int,
    useForMending: bool)
  {
    /**
     * getMaxXp: 1000 * 2^(levels-1) saturating at Integer.MAX_VALUE, for any
     * number of levels (the corrected form of the source's shift).
     */
    function MaxXp(): (r: int)
      ensures r >= 0
      ensures capacityLevels >= 1 ==> BaseXpPerLevel <= r && r == CappedCapacity(capacityLevels)
    {
      if capacityLevels >= 1 then CappedCapacity(capacityLevels) else BaseXpPerLevel
    }

    predicate Valid() {
      && MinCapacityLevels <= capacityLevels <= MaxCapacityLevels
      && 0 <= xpStored <= MaxXp()
      && ModeFromPlayer <= mode <= ModeOff
      && retainLevel >= MinRetainLevel
    }

    /** setXpStored: the stored XP clamped to [0, getMaxXp()]. */
    function WithXpStored(xp: int): (r: PumpState)
      ensures r.xpStored == Clamp(xp, 0, MaxXp())
      ensures r.(xpStored := xpStored) == this
    {
      this.(xpStored := Clamp(xp, 0, MaxXp()))
    }

    /** setCapacityLevels: levels clamped to [1, 1000], then setXpStored(xpStored). */
    function WithCapacityLevels(levels: int): (r: PumpState)
      ensures r.capacityLevels == Clamp(levels, MinCapacityLevels, MaxCapacityLevels)
      ensures r.xpStored == Clamp(xpStored, 0, r.MaxXp())
      ensures r.(xpStored := xpStored, capacityLevels := capacityLevels) == this
    {
      this.(capacityLevels := Clamp(levels, MinCapacityLevels, MaxCapacityLevels)).WithXpStored(xpStored)
    }

    /** setMode: values outside 0..2 become MODE_OFF. */
    function WithMode(m: int): (r: PumpState)
      ensures ModeFromPlayer <= r.mode <= ModeOff
      ensures r.mode == (if ModeFromPlayer <= m <= ModeOff then m else ModeOff)
      ensures r.(mode := mode) == this
    {
      this.(mode := if m >= ModeFromPlayer && m <= ModeOff then m else ModeOff)
    }

    /** setRetainLevel: floored at 0. */
    function WithRetainLevel(level: int): (r: PumpState)
      ensures r.retainLevel == Max(MinRetainLevel, level)
      ensures r.(retainLevel := retainLevel) == this
    {
      this.(retainLevel := Max(MinRetainLevel, level))
    }

    /** addXp's moved amount: 0 for amount <= 0, else all of it or enough to fill the tank. */
    function XpAccepted(amount: int): (moved: int)
      requires 0 <= xpStored <= MaxXp()
      ensures 0 <= moved && xpStored + moved <= MaxXp()
      ensures amount <= 0 ==> moved == 0
      ensures amount > 0 ==> moved == amount || xpStored + moved == MaxXp()
      ensures moved <= Max(amount, 0)
    {
      if amount <= 0 then 0
      else
        var maxAdd := Min(amount, MaxXp() - xpStored);
        if maxAdd <= 0 then 0 else maxAdd
    }

    /** takeXp's moved amount: 0 for amount <= 0, else the smaller of the amount and the stored XP. */
    function XpTaken(amount: int): (moved: int)
      requires 0 <= xpStored
      ensures 0 <= moved <= xpStored
      ensures amount <= 0 ==> moved == 0
      ensures amount > 0 ==> moved <= amount && (moved == amount || moved == xpStored)
    {
      if amount <= 0 then 0
      else
        var take := Min(amount, xpStored);
        if take <= 0 then 0 else take
    }
  }

  const InitialState: PumpState := PumpState(0, DefaultCapacityLevels, ModeOff, DefaultRetainLevel, false)

  lemma SettersPreserveValid(s: PumpState, x: int)
    requires s.Valid()
    ensures InitialState.Valid()
    ensures s.WithXpStored(x).Valid()
    ensures s.WithCapacityLevels(x).Valid()
    ensures s.WithMode(x).Valid()
    ensures s.WithRetainLevel(x).Valid()
    ensures s.(xpStored := s.xpStored + s.XpAccepted(x)).Valid()
    ensures s.(xpStored := s.xpStored - s.XpTaken(x)).Valid()
  {
  }

  /**
   * addCapacityLevels: refused for levels <= 0 or a tank already at 1000
   * levels; otherwise capacity grows by `levels`, saturating at 1000.
   */
  function AddCapacityLevelsState(s: PumpState, levels: int): (r: (bool, PumpState))
    requires s.Valid()
    ensures r.0 <==> levels > 0 && s.capacityLevels < MaxCapacityLevels
    ensures !r.0 ==> r.1 == s
    ensures r.0 ==> r.1 == s.WithCapacityLevels(Min(s.capacityLevels + levels, MaxCapacityLevels))
    ensures r.1.Valid()
  {
    if levels <= 0 || s.capacityLevels >= MaxCapacityLevels then (false, s)
    else if s.capacityLevels > MaxCapacityLevels - levels then (true, s.WithCapacityLevels(MaxCapacityLevels))
    else (true, s.WithCapacityLevels(s.capacityLevels + levels))
  }

  /** Growing capacity never loses stored XP. */
  lemma AddCapacityLevelsKeepsXp(s: PumpState, levels: int)
    requires s.Valid()
    ensures AddCapacityLevelsState(s, levels).1.xpStored == s.xpStored
    ensures AddCapacityLevelsState(s, levels).1.MaxXp() >= s.MaxXp()
  {
    var r := AddCapacityLevelsState(s, levels);
    if r.0 {
      CappedCapacityMonotone(s.capacityLevels, r.1.capacityLevels);
    }
  }

  /** Storage.writeNBT; a null instance writes an empty compound. */
  function WriteNbt(instance: Option<PumpState>): (tag: Compound)
    ensures instance.None? ==> tag == Empty
    ensures instance.Some? ==>
      && GetInteger(tag, XpKey) == instance.value.xpStored
      && GetInteger(tag, CapacityLevelsKey) == instance.value.capacityLevels
      && GetInteger(tag, ModeKey) == instance.value.mode
      && GetInteger(tag, RetainLevelKey) == instance.value.retainLevel
      && GetBoolean(tag, MendingKey) == instance.value.useForMending
      && tag.Keys == {XpKey, CapacityLevelsKey, ModeKey, RetainLevelKey, MendingKey}
  {
    match instance
    case None => Empty
    case Some(s) =>
      var t := SetInteger(Empty, XpKey, s.xpStored);
      var t := SetInteger(t, CapacityLevelsKey, s.capacityLevels);
      var t := SetInteger(t, ModeKey, s.mode);
      var t := SetInteger(t, RetainLevelKey, s.retainLevel);
      SetBoolean(t, MendingKey, s.useForMending)
  }

  /** The rest of readNBT after XP and capacity: mode, retain level, mending, with defaults. */
  function ReadSettings(s: PumpState, tag: Compound): (r: PumpState)
    ensures r.xpStored == s.xpStored && r.capacityLevels == s.capacityLevels
    ensures ModeFromPlayer <= r.mode <= ModeOff && r.retainLevel >= MinRetainLevel
  {
    var s := s.WithMode(if HasKey(tag, ModeKey) then GetInteger(tag, ModeKey) else ModeOff);
    var s := s.WithRetainLevel(if HasKey(tag, RetainLevelKey) then GetInteger(tag, RetainLevelKey) else DefaultRetainLevel);
    s.(useForMending := if HasKey(tag, MendingKey) then GetBoolean(tag, MendingKey) else false)
  }

  /**
   * Storage.readNBT as the source writes it: setXpStored runs while the
   * instance still has its old capacity, and only then setCapacityLevels.
   * The XP read back is bounded by the capacity the instance had before.
   */
  function ReadNbtAsWritten(s: PumpState, nbt: Option<Compound>): (r: PumpState)
    ensures nbt.None? ==> r == s
    ensures nbt.Some? ==> r.xpStored <= s.MaxXp()
  {
    match nbt
    case None => s
    case Some(tag) =>
      var s1 := s.WithXpStored(if HasKey(tag, XpKey) then GetInteger(tag, XpKey) else 0);
      var s2 := s1.WithCapacityLevels(if HasKey(tag, CapacityLevelsKey) then GetInteger(tag, CapacityLevelsKey) else DefaultCapacityLevels);
      ReadSettings(s2, tag)
  }

  /**
   * Counterexample: a 2-level tank holding 1500 XP, written and read back
   * into a fresh (1-level) instance, comes back with only 1000 XP.
   */
  lemma ReadNbtAsWrittenTruncates()
    ensures var saved := PumpState(1500, 2, ModeOff, DefaultRetainLevel, false);
      && saved.Valid()
      && ReadNbtAsWritten(InitialState, Some(WriteNbt(Some(saved)))).xpStored == 1000
  {
    var saved := PumpState(1500, 2, ModeOff, DefaultRetainLevel, false);
    assert Pow2(1) == 2;
    assert saved.MaxXp() == 2000;
    assert InitialState.MaxXp() == 1000;
  }

  /** Storage.readNBT with capacity restored before XP (the rsring order). */
  function ReadNbtState(s: PumpState, nbt: Option<Compound>): (r: PumpState)
    ensures nbt.None? ==> r == s
    ensures nbt.Some? ==> r.Valid()
  {
    match nbt
    case None => s
    case Some(tag) =>
      var s1 := s.WithCapacityLevels(if HasKey(tag, CapacityLevelsKey) then GetInteger(tag, CapacityLevelsKey) else DefaultCapacityLevels);
      var s2 := s1.WithXpStored(if HasKey(tag, XpKey) then GetInteger(tag, XpKey) else 0);
      ReadSettings(s2, tag)
  }

  /** With capacity first, writeNBT then readNBT restores any valid state exactly. */
  lemma ReadNbtOfWriteNbt(s: PumpState, before: PumpState)
    requires s.Valid()
    ensures ReadNbtState(before, Some(WriteNbt(Some(s)))) == s
  {
  }

  class ExperiencePumpCapability {
    var xpStored: int
    var capacityLevels: int
    var mode: int
    var retainLevel: int
    var useForMending: bool

    function State(): PumpState
      reads this
    {
      PumpState(xpStored, capacityLevels, mode, retainLevel, useForMending)
    }

    ghost predicate Valid()
      reads this
    {
      State().Valid()
    }

    constructor ()
      ensures State() == InitialState && Valid()
    {
      xpStored := 0;
      capacityLevels := DefaultCapacityLevels;
      mode := ModeOff;
      retainLevel := DefaultRetainLevel;
      useForMending := false;
    }

    method SetXpStored(xp: int)
      modifies this
      ensures State() == old(State()).WithXpStored(xp)
    {
      xpStored := Max(0, Min(xp, State().MaxXp()));
    }

    method SetCapacityLevels(levels: int)
      modifies this
      ensures State() == old(State()).WithCapacityLevels(levels)
    {
      capacityLevels := Max(MinCapacityLevels, Min(levels, MaxCapacityLevels));
      SetXpStored(xpStored);
    }

    method SetMode(m: int)
      modifies this
      ensures State() == old(State()).WithMode(m)
    {
      mode := if m >= ModeFromPlayer && m <= ModeOff then m else ModeOff;
    }

    method SetRetainLevel(level: int)
      modifies this
      ensures State() == old(State()).WithRetainLevel(level)
    {
      retainLevel := Max(MinRetainLevel, level);
    }

    method SetUseForMending(use: bool)
      modifies this
      ensures State() == old(State()).(useForMending := use)
    {
      useForMending := use;
    }

    method AddCapacityLevels(levels: int) returns (ok: bool)
      requires Valid()
      modifies this
      ensures (ok, State()) == AddCapacityLevelsState(old(State()), levels)
      ensures Valid()
    {
      if levels <= 0 || capacityLevels >= MaxCapacityLevels {
        return false;
      }
      if capacityLevels > MaxCapacityLevels - levels {
        SetCapacityLevels(MaxCapacityLevels);
      } else {
        SetCapacityLevels(capacityLevels + levels);
      }
      ok := true;
    }

    method AddXp(amount: int) returns (added: int)
      requires Valid()
      modifies this
      ensures added == old(State()).XpAccepted(amount)
      ensures State() == old(State()).(xpStored := old(xpStored) + added)
      ensures Valid()
    {
      if amount <= 0 {
        return 0;
      }
      var maxAdd := Min(amount, State().MaxXp() - xpStored);
      if maxAdd <= 0 {
        return 0;
      }
      xpStored := xpStored + maxAdd;
      added := maxAdd;
    }

    method TakeXp(amount: int) returns (taken: int)
      requires Valid()
      modifies this
      ensures taken == old(State()).XpTaken(amount)
      ensures State() == old(State()).(xpStored := old(xpStored) - taken)
      ensures Valid()
    {
      if amount <= 0 {
        return 0;
      }
      var take := Min(amount, xpStored);
      if take <= 0 {
        return 0;
      }
      xpStored := xpStored - take;
      taken := take;
    }

    /** copy: a new instance with all five fields duplicated. */
    method Copy() returns (c: ExperiencePumpCapability)
      ensures fresh(c) && c.State() == State()
    {
      c := new ExperiencePumpCapability();
      c.xpStored := xpStored;
      c.capacityLevels := capacityLevels;
      c.mode := mode;
      c.retainLevel := retainLevel;
      c.useForMending := useForMending;
    }

    /** Storage.readNBT on this instance, capacity first. */
    method ReadNbt(nbt: Option<Compound>)
      modifies this
      ensures State() == ReadNbtState(old(State()), nbt)
    {
      if nbt.None? {
        return;
      }
      var tag := nbt.value;
      SetCapacityLevels(if HasKey(tag, CapacityLevelsKey) then GetInteger(tag, CapacityLevelsKey) else DefaultCapacityLevels);
      SetXpStored(if HasKey(tag, XpKey) then GetInteger(tag, XpKey) else 0);
      SetMode(if HasKey(tag, ModeKey) then GetInteger(tag, ModeKey) else ModeOff);
      SetRetainLevel(if HasKey(tag, RetainLevelKey) then GetInteger(tag, RetainLevelKey) else DefaultRetainLevel);
      SetUseForMending(if HasKey(tag, MendingKey) then GetBoolean(tag, MendingKey) else false);
    }
  }
}
