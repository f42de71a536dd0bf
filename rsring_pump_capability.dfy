/**
 * com.rsring.capability.ExperiencePumpCapability: the XP tank state attached
 * to a pump item (stored XP, capacity levels, a fixed capacity for special
 * tanks, pump mode, retain level, mending flag) and its NBT storage.
 */
module RsringPumpCapability {
  import opened Wrappers
  import opened JavaInt
  import opened Nbt
  import opened PumpCapacity

  const ModeFromPlayer: int := 0
  const ModeToPlayer: int := 1
  const ModeOff: int := 2
  const DefaultCapacityLevels: int := 1
  const MaxCapacityLevels: int := 25
  const MinCapacityLevels: int := 1
  const MinRetainLevel: int := 0

  const XpKey: string := "xp"
  const CapacityLevelsKey: string := "capacityLevels"
  const FixedMaxXpKey: string := "fixedMaxXp"
  const ModeKey: string := "mode"
  const RetainLevelKey: string := "retainLevel"
  const MendingKey: string := "mending"

  /** The values the capability reads from ExperienceTankConfig.tank. */
  datatype TankConfig = TankConfig(
    defaultPumpMode: int,
    defaultRetainLevel: int,
    defaultMendingMode: bool,
    maxTankLevelLimit: int)
  {
    /** getConfiguredDefaultMode: a mode outside 0..2 falls back to MODE_OFF. */
    function DefaultMode(): (r: int)
      ensures ModeFromPlayer <= r <= ModeOff
      ensures 0 <= defaultPumpMode <= 2 ==> r == defaultPumpMode
      ensures !(0 <= defaultPumpMode <= 2) ==> r == ModeOff
    {
      if defaultPumpMode < 0 || defaultPumpMode > 2 then ModeOff else defaultPumpMode
    }

    /** getConfiguredDefaultRetainLevel: floored at 0. */
    function DefaultRetainLevel(): (r: int)
      ensures r >= MinRetainLevel
      ensures defaultRetainLevel >= 0 ==> r == defaultRetainLevel
    {
      Max(MinRetainLevel, defaultRetainLevel)
    }

    /** getConfiguredMaxCapacityLevels: the configured limit clamped to 1..25. */
    function MaxLevels(): (r: int)
      ensures MinCapacityLevels <= r <= MaxCapacityLevels
      ensures MinCapacityLevels <= maxTankLevelLimit <= MaxCapacityLevels ==> r == maxTankLevelLimit
    {
      Clamp(maxTankLevelLimit, MinCapacityLevels, MaxCapacityLevels)
    }
  }

  /** The six fields of one capability instance. */
  datatype PumpState = PumpState(
    xpStored: int,
    capacityLevels: int,
    fixedMaxXp: int,
    mode: int,
    retainLevel: int,
    useForMending: bool)
  {
    /**
     * getMaxXp: a positive fixed capacity wins; otherwise 1000 * 2^(levels-1)
     * capped at Integer.MAX_VALUE (exact for the 1..25 levels the setters allow).
     */
    function MaxXp(): (r: int)
      ensures r >= 0
      ensures fixedMaxXp > 0 ==> r == fixedMaxXp
      ensures fixedMaxXp <= 0 && 1 <= capacityLevels <= 54 ==> r == CappedCapacity(capacityLevels)
    {
      if fixedMaxXp > 0 then fixedMaxXp
      else
        if 1 <= capacityLevels <= 54 then ShiftedCapacityIsCapped(capacityLevels); ShiftedCapacity(capacityLevels)
        else ShiftedCapacity(capacityLevels)
    }

    /** The invariant every setter re-establishes. */
    predicate Valid(cfg: TankConfig) {
      && MinCapacityLevels <= capacityLevels <= cfg.MaxLevels()
      && 0 <= xpStored <= MaxXp()
      && ModeFromPlayer <= mode <= ModeOff
      && retainLevel >= MinRetainLevel
    }

    /** setXpStored: the stored XP clamped to [0, getMaxXp()]. */
    function WithXpStored(xp: int): (r: PumpState)
      ensures r.xpStored == Clamp(xp, 0, MaxXp())
      ensures r.(xpStored := xpStored) == this
    {
      this.(xpStored := Clamp(xp, 0, MaxXp()))
    }

    /** setCapacityLevels: levels clamped to [1, configured max], then XP re-clamped. */
    function WithCapacityLevels(cfg: TankConfig, levels: int): (r: PumpState)
      ensures r.capacityLevels == Clamp(levels, MinCapacityLevels, cfg.MaxLevels())
      ensures 0 <= xpStored ==> r.xpStored == Min(xpStored, r.MaxXp())
      ensures r.(xpStored := xpStored, capacityLevels := capacityLevels) == this
    {
      var s := this.(capacityLevels := Clamp(levels, MinCapacityLevels, cfg.MaxLevels()));
      s.(xpStored := Clamp(xpStored, 0, s.MaxXp()))
    }

    /** setMode: values outside 0..2 become MODE_OFF. */
    function WithMode(m: int): (r: PumpState)
      ensures ModeFromPlayer <= r.mode <= ModeOff
      ensures r.mode == (if ModeFromPlayer <= m <= ModeOff then m else ModeOff)
      ensures r.(mode := mode) == this
    {
      this.(mode := if m >= ModeFromPlayer && m <= ModeOff then m else ModeOff)
    }

    /** setRetainLevel: floored at 0. */
    function WithRetainLevel(level: int): (r: PumpState)
      ensures r.retainLevel == Max(MinRetainLevel, level)
      ensures r.(retainLevel := retainLevel) == this
    {
      this.(retainLevel := Max(MinRetainLevel, level))
    }

    /**
     * The XP that addXp(amount) moves into the tank: nothing for amount <= 0,
     * otherwise all of it or exactly enough to fill the tank.
     */
    function XpAccepted(amount: int): (moved: int)
      requires 0 <= xpStored <= MaxXp()
      ensures 0 <= moved && xpStored + moved <= MaxXp()
      ensures amount <= 0 ==> moved == 0
      ensures amount > 0 ==> moved == amount || xpStored + moved == MaxXp()
      ensures moved <= Max(amount, 0)
    {
      if amount <= 0 then 0
      else
        var maxAdd := Min(amount, MaxXp() - xpStored);
        if maxAdd <= 0 then 0 else maxAdd
    }

    /**
     * The XP that takeXp(amount) removes: nothing for amount <= 0, otherwise
     * the smaller of the amount and the stored XP.
     */
    function XpTaken(amount: int): (moved: int)
      requires 0 <= xpStored
      ensures 0 <= moved <= xpStored
      ensures amount <= 0 ==> moved == 0
      ensures amount > 0 ==> moved <= amount && (moved == amount || moved == xpStored)
    {
      if amount <= 0 then 0
      else
        var take := Min(amount, xpStored);
        if take <= 0 then 0 else take
    }
  }

  /** The state of a freshly constructed capability. */
  function InitialState(cfg: TankConfig): (s: PumpState)
    ensures s.Valid(cfg)
    ensures s.xpStored == 0 && s.capacityLevels == DefaultCapacityLevels && s.fixedMaxXp == 0
  {
    PumpState(0, DefaultCapacityLevels, 0, cfg.DefaultMode(), cfg.DefaultRetainLevel(), cfg.defaultMendingMode)
  }

  /** setXpStored keeps the invariant. */
  lemma XpSetterValid(cfg: TankConfig, s: PumpState, x: int)
    requires s.Valid(cfg)
    ensures s.WithXpStored(x).Valid(cfg)
  {
  }

  /** setCapacityLevels keeps the invariant. */
  lemma LevelsSetterValid(cfg: TankConfig, s: PumpState, x: int)
    requires s.Valid(cfg)
    ensures s.WithCapacityLevels(cfg, x).Valid(cfg)
  {
  }

  /** setMode keeps the invariant. */
  lemma ModeSetterValid(cfg: TankConfig, s: PumpState, x: int)
    requires s.Valid(cfg)
    ensures s.WithMode(x).Valid(cfg)
  {
  }

  /** setRetainLevel keeps the invariant. */
  lemma RetainSetterValid(cfg: TankConfig, s: PumpState, x: int)
    requires s.Valid(cfg)
    ensures s.WithRetainLevel(x).Valid(cfg)
  {
  }

  /**
   * addCapacityLevels: refused (false, no change) for levels <= 0 or a tank at
   * the configured maximum; otherwise capacity grows by `levels`, saturating.
   */
  function AddCapacityLevelsState(cfg: TankConfig, s: PumpState, levels: int): (r: (bool, PumpState))
    requires s.Valid(cfg)
    ensures r.0 <==> levels > 0 && s.capacityLevels < cfg.MaxLevels()
    ensures !r.0 ==> r.1 == s
    ensures r.0 ==> r.1 == s.WithCapacityLevels(cfg, Min(s.capacityLevels + levels, cfg.MaxLevels()))
    ensures r.1.Valid(cfg)
  {
    var maxLevels := cfg.MaxLevels();
    if levels <= 0 || s.capacityLevels >= maxLevels then (false, s)
    else if s.capacityLevels > maxLevels - levels then (true, s.WithCapacityLevels(cfg, maxLevels))
    else (true, s.WithCapacityLevels(cfg, s.capacityLevels + levels))
  }

  /** Storage.writeNBT; a null instance writes an empty compound. */
  function WriteNbt(instance: Option<PumpState>): (tag: Compound)
    ensures instance.None? ==> tag == Empty
    ensures instance.Some? ==>
      && GetInteger(tag, XpKey) == instance.value.xpStored
      && GetInteger(tag, CapacityLevelsKey) == instance.value.capacityLevels
      && GetInteger(tag, FixedMaxXpKey) == instance.value.fixedMaxXp
      && GetInteger(tag, ModeKey) == instance.value.mode
      && GetInteger(tag, RetainLevelKey) == instance.value.retainLevel
      && GetBoolean(tag, MendingKey) == instance.value.useForMending
      && tag.Keys == {XpKey, CapacityLevelsKey, FixedMaxXpKey, ModeKey, RetainLevelKey, MendingKey}
  {
    match instance
    case None => Empty
    case Some(s) =>
      var t := SetInteger(Empty, XpKey, s.xpStored);
      var t := SetInteger(t, CapacityLevelsKey, s.capacityLevels);
      var t := SetInteger(t, FixedMaxXpKey, s.fixedMaxXp);
      var t := SetInteger(t, ModeKey, s.mode);
      var t := SetInteger(t, RetainLevelKey, s.retainLevel);
      SetBoolean(t, MendingKey, s.useForMending)
  }

  /**
   * Storage.readNBT: capacity levels first (default 1), then a present
   * fixedMaxXp, then XP (default 0), mode, retain level and mending (config
   * defaults), each through its clamping setter. A null tag changes nothing.
   */
  function ReadNbtState(cfg: TankConfig, s: PumpState, nbt: Option<Compound>): (r: PumpState)
    ensures nbt.None? ==> r == s
    ensures nbt.Some? ==> r.Valid(cfg)
  {
    match nbt
    case None => s
    case Some(tag) =>
      var s := s.WithCapacityLevels(cfg,
        if HasKey(tag, CapacityLevelsKey) then GetInteger(tag, CapacityLevelsKey) else DefaultCapacityLevels);
      var s := if HasKey(tag, FixedMaxXpKey) then s.(fixedMaxXp := GetInteger(tag, FixedMaxXpKey)) else s;
      var s := s.WithXpStored(if HasKey(tag, XpKey) then GetInteger(tag, XpKey) else 0);
      var s := s.WithMode(if HasKey(tag, ModeKey) then GetInteger(tag, ModeKey) else cfg.DefaultMode());
      var s := s.WithRetainLevel(
        if HasKey(tag, RetainLevelKey) then GetInteger(tag, RetainLevelKey) else cfg.DefaultRetainLevel());
      s.(useForMending := if HasKey(tag, MendingKey) then GetBoolean(tag, MendingKey) else cfg.defaultMendingMode)
  }

  /**
   * Reading back what writeNBT wrote restores a valid state exactly, whatever
   * the instance held before: capacity is restored before XP, so XP is not
   * truncated.
   */
  lemma ReadNbtOfWriteNbt(cfg: TankConfig, s: PumpState, before: PumpState)
    requires s.Valid(cfg)
    ensures ReadNbtState(cfg, before, Some(WriteNbt(Some(s)))) == s
  {
    var tag := WriteNbt(Some(s));
    var s1 := before.WithCapacityLevels(cfg, s.capacityLevels);
    var s2 := s1.(fixedMaxXp := s.fixedMaxXp);
    assert s2.MaxXp() == s.MaxXp();
  }

  /** The capability object; its methods update the fields in place. */
  class ExperiencePumpCapability {
    const config: TankConfig
    var xpStored: int
    var capacityLevels: int
    var fixedMaxXp: int
    var mode: int
    var retainLevel: int
    var useForMending: bool

    function State(): PumpState
      reads this
    {
      PumpState(xpStored, capacityLevels, fixedMaxXp, mode, retainLevel, useForMending)
    }

    ghost predicate Valid()
      reads this
    {
      State().Valid(config)
    }

    constructor (config: TankConfig)
      ensures this.config == config
      ensures State() == InitialState(config) && Valid()
    {
      this.config := config;
      xpStored := 0;
      capacityLevels := DefaultCapacityLevels;
      fixedMaxXp := 0;
      mode := config.DefaultMode();
      retainLevel := config.DefaultRetainLevel();
      useForMending := config.defaultMendingMode;
    }

    method SetXpStored(xp: int)
      modifies this
      ensures State() == old(State()).WithXpStored(xp)
    {
      xpStored := Max(0, Min(xp, State().MaxXp()));
    }

    method SetCapacityLevels(levels: int)
      modifies this
      ensures State() == old(State()).WithCapacityLevels(config, levels)
    {
      var currentXp := xpStored;
      var maxLevels := config.MaxLevels();
      capacityLevels := Max(MinCapacityLevels, Min(levels, maxLevels));
      xpStored := Max(0, Min(currentXp, State().MaxXp()));
    }

    method SetMode(m: int)
      modifies this
      ensures State() == old(State()).WithMode(m)
    {
      mode := if m >= ModeFromPlayer && m <= ModeOff then m else ModeOff;
    }

    method SetRetainLevel(level: int)
      modifies this
      ensures State() == old(State()).WithRetainLevel(level)
    {
      retainLevel := Max(MinRetainLevel, level);
    }

    method SetUseForMending(use: bool)
      modifies this
      ensures State() == old(State()).(useForMending := use)
    {
      useForMending := use;
    }

    method AddCapacityLevels(levels: int) returns (ok: bool)
      requires Valid()
      modifies this
      ensures (ok, State()) == AddCapacityLevelsState(config, old(State()), levels)
      ensures Valid()
    {
      var maxLevels := config.MaxLevels();
      if levels <= 0 || capacityLevels >= maxLevels {
        return false;
      }
      if capacityLevels > maxLevels - levels {
        SetCapacityLevels(maxLevels);
      } else {
        SetCapacityLevels(capacityLevels + levels);
      }
      ok := true;
    }

    method AddXp(amount: int) returns (added: int)
      requires Valid()
      modifies this
      ensures added == old(State()).XpAccepted(amount)
      ensures State() == old(State()).(xpStored := old(xpStored) + added)
      ensures Valid()
    {
      if amount <= 0 {
        return 0;
      }
      var maxAdd := Min(amount, State().MaxXp() - xpStored);
      if maxAdd <= 0 {
        return 0;
      }
      xpStored := xpStored + maxAdd;
      added := maxAdd;
    }

    method TakeXp(amount: int) returns (taken: int)
      requires Valid()
      modifies this
      ensures taken == old(State()).XpTaken(amount)
      ensures State() == old(State()).(xpStored := old(xpStored) - taken)
      ensures Valid()
    {
      if amount <= 0 {
        return 0;
      }
      var take := Min(amount, xpStored);
      if take <= 0 {
        return 0;
      }
      xpStored := xpStored - take;
      taken := take;
    }

    /** copy: a new instance with all six fields duplicated. */
    method Copy() returns (c: ExperiencePumpCapability)
      ensures fresh(c) && c.config == config && c.State() == State()
    {
      c := new ExperiencePumpCapability(config);
      c.xpStored := xpStored;
      c.capacityLevels := capacityLevels;
      c.fixedMaxXp := fixedMaxXp;
      c.mode := mode;
      c.retainLevel := retainLevel;
      c.useForMending := useForMending;
    }

    /** Storage.readNBT applied to this instance, through the setters in source order. */
    method ReadNbt(nbt: Option<Compound>)
      modifies this
      ensures State() == ReadNbtState(config, old(State()), nbt)
    {
      if nbt.None? {
        return;
      }
      var tag := nbt.value;
      SetCapacityLevels(if HasKey(tag, CapacityLevelsKey) then GetInteger(tag, CapacityLevelsKey) else DefaultCapacityLevels);
      if HasKey(tag, FixedMaxXpKey) {
        fixedMaxXp := GetInteger(tag, FixedMaxXpKey);
      }
      SetXpStored(if HasKey(tag, XpKey) then GetInteger(tag, XpKey) else 0);
      SetMode(if HasKey(tag, ModeKey) then GetInteger(tag, ModeKey) else config.DefaultMode());
      SetRetainLevel(if HasKey(tag, RetainLevelKey) then GetInteger(tag, RetainLevelKey) else config.DefaultRetainLevel());
      SetUseForMending(if HasKey(tag, MendingKey) then GetBoolean(tag, MendingKey) else config.defaultMendingMode);
    }
  }
}
