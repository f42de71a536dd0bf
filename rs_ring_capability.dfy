/**
 * com.rsring.capability.RsRingCapability: the absorb ring's state — the
 * bound terminal, the enabled flag, an energy buffer and a nine-slot item
 * filter used as a whitelist or a blacklist. When the configuration
 * disallows custom filters, the filter is the configured default list and
 * every filter setter is a no-op.
 */
module RsRingCapability {
  import opened Wrappers
  import opened JavaInt
  import opened Nbt
  import opened ItemNames

  const DefaultMaxEnergy: int := 10_000_000
  const MaxIo: int := 10000
  const FilterSlots: int := 9

  /** The RsRingConfig.absorbRing options the capability reads; a list may be null. */
  datatype RingConfig = RingConfig(
    useBlacklistModeByDefault: bool,
    defaultBlacklistItems: Option<seq<Option<string>>>,
    defaultWhitelistItems: Option<seq<Option<string>>>,
    allowCustomFilters: bool,
    maxEnergyCapacity: int,
    initialEnergy: int)
  {
    /** getConfiguredWhitelistMode. */
    predicate ConfiguredWhitelistMode() { !useBlacklistModeByDefault }

    /** getConfiguredFilterList(whitelistMode). */
    function ConfiguredFilterList(whitelistMode: bool): Option<seq<Option<string>>>
    {
      if whitelistMode then defaultWhitelistItems else defaultBlacklistItems
    }

    /** The list the configured mode uses; loadDefaultFilterList iterates it without a null check. */
    function ModeList(): Option<seq<Option<string>>>
    {
      ConfiguredFilterList(ConfiguredWhitelistMode())
    }

    /** loadDefaultFilterList only reads the list when custom filters are off. */
    predicate CanLoadDefaults() { allowCustomFilters || ModeList().Some? }
  }

  /** The non-blank entries of a configured list, normalized, in order. */
  function NormalizedList(items: seq<Option<string>>): (r: seq<string>)
    ensures |r| <= |items|
    ensures forall j :: 0 <= j < |r| ==> r[j] != "" && HasColon(r[j])
  {
    if items == [] then []
    else
      var n := |items| - 1;
      var rest := NormalizedList(items[..n]);
      var name := Normalize(items[n]);
      if name != "" then rest + [name] else rest
  }

  lemma NormalizedStep(items: seq<Option<string>>, i: nat)
    requires i < |items|
    ensures NormalizedList(items[..i + 1])
      == NormalizedList(items[..i]) + (if Normalize(items[i]) != "" then [Normalize(items[i])] else [])
  {
    assert items[..i + 1][..i] == items[..i];
  }

  /** Every non-blank configured entry appears, normalized, in the loaded list: at index j. */
  lemma {:induction false} NormalizedListKeeps(items: seq<Option<string>>, i: int) returns (j: int)
    requires 0 <= i < |items| && Normalize(items[i]) != ""
    ensures 0 <= j < |NormalizedList(items)| && NormalizedList(items)[j] == Normalize(items[i])
  {
    var n := |items| - 1;
    var prefix := items[..n];
    var rest := NormalizedList(prefix);
    var name := Normalize(items[n]);
    if i == n {
      assert NormalizedList(items) == rest + [name];
      j := |rest|;
    } else {
      var entry := Normalize(items[i]);
      assert prefix[i] == items[i];
      j := NormalizedListKeeps(prefix, i);
      assert rest[j] == entry;
      if name != "" {
        assert NormalizedList(items) == rest + [name];
      } else {
        assert NormalizedList(items) == rest;
      }
    }
  }

  /** Every entry of the loaded list is the normalized form of some configured entry. */
  lemma {:induction false} NormalizedListFrom(items: seq<Option<string>>, j: int) returns (i: int)
    requires 0 <= j < |NormalizedList(items)|
    ensures 0 <= i < |items| && NormalizedList(items)[j] == Normalize(items[i])
  {
    var n := |items| - 1;
    var rest := NormalizedList(items[..n]);
    var name := Normalize(items[n]);
    var all := NormalizedList(items);
    NormalizedLast(items);
    if j < |rest| {
      assert all[j] == rest[j];
      i := NormalizedListFrom(items[..n], j);
      assert items[..n][i] == items[i];
    } else {
      if name == "" {
        assert false;
      }
      i := n;
    }
  }

  lemma NormalizedLast(items: seq<Option<string>>)
    requires items != []
    ensures var n := |items| - 1;
      NormalizedList(items) == NormalizedList(items[..n]) + (if Normalize(items[n]) != "" then [Normalize(items[n])] else [])
  {
  }

  /** What loadDefaultFilterList leaves in the list: nothing when custom filters are allowed. */
  function DefaultFilterList(cfg: RingConfig): seq<string>
    requires cfg.CanLoadDefaults()
  {
    if cfg.allowCustomFilters then [] else NormalizedList(cfg.ModeList().value)
  }

  /** getConfiguredMaxEnergy: the configured capacity, 10,000,000 when it is not positive. */
  function ConfiguredMaxEnergy(cfg: RingConfig): (r: int)
    ensures r > 0
    ensures cfg.maxEnergyCapacity > 0 ==> r == cfg.maxEnergyCapacity
    ensures cfg.maxEnergyCapacity <= 0 ==> r == DefaultMaxEnergy
  {
    if cfg.maxEnergyCapacity <= 0 then DefaultMaxEnergy else cfg.maxEnergyCapacity
  }

  /** getConfiguredInitialEnergy: the configured initial energy clamped to [0, max]. */
  function ConfiguredInitialEnergy(cfg: RingConfig): (r: int)
    ensures 0 <= r <= ConfiguredMaxEnergy(cfg)
    ensures 0 <= cfg.initialEnergy <= ConfiguredMaxEnergy(cfg) ==> r == cfg.initialEnergy
  {
    var max := ConfiguredMaxEnergy(cfg);
    var configured := if cfg.initialEnergy < 0 then 0 else cfg.initialEnergy;
    if configured > max then max else configured
  }

  /** An EnergyStorage as constructed: capacity, transfer limits, stored energy. */
  datatype EnergyStorage = EnergyStorage(capacity: int, maxReceive: int, maxExtract: int, energy: int)

  /**
   * Forge's `new EnergyStorage(capacity, maxReceive, maxExtract, energy)`: the
   * constructor itself stores the energy clamped into [0, capacity].
   */
  function NewEnergyStorage(capacity: int, maxReceive: int, maxExtract: int, energy: int): (r: EnergyStorage)
    ensures r.capacity == capacity && r.maxReceive == maxReceive && r.maxExtract == maxExtract
    ensures 0 <= capacity ==> 0 <= r.energy <= capacity
    ensures energy < 0 ==> r.energy == 0
    ensures capacity < energy ==> r.energy == Max(0, capacity)
    ensures 0 <= energy <= capacity ==> r.energy == energy
  {
    EnergyStorage(capacity, maxReceive, maxExtract, Max(0, Min(capacity, energy)))
  }

  /** createEnergyStorage: the configured capacity, MAX_IO both ways, the energy clamped to [0, max]. */
  function CreateEnergyStorage(cfg: RingConfig, stored: int): (r: EnergyStorage)
    ensures r.capacity == ConfiguredMaxEnergy(cfg) && r.maxReceive == MaxIo && r.maxExtract == MaxIo
    ensures 0 <= r.energy <= r.capacity
    ensures 0 <= stored <= r.capacity ==> r.energy == stored
  {
    var max := ConfiguredMaxEnergy(cfg);
    NewEnergyStorage(max, MaxIo, MaxIo, Max(0, Min(stored, max)))
  }

  /** refreshEnergyStorage on a storage: rebuilt with the configured capacity when that changed. */
  function RefreshedEnergy(cfg: RingConfig, e: EnergyStorage): (r: EnergyStorage)
    ensures r.capacity == ConfiguredMaxEnergy(cfg)
    ensures e.capacity == ConfiguredMaxEnergy(cfg) ==> r == e
    ensures e.capacity != ConfiguredMaxEnergy(cfg) ==> r.energy == Max(0, Min(e.energy, r.capacity))
  {
    var max := ConfiguredMaxEnergy(cfg);
    if e.capacity != max then NewEnergyStorage(max, MaxIo, MaxIo, Min(e.energy, max)) else e
  }

  datatype BlockPos = BlockPos(x: int, y: int, z: int)

  /** An item stack as the filter sees it: empty or not, and its registry name. */
  datatype ItemView = ItemView(isEmpty: bool, registryName: string)

  /** The capability's fields. */
  datatype RingState = RingState(
    terminalPos: Option<BlockPos>,
    terminalDimension: int,
    enabled: bool,
    blacklistItems: seq<string>,
    whitelistMode: bool,
    energy: EnergyStorage)

  /** The state the constructor builds. */
  function InitialState(cfg: RingConfig): (s: RingState)
    requires cfg.CanLoadDefaults()
    ensures !IsBound(s) && !s.enabled
    ensures s.whitelistMode == cfg.ConfiguredWhitelistMode()
    ensures s.energy.energy == ConfiguredInitialEnergy(cfg)
  {
    RingState(None, 0, false, DefaultFilterList(cfg), cfg.ConfiguredWhitelistMode(),
              CreateEnergyStorage(cfg, ConfiguredInitialEnergy(cfg)))
  }

  /** isBound: a terminal position is set. */
  predicate IsBound(s: RingState) { s.terminalPos.Some? }

  /** isWhitelistMode: the configured default when custom filters are disallowed. */
  predicate WhitelistModeOf(cfg: RingConfig, s: RingState)
  {
    if cfg.allowCustomFilters then s.whitelistMode else cfg.ConfiguredWhitelistMode()
  }

  /** getFilterSlot(slot): "" outside 0..8 and beyond the list; the normalized config entry when locked. */
  function FilterSlotOf(cfg: RingConfig, s: RingState, slot: int): (r: string)
    ensures (slot < 0 || slot >= FilterSlots) ==> r == ""
    ensures cfg.allowCustomFilters && 0 <= slot < FilterSlots ==>
      r == (if slot < |s.blacklistItems| then s.blacklistItems[slot] else "")
    ensures !cfg.allowCustomFilters && 0 <= slot < FilterSlots ==>
      var items := cfg.ModeList();
      r == (if items.None? || slot >= |items.value| then "" else Normalize(items.value[slot]))
  {
    if !cfg.allowCustomFilters then
      var items := cfg.ModeList();
      if slot < 0 || slot >= FilterSlots then ""
      else if items.None? || slot >= |items.value| then ""
      else Normalize(items.value[slot])
    else if slot < 0 || slot >= FilterSlots then ""
    else if slot >= |s.blacklistItems| then ""
    else s.blacklistItems[slot]
  }

  /** The value setFilterSlot stores: "" for null or the empty string. */
  function SlotValue(name: Option<string>): string
  {
    if name.None? || name.value == "" then "" else name.value
  }

  /** The list padded with "" up to n entries. */
  function Padded(list: seq<string>, n: int): (r: seq<string>)
    ensures |r| == Max(|list|, n) && r[..|list|] == list
    ensures forall i :: |list| <= i < |r| ==> r[i] == ""
  {
    if |list| >= n then list else list + seq(n - |list|, _ => "")
  }

  /** setFilterSlot: ignored when locked or outside 0..8; otherwise pads and sets the slot. */
  function WithFilterSlot(cfg: RingConfig, s: RingState, slot: int, name: Option<string>): (r: RingState)
    ensures !cfg.allowCustomFilters || slot < 0 || slot >= FilterSlots ==> r == s
    ensures r == s.(blacklistItems := r.blacklistItems)
  {
    if !cfg.allowCustomFilters || slot < 0 || slot >= FilterSlots then s
    else s.(blacklistItems := Padded(s.blacklistItems, slot + 1)[slot := SlotValue(name)])
  }

  /** After setFilterSlot with filters unlocked, the slot reads back its new value and every other slot reads as before. */
  lemma FilterSlotAfterSet(cfg: RingConfig, s: RingState, slot: int, name: Option<string>, other: int)
    requires cfg.allowCustomFilters && 0 <= slot < FilterSlots && other != slot
    ensures FilterSlotOf(cfg, WithFilterSlot(cfg, s, slot, name), slot) == SlotValue(name)
    ensures FilterSlotOf(cfg, WithFilterSlot(cfg, s, slot, name), other) == FilterSlotOf(cfg, s, other)
  {
    var list := s.blacklistItems;
    var padded := Padded(list, slot + 1);
    if 0 <= other < |list| {
      assert padded[other] == padded[..|list|][other] == list[other];
    }
  }

  predicate NoDuplicates(list: seq<string>)
  {
    forall i, j :: 0 <= i < j < |list| ==> list[i] != list[j]
  }

  /** addToBlacklist: the registry name appended when filters are unlocked, the stack is not empty and the name is new. */
  function WithAdded(cfg: RingConfig, s: RingState, item: ItemView): (r: RingState)
    ensures r == s.(blacklistItems := r.blacklistItems)
    ensures cfg.allowCustomFilters && !item.isEmpty ==> item.registryName in r.blacklistItems
    ensures NoDuplicates(s.blacklistItems) ==> NoDuplicates(r.blacklistItems)
    ensures multiset(s.blacklistItems) <= multiset(r.blacklistItems)
  {
    if !cfg.allowCustomFilters || item.isEmpty || item.registryName in s.blacklistItems then s
    else
      var list := s.blacklistItems + [item.registryName];
      assert list[|list| - 1] == item.registryName;
      s.(blacklistItems := list)
  }

  /** The list without the first occurrence of x (List.remove(Object)). */
  function RemoveFirst(list: seq<string>, x: string): (r: seq<string>)
    ensures x !in list ==> r == list
    ensures x in list ==> |r| == |list| - 1 && multiset(r) == multiset(list) - multiset{x}
  {
    if list == [] then []
    else
      assert list == [list[0]] + list[1..];
      if list[0] == x then list[1..]
      else [list[0]] + RemoveFirst(list[1..], x)
  }

  /** removeFromBlacklist: the first occurrence of the registry name removed when filters are unlocked. */
  function WithRemoved(cfg: RingConfig, s: RingState, item: ItemView): (r: RingState)
    ensures r == s.(blacklistItems := r.blacklistItems)
    ensures !cfg.allowCustomFilters || item.isEmpty ==> r == s
    ensures NoDuplicates(s.blacklistItems) && cfg.allowCustomFilters && !item.isEmpty ==> item.registryName !in r.blacklistItems
  {
    if !cfg.allowCustomFilters || item.isEmpty then s
    else
      RemoveFromDistinct(s.blacklistItems, item.registryName);
      s.(blacklistItems := RemoveFirst(s.blacklistItems, item.registryName))
  }

  /** List.remove on a list without duplicates leaves no occurrence of the name. */
  lemma RemoveFromDistinct(list: seq<string>, x: string)
    ensures NoDuplicates(list) ==> x !in RemoveFirst(list, x)
  {
    if NoDuplicates(list) && x in list {
      var r := RemoveFirst(list, x);
      assert multiset(list)[x] == 1 by {
        var i :| 0 <= i < |list| && list[i] == x;
        CountDistinct(list, i);
      }
      assert multiset(r)[x] == 0;
    }
  }

  lemma {:induction false} CountDistinct(list: seq<string>, i: int)
    requires NoDuplicates(list) && 0 <= i < |list|
    ensures multiset(list)[list[i]] == 1
  {
    var n := |list| - 1;
    assert list == list[..n] + [list[n]];
    if i == n {
      assert list[n] !in list[..n];
    } else {
      CountDistinct(list[..n], i);
      assert list[..n][i] == list[i];
    }
  }

  /** isInBlacklist: a non-empty stack whose registry name is a non-empty entry of the list. */
  predicate InBlacklist(s: RingState, item: ItemView)
  {
    !item.isEmpty && exists i :: 0 <= i < |s.blacklistItems| && s.blacklistItems[i] != "" && s.blacklistItems[i] == item.registryName
  }

  /** getBlacklistItems: the configured default list when locked, a copy of the list otherwise. */
  function BlacklistItemsOf(cfg: RingConfig, s: RingState): seq<string>
  {
    if cfg.allowCustomFilters then s.blacklistItems
    else if cfg.ModeList().None? then []
    else NormalizedList(cfg.ModeList().value)
  }

  /** With filters locked, the list a new capability loads is exactly the one getBlacklistItems reports. */
  lemma LockedListIsConfigured(cfg: RingConfig)
    requires !cfg.allowCustomFilters && cfg.CanLoadDefaults()
    ensures BlacklistItemsOf(cfg, InitialState(cfg)) == InitialState(cfg).blacklistItems
    ensures forall name :: name in BlacklistItemsOf(cfg, InitialState(cfg)) ==> name != "" && HasColon(name)
  {
  }

  /**
   * With filters locked, getFilterSlot reads the configured array by slot
   * while getBlacklistItems skips blank entries. A blank first entry: slot 0
   * reads "" although the reported list starts with the second entry.
   */
  lemma LockedFilterSlotSkipsBlank(s: RingState)
    ensures var cfg := RingConfig(true, Some([Some(" "), Some("minecraft:stone")]), None, false, 0, 0);
      && FilterSlotOf(cfg, s, 0) == ""
      && BlacklistItemsOf(cfg, s) == ["minecraft:stone"]
  {
    var stone: string := "minecraft:stone";
    assert Blank(" ");
    assert Trimmed(stone) && !Blank(stone);
    TrimOfTrimmed(stone);
    assert stone[9] == ':';
    var items := [Some(" "), Some(stone)];
    assert items[..1] == [Some(" ")];
    assert items[..1][..0] == [];
  }

  /** writeNBT: the terminal (when bound), the flags, the stored energy and the list. */
  function WriteNbt(s: RingState): (tag: Compound)
    ensures HasKey(tag, "x") <==> IsBound(s)
    ensures HasKey(tag, "blacklistItems") && HasKey(tag, "whitelistMode") && HasKey(tag, "enabled") && HasKey(tag, "energy")
  {
    var t0 := Empty;
    var t1 := if s.terminalPos.Some? then
        SetInteger(SetInteger(SetInteger(SetInteger(t0, "x", s.terminalPos.value.x), "y", s.terminalPos.value.y),
                              "z", s.terminalPos.value.z), "dimension", s.terminalDimension)
      else t0;
    var t2 := SetInteger(SetBoolean(t1, "enabled", s.enabled), "energy", s.energy.energy);
    SetStringList(SetBoolean(t2, "whitelistMode", s.whitelistMode), "blacklistItems", s.blacklistItems)
  }

  /** readNBT into a capability whose state is s. */
  function ReadNbtState(cfg: RingConfig, s: RingState, tag: Compound): (r: RingState)
    requires HasKey(tag, "blacklistItems") || cfg.CanLoadDefaults()
    ensures r.energy.capacity == ConfiguredMaxEnergy(cfg) && 0 <= r.energy.energy <= r.energy.capacity
    ensures r.energy.energy == Max(0, Min(GetInteger(tag, "energy"), r.energy.capacity))
    ensures !(HasKey(tag, "x") && HasKey(tag, "y") && HasKey(tag, "z")) ==>
      r.terminalPos == s.terminalPos && r.terminalDimension == s.terminalDimension
    ensures !HasKey(tag, "whitelistMode") ==> r.whitelistMode == cfg.ConfiguredWhitelistMode()
    ensures !HasKey(tag, "blacklistItems") ==> r.blacklistItems == DefaultFilterList(cfg)
  {
    var max := ConfiguredMaxEnergy(cfg);
    var hasPos := HasKey(tag, "x") && HasKey(tag, "y") && HasKey(tag, "z");
    RingState(
      if hasPos then Some(BlockPos(GetInteger(tag, "x"), GetInteger(tag, "y"), GetInteger(tag, "z"))) else s.terminalPos,
      if hasPos then GetInteger(tag, "dimension") else s.terminalDimension,
      GetBoolean(tag, "enabled"),
      if HasKey(tag, "blacklistItems") then GetStringList(tag, "blacklistItems") else DefaultFilterList(cfg),
      if HasKey(tag, "whitelistMode") then GetBoolean(tag, "whitelistMode") else cfg.ConfiguredWhitelistMode(),
      NewEnergyStorage(max, MaxIo, MaxIo, Min(GetInteger(tag, "energy"), max)))
  }

  /**
   * Reading back what writeNBT wrote restores the flags, the list and the
   * energy (clamped into [0, configured capacity]); the terminal is restored
   * when it was bound, and otherwise the reader keeps its own.
   */
  lemma ReadNbtOfWriteNbt(cfg: RingConfig, written: RingState, reader: RingState)
    ensures var r := ReadNbtState(cfg, reader, WriteNbt(written));
      && r.enabled == written.enabled
      && r.whitelistMode == written.whitelistMode
      && r.blacklistItems == written.blacklistItems
      && r.energy.energy == Max(0, Min(written.energy.energy, ConfiguredMaxEnergy(cfg)))
      && (IsBound(written) ==> r.terminalPos == written.terminalPos && r.terminalDimension == written.terminalDimension)
      && (!IsBound(written) ==> r.terminalPos == reader.terminalPos && r.terminalDimension == reader.terminalDimension)
  {
    var tag := WriteNbt(written);
    if IsBound(written) {
      var p := written.terminalPos.value;
      assert GetInteger(tag, "x") == p.x && GetInteger(tag, "y") == p.y && GetInteger(tag, "z") == p.z;
      assert GetInteger(tag, "dimension") == written.terminalDimension;
    } else {
      assert !HasKey(tag, "y") || !HasKey(tag, "x");
    }
  }

  /** The capability object. */
  class Capability {
    const config: RingConfig
    var terminalPos: Option<BlockPos>
    var terminalDimension: int
    var enabled: bool
    var blacklistItems: seq<string>
    var whitelistMode: bool
    var energyStorage: EnergyStorage

    function State(): RingState
      reads this
    {
      RingState(terminalPos, terminalDimension, enabled, blacklistItems, whitelistMode, energyStorage)
    }

    /** The constructor: the default filter list and the configured initial energy. */
    constructor (cfg: RingConfig)
      requires cfg.CanLoadDefaults()
      ensures config == cfg && State() == InitialState(cfg)
    {
      config := cfg;
      terminalPos := None;
      terminalDimension := 0;
      enabled := false;
      whitelistMode := cfg.ConfiguredWhitelistMode();
      energyStorage := CreateEnergyStorage(cfg, ConfiguredInitialEnergy(cfg));
      blacklistItems := [];
      new;
      LoadDefaultFilterList();
    }

    /** loadDefaultFilterList: clears the list, then, when locked, adds each non-blank configured name. */
    method LoadDefaultFilterList()
      requires config.CanLoadDefaults()
      modifies this
      ensures State() == old(State()).(blacklistItems := DefaultFilterList(config))
    {
      blacklistItems := [];
      if config.allowCustomFilters {
        return;
      }
      var items := config.ModeList().value;
      var i := 0;
      while i < |items|
        invariant 0 <= i <= |items|
        invariant blacklistItems == NormalizedList(items[..i])
        invariant unchanged(`terminalPos, `terminalDimension, `enabled, `whitelistMode, `energyStorage)
      {
        NormalizedStep(items, i);
        AddDefaultItem(items[i]);
        i := i + 1;
      }
      assert items[..i] == items;
    }

    /** One step of loadDefaultFilterList's loop: a non-blank entry is trimmed, namespaced when bare, and appended. */
    method AddDefaultItem(item: Option<string>)
      modifies this
      ensures State() == old(State()).(blacklistItems := old(blacklistItems) + (if Normalize(item) != "" then [Normalize(item)] else []))
    {
      if item.Some? && Trim(item.value) != "" {
        var formatted := Trim(item.value);
        if !HasColon(formatted) {
          formatted := DefaultNamespace + formatted;
        }
        assert formatted == Normalize(item) != "";
        blacklistItems := blacklistItems + [formatted];
      } else {
        assert Normalize(item) == "";
      }
    }

    /** refreshEnergyStorage. */
    method RefreshEnergyStorage()
      modifies this
      ensures State() == old(State()).(energy := RefreshedEnergy(config, old(energyStorage)))
    {
      var configuredMax := ConfiguredMaxEnergy(config);
      if energyStorage.capacity != configuredMax {
        var stored := Min(energyStorage.energy, configuredMax);
        energyStorage := NewEnergyStorage(configuredMax, MaxIo, MaxIo, stored);
      }
    }

    /** bindTerminal: the position and the world's dimension. */
    method BindTerminal(dimension: int, pos: BlockPos)
      modifies this
      ensures State() == old(State()).(terminalPos := Some(pos), terminalDimension := dimension)
      ensures IsBound(State())
    {
      terminalPos := Some(pos);
      terminalDimension := dimension;
    }

    method SetEnabled(on: bool)
      modifies this
      ensures State() == old(State()).(enabled := on)
    {
      enabled := on;
    }

    /** copy: a new capability with the same fields and a fresh storage holding the same energy, clamped. */
    method Copy() returns (c: Capability)
      requires config.CanLoadDefaults()
      ensures fresh(c) && c.config == config
      ensures c.State() == State().(energy := CreateEnergyStorage(config, energyStorage.energy))
    {
      c := new Capability(config);
      c.terminalPos := terminalPos;
      c.terminalDimension := terminalDimension;
      c.enabled := enabled;
      c.blacklistItems := blacklistItems;
      c.whitelistMode := whitelistMode;
      c.energyStorage := CreateEnergyStorage(config, energyStorage.energy);
    }

    method AddToBlacklist(item: ItemView)
      modifies this
      ensures State() == WithAdded(config, old(State()), item)
    {
      if !config.allowCustomFilters {
        return;
      }
      if !item.isEmpty && item.registryName !in blacklistItems {
        blacklistItems := blacklistItems + [item.registryName];
      }
    }

    method RemoveFromBlacklist(item: ItemView)
      modifies this
      ensures State() == WithRemoved(config, old(State()), item)
    {
      if !config.allowCustomFilters {
        return;
      }
      if !item.isEmpty {
        blacklistItems := RemoveFirst(blacklistItems, item.registryName);
      }
    }

    /** isInBlacklist: a scan of the list for the registry name. */
    method IsInBlacklist(item: ItemView) returns (r: bool)
      ensures r <==> InBlacklist(State(), item)
    {
      if item.isEmpty {
        return false;
      }
      var i := 0;
      while i < |blacklistItems|
        invariant 0 <= i <= |blacklistItems|
        invariant forall j :: 0 <= j < i ==> !(blacklistItems[j] != "" && blacklistItems[j] == item.registryName)
      {
        var s := blacklistItems[i];
        if s != "" && s == item.registryName {
          return true;
        }
        i := i + 1;
      }
      return false;
    }

    function IsWhitelistMode(): bool
      reads this
    {
      WhitelistModeOf(config, State())
    }

    /** setWhitelistMode: a no-op when custom filters are disallowed. */
    method SetWhitelistMode(on: bool)
      modifies this
      ensures config.allowCustomFilters ==> State() == old(State()).(whitelistMode := on) && IsWhitelistMode() == on
      ensures !config.allowCustomFilters ==> State() == old(State())
    {
      if !config.allowCustomFilters {
        return;
      }
      whitelistMode := on;
    }

    /** getBlacklistItems: when locked, the normalized non-blank config names, collected in a loop. */
    method GetBlacklistItems() returns (r: seq<string>)
      ensures r == BlacklistItemsOf(config, State())
    {
      if config.allowCustomFilters {
        return blacklistItems;
      }
      var configItems := config.ModeList();
      r := [];
      if configItems.Some? {
        var items := configItems.value;
        var i := 0;
        while i < |items|
          invariant 0 <= i <= |items|
          invariant r == NormalizedList(items[..i])
        {
          NormalizedStep(items, i);
          var normalized := Normalize(items[i]);
          if normalized != "" {
            r := r + [normalized];
          }
          i := i + 1;
        }
        assert items[..i] == items;
      }
    }

    /** setFilterSlot: pads the list with "" up to the slot, then sets it. */
    method SetFilterSlot(slot: int, name: Option<string>)
      modifies this
      ensures State() == WithFilterSlot(config, old(State()), slot, name)
    {
      if !config.allowCustomFilters {
        return;
      }
      if slot < 0 || slot > 8 {
        return;
      }
      while |blacklistItems| <= slot
        invariant |old(blacklistItems)| <= |blacklistItems| <= Max(|old(blacklistItems)|, slot + 1)
        invariant blacklistItems == Padded(old(blacklistItems), |blacklistItems|)
        invariant State() == old(State()).(blacklistItems := blacklistItems)
        decreases slot - |blacklistItems|
      {
        blacklistItems := blacklistItems + [""];
      }
      blacklistItems := blacklistItems[slot := SlotValue(name)];
    }

    function GetFilterSlot(slot: int): string
      reads this
    {
      FilterSlotOf(config, State(), slot)
    }

    /** readNBT. */
    method ReadNbt(tag: Compound)
      requires HasKey(tag, "blacklistItems") || config.CanLoadDefaults()
      modifies this
      ensures State() == ReadNbtState(config, old(State()), tag)
    {
      if HasKey(tag, "x") && HasKey(tag, "y") && HasKey(tag, "z") {
        terminalPos := Some(BlockPos(GetInteger(tag, "x"), GetInteger(tag, "y"), GetInteger(tag, "z")));
        terminalDimension := GetInteger(tag, "dimension");
      }
      enabled := GetBoolean(tag, "enabled");
      var maxEnergy := ConfiguredMaxEnergy(config);
      var energy := Min(GetInteger(tag, "energy"), maxEnergy);
      energyStorage := NewEnergyStorage(maxEnergy, MaxIo, MaxIo, energy);
      if HasKey(tag, "whitelistMode") {
        whitelistMode := GetBoolean(tag, "whitelistMode");
      } else {
        whitelistMode := config.ConfiguredWhitelistMode();
      }
      if HasKey(tag, "blacklistItems") {
        var list := GetStringList(tag, "blacklistItems");
        blacklistItems := [];
        var i := 0;
        while i < |list|
          invariant 0 <= i <= |list| && blacklistItems == list[..i]
          invariant State() == ReadNbtState(config, old(State()), tag).(blacklistItems := blacklistItems)
        {
          blacklistItems := blacklistItems + [list[i]];
          i := i + 1;
        }
        assert list[..i] == list;
      } else {
        LoadDefaultFilterList();
      }
    }
  }
}
