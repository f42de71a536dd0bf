/**
 * com.rsring.item.ItemAbsorbRing: the ring's item filter (the configured
 * default list plus the nine filter slots, read as a whitelist or a
 * blacklist), the dimension names it shows, and the arithmetic of one
 * absorb pass: how many items of each dropped stack it tries to move into
 * the bound inventory, how much energy that costs and what is left behind.
 */
module AbsorbRing {
  import opened Wrappers
  import opened JavaInt
  import opened IntText
  import opened ItemNames
  import opened RsRingCapability

  /** getDimensionName: the overworld, the nether and the end by name; any other id as "维度 <id>". */
  function DimensionName(dim: int): (r: string)
    ensures dim == 0 ==> r == "主世界"
    ensures dim == -1 ==> r == "下界"
    ensures dim == 1 ==> r == "末地"
    ensures dim !in {0, -1, 1} ==> r == "维度 " + IntToString(dim)
  {
    if dim == 0 then "主世界"
    else if dim == -1 then "下界"
    else if dim == 1 then "末地"
    else "维度 " + IntToString(dim)
  }

  /** Distinct dimension ids get distinct names. */
  lemma DimensionNameInjective(a: int, b: int)
    requires IsInt(a) && IsInt(b) && a != b
    ensures DimensionName(a) != DimensionName(b)
  {
    var prefix := "维度 ";
    if a !in {0, -1, 1} && b !in {0, -1, 1} {
      assert DimensionName(a)[|prefix|..] == IntToString(a);
      assert DimensionName(b)[|prefix|..] == IntToString(b);
      ParseIntOfIntToString(a);
      ParseIntOfIntToString(b);
    } else if a !in {0, -1, 1} || b !in {0, -1, 1} {
      assert DimensionName(a)[0] != DimensionName(b)[0];
    }
  }

  /** An entry of a configured list that is neither null nor blank. */
  predicate NonBlankEntry(item: Option<string>)
  {
    item.Some? && !Blank(item.value)
  }

  /** What hasAnyDefaultFilter decides: the mode's configured list holds a non-blank entry. */
  predicate AnyDefaultFilter(cfg: RingConfig, whitelistMode: bool)
  {
    var items := cfg.ConfiguredFilterList(whitelistMode);
    items.Some? && exists i :: 0 <= i < |items.value| && NonBlankEntry(items.value[i])
  }

  /** Each entry of a configured list as isInDefaultList compares it: normalized, "" for null or blank. */
  function NormalizeAll(items: seq<Option<string>>): (r: seq<string>)
    ensures |r| == |items| && forall i :: 0 <= i < |items| ==> r[i] == Normalize(items[i])
  {
    seq(|items|, i requires 0 <= i < |items| => Normalize(items[i]))
  }

  /** What isInDefaultList decides: a non-empty name equal to some normalized entry of the mode's list. */
  predicate InDefaultList(cfg: RingConfig, itemName: string, whitelistMode: bool)
  {
    var items := cfg.ConfiguredFilterList(whitelistMode);
    itemName != "" && items.Some? && itemName in NormalizeAll(items.value)
  }

  /** A filter slot of the capability names this item. */
  predicate InFilterSlots(cfg: RingConfig, s: RingState, itemName: string)
  {
    exists i :: 0 <= i < FilterSlots && FilterSlotOf(cfg, s, i) != "" && FilterSlotOf(cfg, s, i) == itemName
  }

  /** What hasAnyFilter decides: a non-blank default entry or a non-empty slot. */
  predicate AnyFilter(cfg: RingConfig, s: RingState)
  {
    AnyDefaultFilter(cfg, WhitelistModeOf(cfg, s))
    || exists i :: 0 <= i < FilterSlots && FilterSlotOf(cfg, s, i) != ""
  }

  /** What shouldFilterItem decides: skip a listed item in blacklist mode and an unlisted one in whitelist mode. */
  predicate Filtered(cfg: RingConfig, s: RingState, itemName: string)
  {
    var whitelist := WhitelistModeOf(cfg, s);
    var listed := InDefaultList(cfg, itemName, whitelist) || InFilterSlots(cfg, s, itemName);
    if whitelist then !listed else listed
  }

  /** hasAnyDefaultFilter: a scan of the mode's configured list. */
  method HasAnyDefaultFilter(cfg: RingConfig, whitelistMode: bool) returns (r: bool)
    ensures r <==> AnyDefaultFilter(cfg, whitelistMode)
  {
    var items := cfg.ConfiguredFilterList(whitelistMode);
    if items.None? {
      return false;
    }
    var list := items.value;
    var i := 0;
    while i < |list|
      invariant 0 <= i <= |list|
      invariant forall j :: 0 <= j < i ==> !NonBlankEntry(list[j])
    {
      var item := list[i];
      if item.Some? && Trim(item.value) != "" {
        return true;
      }
      i := i + 1;
    }
    return false;
  }

  /** isInDefaultList: a scan that normalizes each configured entry and compares it with the name. */
  method IsInDefaultList(cfg: RingConfig, itemName: Option<string>, whitelistMode: bool) returns (r: bool)
    ensures itemName.None? ==> !r
    ensures itemName.Some? ==> (r <==> InDefaultList(cfg, itemName.value, whitelistMode))
  {
    if itemName.None? || itemName.value == "" {
      return false;
    }
    var name := itemName.value;
    var items := cfg.ConfiguredFilterList(whitelistMode);
    if items.None? {
      return false;
    }
    var list := items.value;
    ghost var names := NormalizeAll(list);
    var i := 0;
    while i < |list|
      invariant 0 <= i <= |list|
      invariant forall j :: 0 <= j < i ==> names[j] != name
    {
      var item := list[i];
      if item.Some? {
        var formatted := Trim(item.value);
        if formatted != "" {
          if !HasColon(formatted) {
            formatted := DefaultNamespace + formatted;
          }
          assert formatted == Normalize(item);
          if formatted == name {
            return true;
          }
        }
      }
      i := i + 1;
    }
    return false;
  }

  /** hasAnyFilter: the default list, then the nine slots. */
  method HasAnyFilter(cap: Capability) returns (r: bool)
    ensures r <==> AnyFilter(cap.config, cap.State())
  {
    var whitelist := cap.IsWhitelistMode();
    var anyDefault := HasAnyDefaultFilter(cap.config, whitelist);
    if anyDefault {
      return true;
    }
    var i := 0;
    while i < FilterSlots
      invariant 0 <= i <= FilterSlots
      invariant forall j :: 0 <= j < i ==> FilterSlotOf(cap.config, cap.State(), j) == ""
    {
      var filterName := cap.GetFilterSlot(i);
      if filterName != "" {
        return true;
      }
      i := i + 1;
    }
    return false;
  }

  /** shouldFilterItem: the default list, then a scan of the nine slots, read through the mode. */
  method ShouldFilterItem(cap: Capability, itemName: string) returns (r: bool)
    ensures r <==> Filtered(cap.config, cap.State(), itemName)
  {
    var whitelist := cap.IsWhitelistMode();
    var inList := IsInDefaultList(cap.config, Some(itemName), whitelist);
    var i := 0;
    while i < FilterSlots && !inList
      invariant 0 <= i <= FilterSlots
      invariant inList ==> InDefaultList(cap.config, itemName, whitelist) || InFilterSlots(cap.config, cap.State(), itemName)
      invariant !inList ==> !InDefaultList(cap.config, itemName, whitelist)
      invariant !inList ==> forall j :: 0 <= j < i ==> !(FilterSlotOf(cap.config, cap.State(), j) != "" && FilterSlotOf(cap.config, cap.State(), j) == itemName)
    {
      var filterName := cap.GetFilterSlot(i);
      if filterName != "" && filterName == itemName {
        inList := true;
      }
      i := i + 1;
    }
    r := if whitelist then !inList else inList;
  }

  /** A name found in the default list comes from a non-blank entry, so the list counts as a filter. */
  lemma DefaultListedMeansDefaultFilter(cfg: RingConfig, itemName: string, whitelistMode: bool)
    requires InDefaultList(cfg, itemName, whitelistMode)
    ensures AnyDefaultFilter(cfg, whitelistMode)
  {
    var items := cfg.ConfiguredFilterList(whitelistMode).value;
    var names := NormalizeAll(items);
    var i :| 0 <= i < |names| && names[i] == itemName;
    assert NonBlankEntry(items[i]);
  }

  /**
   * In whitelist mode with no filter at all, every item is skipped: the
   * early return of absorbItemsToChest only saves the work shouldFilterItem
   * would refuse anyway.
   */
  lemma WhitelistWithoutFilterSkipsAll(cfg: RingConfig, s: RingState, itemName: string)
    requires WhitelistModeOf(cfg, s) && !AnyFilter(cfg, s)
    ensures Filtered(cfg, s, itemName)
  {
    if InDefaultList(cfg, itemName, true) {
      DefaultListedMeansDefaultFilter(cfg, itemName, true);
    }
  }

  /** In blacklist mode, a name in one of the nine slots is skipped. */
  lemma BlacklistSlotIsSkipped(cfg: RingConfig, s: RingState, slot: int)
    requires !WhitelistModeOf(cfg, s) && 0 <= slot < FilterSlots && FilterSlotOf(cfg, s, slot) != ""
    ensures Filtered(cfg, s, FilterSlotOf(cfg, s, slot))
  {
  }

  /** In whitelist mode, a name in one of the nine slots is absorbed. */
  lemma WhitelistSlotIsAbsorbed(cfg: RingConfig, s: RingState, slot: int)
    requires WhitelistModeOf(cfg, s) && 0 <= slot < FilterSlots && FilterSlotOf(cfg, s, slot) != ""
    ensures !Filtered(cfg, s, FilterSlotOf(cfg, s, slot))
  {
  }

  /** A dropped item entity as the absorb pass sees it. */
  datatype ItemEntity = ItemEntity(isDead: bool, isAir: bool, registryName: string, count: int)
  {
    /** ItemStack.isEmpty: air or a count of zero or less. */
    predicate IsEmpty() { isAir || count <= 0 }
  }

  /**
   * IEnergyStorage.extractEnergy(amount, false) on the capability's Forge
   * EnergyStorage: it gives out at most the stored energy and at most its
   * maxExtract per call.
   */
  function ExtractEnergy(e: EnergyStorage, amount: int): (r: EnergyStorage)
    ensures r == e.(energy := r.energy)
    ensures e.maxExtract > 0 ==> r.energy == e.energy - Min(e.energy, Min(e.maxExtract, amount))
    ensures e.maxExtract <= 0 ==> r == e
  {
    if e.maxExtract <= 0 then e
    else e.(energy := e.energy - Min(e.energy, Min(e.maxExtract, amount)))
  }

  /** The item count one absorb step tries to move: all of it for free, otherwise what the energy pays for, but at least one. */
  function AttemptCount(costPerItem: int, energy: int, count: int): int
    requires costPerItem > 0 ==> energy >= costPerItem
  {
    var maxAffordable := if costPerItem > 0 then Max(1, energy / costPerItem) else IntMax;
    Min(count, maxAffordable)
  }

  /** A stack is attempted unless it is dead, empty, filtered or unaffordable. */
  predicate Attempted(cfg: RingConfig, s: RingState, costPerItem: int, energy: int, item: ItemEntity)
  {
    && !item.isDead && !item.IsEmpty()
    && !(costPerItem > 0 && energy < costPerItem)
    && !Filtered(cfg, s, item.registryName)
  }

  /** The outcome of one item entity: the storage after paying, and the entity after the insert. */
  datatype StepResult = StepResult(storage: EnergyStorage, item: ItemEntity)

  /**
   * One iteration of absorbItemsToChest's loop, given how many items the
   * target inventory accepted: pay min(stored, inserted * cost) (an int
   * product) and shrink the stack by the inserted amount, killing the entity
   * when nothing is left.
   */
  function AbsorbStep(cfg: RingConfig, s: RingState, costPerItem: int, storage: EnergyStorage,
                      item: ItemEntity, inserted: int): StepResult
  {
    if !Attempted(cfg, s, costPerItem, storage.energy, item) || inserted <= 0 then StepResult(storage, item)
    else
      var paid := if costPerItem > 0
        then ExtractEnergy(storage, Min(storage.energy, Wrap32(inserted * costPerItem)))
        else storage;
      var remaining := item.count - inserted;
      StepResult(paid, if remaining <= 0 then item.(isDead := true) else item.(count := remaining))
  }

  /**
   * The attempted count lies between one and the stack's count, and with a
   * cost it never asks for more than the stored energy pays for, unless a
   * single item already takes it all.
   */
  lemma AttemptCountBounds(costPerItem: int, energy: int, count: int)
    requires costPerItem >= 0 && count >= 1 && IsInt(count)
    requires costPerItem > 0 ==> energy >= costPerItem
    ensures 1 <= AttemptCount(costPerItem, energy, count) <= count
    ensures costPerItem == 0 ==> AttemptCount(costPerItem, energy, count) == count
    ensures costPerItem > 0 ==> AttemptCount(costPerItem, energy, count) * costPerItem <= energy
  {
    if costPerItem > 0 {
      var q := energy / costPerItem;
      DivBounds(energy, costPerItem);
      var a := AttemptCount(costPerItem, energy, count);
      assert a <= Max(1, q);
      if q >= 1 {
        assert a * costPerItem <= q * costPerItem;
      }
    }
  }

  /**
   * When the inventory accepts no more than was attempted, the int product
   * inserted * cost does not overflow (it is at most the stored energy, an
   * int), so the energy requested is exactly inserted * cost.
   */
  lemma RequestedIsExactCost(costPerItem: int, energy: int, count: int, inserted: int)
    requires costPerItem > 0 && energy >= costPerItem && IsInt(energy) && count >= 1 && IsInt(count)
    requires 0 < inserted <= AttemptCount(costPerItem, energy, count)
    ensures 0 < inserted * costPerItem <= energy
    ensures Min(energy, Wrap32(inserted * costPerItem)) == inserted * costPerItem
  {
    AttemptCountBounds(costPerItem, energy, count);
    var a := AttemptCount(costPerItem, energy, count);
    assert inserted * costPerItem <= a * costPerItem;
  }

  /**
   * One step, when the inventory accepted between one item and the
   * attempted count: the stack loses exactly the inserted items (the entity
   * dies when they were all of it), and the storage loses inserted * cost
   * energy, at most its maxExtract, and stays non-negative.
   */
  lemma AbsorbStepAccounts(cfg: RingConfig, s: RingState, costPerItem: int, storage: EnergyStorage,
                           item: ItemEntity, inserted: int)
    requires costPerItem >= 0 && 0 <= storage.energy && IsInt(storage.energy) && storage.maxExtract > 0 && IsInt(item.count)
    requires Attempted(cfg, s, costPerItem, storage.energy, item)
    requires 0 < inserted <= AttemptCount(costPerItem, storage.energy, item.count)
    ensures var r := AbsorbStep(cfg, s, costPerItem, storage, item, inserted);
      && (r.item.isDead <==> inserted == item.count)
      && (!r.item.isDead ==> r.item.count == item.count - inserted)
      && r.storage.energy == storage.energy - Min(inserted * costPerItem, storage.maxExtract)
      && r.storage.energy >= 0
  {
    AttemptCountBounds(costPerItem, storage.energy, item.count);
    if costPerItem > 0 {
      RequestedIsExactCost(costPerItem, storage.energy, item.count, inserted);
    }
  }

  /** absorbItemsToChest's entity loop over the nearby items, with what the inventory accepted for each. */
  function AbsorbAll(cfg: RingConfig, s: RingState, costPerItem: int, storage: EnergyStorage,
                     items: seq<ItemEntity>, accepted: seq<int>): (r: (EnergyStorage, seq<ItemEntity>))
    requires |accepted| == |items|
    ensures |r.1| == |items|
    ensures r.0 == storage.(energy := r.0.energy)
  {
    if items == [] then (storage, [])
    else
      var n := |items| - 1;
      var before := AbsorbAll(cfg, s, costPerItem, storage, items[..n], accepted[..n]);
      var step := AbsorbStep(cfg, s, costPerItem, before.0, items[n], accepted[n]);
      (step.storage, before.1 + [step.item])
  }

  /** An entity that is not attempted passes through the loop unchanged. */
  lemma {:induction false} SkippedEntityUnchanged(cfg: RingConfig, s: RingState, costPerItem: int,
                                                   storage: EnergyStorage, items: seq<ItemEntity>,
                                                   accepted: seq<int>, k: int)
    requires |accepted| == |items| && 0 <= k < |items|
    requires items[k].isDead || items[k].IsEmpty() || Filtered(cfg, s, items[k].registryName)
    ensures AbsorbAll(cfg, s, costPerItem, storage, items, accepted).1[k] == items[k]
  {
    var n := |items| - 1;
    var before := AbsorbAll(cfg, s, costPerItem, storage, items[..n], accepted[..n]);
    if k < n {
      assert items[..n][k] == items[k];
      SkippedEntityUnchanged(cfg, s, costPerItem, storage, items[..n], accepted[..n], k);
      assert AbsorbAll(cfg, s, costPerItem, storage, items, accepted).1[k] == before.1[k];
    }
  }

  /** One step never raises the stored energy nor takes it below zero, as long as inserted * cost is an int. */
  lemma StepEnergyBounds(cfg: RingConfig, s: RingState, costPerItem: int, storage: EnergyStorage,
                         item: ItemEntity, inserted: int)
    requires storage.energy >= 0 && costPerItem >= 0 && inserted >= 0 && IsInt(inserted * costPerItem)
    ensures var r := AbsorbStep(cfg, s, costPerItem, storage, item, inserted);
      0 <= r.storage.energy <= storage.energy
  {
    if costPerItem > 0 && inserted > 0 {
      assert 0 <= Min(storage.energy, Wrap32(inserted * costPerItem)) <= storage.energy;
    }
  }

  /**
   * Over a whole pass the stored energy never grows and never drops below
   * zero, as long as no product inserted * cost overflows an int.
   */
  lemma {:induction false} AbsorbAllEnergyBounds(cfg: RingConfig, s: RingState, costPerItem: int,
                                                  storage: EnergyStorage, items: seq<ItemEntity>, accepted: seq<int>)
    requires |accepted| == |items| && storage.energy >= 0 && costPerItem >= 0
    requires forall k :: 0 <= k < |accepted| ==> accepted[k] >= 0 && IsInt(accepted[k] * costPerItem)
    ensures 0 <= AbsorbAll(cfg, s, costPerItem, storage, items, accepted).0.energy <= storage.energy
  {
    if items != [] {
      var n := |items| - 1;
      var prefix := accepted[..n];
      assert forall k :: 0 <= k < n ==> prefix[k] == accepted[k];
      AbsorbAllEnergyBounds(cfg, s, costPerItem, storage, items[..n], prefix);
      var before := AbsorbAll(cfg, s, costPerItem, storage, items[..n], prefix);
      StepEnergyBounds(cfg, s, costPerItem, before.0, items[n], accepted[n]);
    }
  }

  /** Filtering reads the mode and the slots, never the energy. */
  lemma FilteredIgnoresEnergy(cfg: RingConfig, s: RingState, e: EnergyStorage, itemName: string)
    ensures Filtered(cfg, s.(energy := e), itemName) == Filtered(cfg, s, itemName)
  {
    var t := s.(energy := e);
    assert forall i :: FilterSlotOf(cfg, t, i) == FilterSlotOf(cfg, s, i);
  }

  /** The body of absorbItemsToChest's loop for one entity; the target accepted `inserted` items. */
  method AbsorbEntity(cap: Capability, ghost s: RingState, costPerItem: int, item: ItemEntity, inserted: int)
    returns (next: ItemEntity)
    requires cap.State() == s.(energy := cap.energyStorage)
    modifies cap
    ensures var r := AbsorbStep(cap.config, s, costPerItem, old(cap.energyStorage), item, inserted);
      next == r.item && cap.State() == s.(energy := r.storage)
  {
    FilteredIgnoresEnergy(cap.config, s, cap.energyStorage, item.registryName);
    next := item;
    var stored := cap.energyStorage.energy;
    if item.isDead || item.IsEmpty() || (costPerItem > 0 && stored < costPerItem) {
      return;
    }
    var filtered := ShouldFilterItem(cap, item.registryName);
    if filtered {
      return;
    }
    var originalCount := item.count;
    if inserted > 0 {
      if costPerItem > 0 {
        var energyToUse := Min(stored, Wrap32(inserted * costPerItem));
        cap.energyStorage := ExtractEnergy(cap.energyStorage, energyToUse);
      }
      var remaining := originalCount - inserted;
      if remaining <= 0 {
        next := item.(isDead := true);
      } else {
        next := item.(count := remaining);
      }
    }
  }

  /**
   * absorbItemsToChest: nothing when unbound, in whitelist mode without a
   * filter, or when the terminal's chunk is not loaded; otherwise the loop
   * over the nearby item entities. Where the items go and how many the
   * target takes (RS network or chest) is the accepted sequence.
   */
  method AbsorbItemsToChest(cap: Capability, terminalLoaded: bool, costPerItem: int,
                            items: seq<ItemEntity>, accepted: seq<int>) returns (out: seq<ItemEntity>)
    requires |accepted| == |items|
    modifies cap
    ensures !IsBound(old(cap.State())) || !terminalLoaded
            || (WhitelistModeOf(cap.config, old(cap.State())) && !AnyFilter(cap.config, old(cap.State())))
            ==> out == items && cap.State() == old(cap.State())
    ensures IsBound(old(cap.State())) && terminalLoaded
            && !(WhitelistModeOf(cap.config, old(cap.State())) && !AnyFilter(cap.config, old(cap.State())))
            ==> var r := AbsorbAll(cap.config, old(cap.State()), costPerItem, old(cap.energyStorage), items, accepted);
                out == r.1 && cap.State() == old(cap.State()).(energy := r.0)
  {
    out := items;
    if !cap.terminalPos.Some? {
      return;
    }
    var whitelist := cap.IsWhitelistMode();
    if whitelist {
      var any := HasAnyFilter(cap);
      if !any {
        return;
      }
    }
    if !terminalLoaded {
      return;
    }
    out := AbsorbLoop(cap, costPerItem, items, accepted);
  }

  /** absorbItemsToChest's loop over the nearby item entities. */
  method AbsorbLoop(cap: Capability, costPerItem: int, items: seq<ItemEntity>, accepted: seq<int>)
    returns (out: seq<ItemEntity>)
    requires |accepted| == |items|
    modifies cap
    ensures var r := AbsorbAll(cap.config, old(cap.State()), costPerItem, old(cap.energyStorage), items, accepted);
      out == r.1 && cap.State() == old(cap.State()).(energy := r.0)
  {
    ghost var s := cap.State();
    out := [];
    var i := 0;
    while i < |items|
      invariant 0 <= i <= |items|
      invariant cap.State() == s.(energy := cap.energyStorage)
      invariant (cap.energyStorage, out) == AbsorbAll(cap.config, s, costPerItem, s.energy, items[..i], accepted[..i])
    {
      assert items[..i + 1][..i] == items[..i];
      assert accepted[..i + 1][..i] == accepted[..i];
      var next := AbsorbEntity(cap, s, costPerItem, items[i], accepted[i]);
      out := out + [next];
      i := i + 1;
    }
    assert items[..i] == items;
    assert accepted[..i] == accepted;
  }
}
