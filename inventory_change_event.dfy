/**
 * com.moremod.experience.InventoryChangeEvent: an immutable record of one
 * inventory change (its kind, where it happened, the item involved and the
 * slot), with the queries the tank and ring caches use to decide whether
 * the change concerns them.
 */
module InventoryChangeEvent {
  import opened Wrappers
  import opened IntText
  import opened Nbt

  datatype ChangeType =
    | TankAdded | TankRemoved | TankModified
    | RingAdded | RingRemoved | RingModified
    | BaublesChanged | InventoryRefreshed
  {
    function DisplayName(): string
    {
      match this
      case TankAdded => "Tank Added"
      case TankRemoved => "Tank Removed"
      case TankModified => "Tank Modified"
      case RingAdded => "Ring Added"
      case RingRemoved => "Ring Removed"
      case RingModified => "Ring Modified"
      case BaublesChanged => "Baubles Changed"
      case InventoryRefreshed => "Inventory Refreshed"
    }
  }

  datatype InventoryLocation = PlayerInventory | Hotbar | Baubles | Offhand | Unknown
  {
    function DisplayName(): string
    {
      match this
      case PlayerInventory => "Player Inventory"
      case Hotbar => "Hotbar"
      case Baubles => "Baubles Slots"
      case Offhand => "Off Hand"
      case Unknown => "Unknown"
    }
  }

  /** The item class of a stack, as far as the event's instanceof tests can tell. */
  datatype ItemKind = PumpItem | ChestRingItem | OtherItem

  /**
   * An item stack: empty or not, its item's class and registry name, its
   * count, metadata and tag (what ItemStack.areItemStacksEqual compares), and
   * its display name.
   */
  datatype Stack = Stack(isEmpty: bool, kind: ItemKind, itemId: string, count: int, metadata: int,
                         tag: Option<Compound>, displayName: string)

  const EmptyStack: Stack := Stack(true, OtherItem, "minecraft:air", 0, 0, None, "Air")

  /** isExperienceTank: a non-empty ItemExperiencePump stack. */
  predicate IsExperienceTank(s: Stack) { !s.isEmpty && s.kind == PumpItem }

  /** isRing: a non-empty ItemChestRing stack. */
  predicate IsRing(s: Stack) { !s.isEmpty && s.kind == ChestRingItem }

  /**
   * The event. The player is reduced to its name (None for the no-argument
   * constructor's null player); the timestamp, read from the clock in the
   * source, is a parameter of the constructors.
   */
  datatype Event = Event(
    player: Option<string>,
    changeType: ChangeType,
    location: InventoryLocation,
    affectedItem: Stack,
    slotIndex: int,
    timestamp: int)
  {
    /** affectsTanks. */
    predicate AffectsTanks()
    {
      || changeType == TankAdded || changeType == TankRemoved || changeType == TankModified
      || (changeType == InventoryRefreshed && IsExperienceTank(affectedItem))
      || (changeType == BaublesChanged && IsExperienceTank(affectedItem))
    }

    /** affectsRings. */
    predicate AffectsRings()
    {
      || changeType == RingAdded || changeType == RingRemoved || changeType == RingModified
      || (changeType == InventoryRefreshed && IsRing(affectedItem))
      || (changeType == BaublesChanged && IsRing(affectedItem))
    }

    /** affectsBaubles. */
    predicate AffectsBaubles()
    {
      location == Baubles || changeType == BaublesChanged
    }

    /** The player part of getDescription. */
    function PlayerPart(): string
    {
      if player.Some? then " for player " + player.value else ""
    }

    /** The item part of getDescription. */
    function ItemPart(): string
    {
      if affectedItem.isEmpty then "" else " (" + affectedItem.displayName + ")"
    }

    /** The slot part of getDescription: present only for a slot index of 0 or more. */
    function SlotPart(): string
    {
      if slotIndex >= 0 then " at slot " + IntToString(slotIndex) else ""
    }

    /**
     * getDescription: the change's name, the player, " in " and the location,
     * then the item's name and the slot when there are any.
     */
    function Description(): (d: string)
      ensures |d| == |changeType.DisplayName()| + |PlayerPart()| + 4 + |location.DisplayName()| + |ItemPart()| + |SlotPart()|
      ensures d[..|changeType.DisplayName()|] == changeType.DisplayName()
      ensures slotIndex >= 0 ==> d[|d| - |SlotPart()|..] == " at slot " + IntToString(slotIndex)
      ensures slotIndex < 0 && affectedItem.isEmpty ==> d[|d| - |location.DisplayName()|..] == location.DisplayName()
      ensures slotIndex < 0 && !affectedItem.isEmpty ==> d[|d| - 1] == ')'
      ensures player.None? ==> d[|changeType.DisplayName()|..|changeType.DisplayName()| + 4] == " in "
    {
      var name := changeType.DisplayName();
      var who := PlayerPart();
      var where := location.DisplayName();
      var item := ItemPart();
      var slot := SlotPart();
      ConcatParts(name, who, " in ", where, item, slot);
      name + who + " in " + where + item + slot
    }
  }

  /** Where each of six concatenated parts sits in the whole. */
  lemma ConcatParts(a: string, b: string, c: string, e: string, f: string, g: string)
    ensures var x := a + b + c + e + f + g;
      && |x| == |a| + |b| + |c| + |e| + |f| + |g|
      && x[..|a|] == a
      && x[|a| + |b|..|a| + |b| + |c|] == c
      && x[|x| - |g|..] == g
      && (g == [] ==> x[|x| - |f|..] == f)
      && (f == [] && g == [] ==> x[|x| - |e|..] == e)
  {
  }

  /** The five-argument constructor: a null item becomes EMPTY. */
  function NewEvent(player: Option<string>, changeType: ChangeType, location: InventoryLocation,
                    item: Option<Stack>, slot: int, now: int): (e: Event)
    ensures e.changeType == changeType && e.location == location && e.slotIndex == slot && e.player == player
    ensures item.None? ==> e.affectedItem == EmptyStack
    ensures item.Some? ==> e.affectedItem == item.value
    ensures e.timestamp == now
  {
    Event(player, changeType, location, item.GetOr(EmptyStack), slot, now)
  }

  /** The no-argument constructor: no player, INVENTORY_REFRESHED, UNKNOWN, EMPTY, slot -1. */
  function DefaultEvent(now: int): (e: Event)
    ensures e.player.None? && e.changeType == InventoryRefreshed && e.location == Unknown
    ensures e.affectedItem.isEmpty && e.slotIndex == -1
    ensures !e.AffectsTanks() && !e.AffectsRings() && !e.AffectsBaubles()
    ensures e.Description() == "Inventory Refreshed in Unknown"
  {
    Event(None, InventoryRefreshed, Unknown, EmptyStack, -1, now)
  }

  /** The four-argument constructor: slot -1. */
  function EventWithoutSlot(player: Option<string>, changeType: ChangeType, location: InventoryLocation,
                            item: Option<Stack>, now: int): (e: Event)
    ensures e == NewEvent(player, changeType, location, item, -1, now)
    ensures e.SlotPart() == ""
  {
    NewEvent(player, changeType, location, item, -1, now)
  }

  /** The three-argument constructor: no item and slot -1. */
  function GeneralEvent(player: Option<string>, changeType: ChangeType, location: InventoryLocation, now: int): (e: Event)
    ensures e == NewEvent(player, changeType, location, Some(EmptyStack), -1, now)
    ensures e.ItemPart() == "" && e.SlotPart() == ""
  {
    NewEvent(player, changeType, location, Some(EmptyStack), -1, now)
  }

  /** The factory methods: tankAdded … ringModified take a change type and a slot. */
  function TankAddedEvent(player: Option<string>, loc: InventoryLocation, tank: Option<Stack>, slot: int, now: int): Event
  { NewEvent(player, TankAdded, loc, tank, slot, now) }

  function TankRemovedEvent(player: Option<string>, loc: InventoryLocation, tank: Option<Stack>, slot: int, now: int): Event
  { NewEvent(player, TankRemoved, loc, tank, slot, now) }

  function TankModifiedEvent(player: Option<string>, loc: InventoryLocation, tank: Option<Stack>, slot: int, now: int): Event
  { NewEvent(player, TankModified, loc, tank, slot, now) }

  function RingAddedEvent(player: Option<string>, loc: InventoryLocation, ring: Option<Stack>, slot: int, now: int): Event
  { NewEvent(player, RingAdded, loc, ring, slot, now) }

  function RingRemovedEvent(player: Option<string>, loc: InventoryLocation, ring: Option<Stack>, slot: int, now: int): Event
  { NewEvent(player, RingRemoved, loc, ring, slot, now) }

  function RingModifiedEvent(player: Option<string>, loc: InventoryLocation, ring: Option<Stack>, slot: int, now: int): Event
  { NewEvent(player, RingModified, loc, ring, slot, now) }

  /** baublesChanged: always at the BAUBLES location. */
  function BaublesChangedEvent(player: Option<string>, item: Option<Stack>, slot: int, now: int): Event
  { NewEvent(player, BaublesChanged, Baubles, item, slot, now) }

  /** inventoryRefreshed: no item, no slot. */
  function InventoryRefreshedEvent(player: Option<string>, loc: InventoryLocation, now: int): Event
  { GeneralEvent(player, InventoryRefreshed, loc, now) }

  /**
   * The tank events concern the tank cache whatever item they carry, and
   * never the ring cache; they concern Baubles only when they happen there.
   */
  lemma TankEventsAffectOnlyTanks(player: Option<string>, loc: InventoryLocation, item: Option<Stack>, slot: int, now: int)
    ensures forall e :: e in [TankAddedEvent(player, loc, item, slot, now), TankRemovedEvent(player, loc, item, slot, now),
                              TankModifiedEvent(player, loc, item, slot, now)] ==>
      e.AffectsTanks() && !e.AffectsRings() && (e.AffectsBaubles() <==> loc == Baubles)
  {
  }

  /** The ring events concern the ring cache and never the tank cache. */
  lemma RingEventsAffectOnlyRings(player: Option<string>, loc: InventoryLocation, item: Option<Stack>, slot: int, now: int)
    ensures forall e :: e in [RingAddedEvent(player, loc, item, slot, now), RingRemovedEvent(player, loc, item, slot, now),
                              RingModifiedEvent(player, loc, item, slot, now)] ==>
      e.AffectsRings() && !e.AffectsTanks() && (e.AffectsBaubles() <==> loc == Baubles)
  {
  }

  /**
   * A Baubles change always concerns Baubles; it concerns the tank cache
   * exactly when its item is a pump and the ring cache exactly when it is a
   * chest ring, so never both.
   */
  lemma BaublesEventDependsOnItem(player: Option<string>, item: Option<Stack>, slot: int, now: int)
    ensures var e := BaublesChangedEvent(player, item, slot, now);
      && e.AffectsBaubles() && e.location == Baubles
      && (e.AffectsTanks() <==> item.Some? && IsExperienceTank(item.value))
      && (e.AffectsRings() <==> item.Some? && IsRing(item.value))
      && !(e.AffectsTanks() && e.AffectsRings())
  {
  }

  /** inventoryRefreshed carries no item, so it concerns neither cache. */
  lemma RefreshEventAffectsNeitherCache(player: Option<string>, loc: InventoryLocation, now: int)
    ensures var e := InventoryRefreshedEvent(player, loc, now);
      !e.AffectsTanks() && !e.AffectsRings() && (e.AffectsBaubles() <==> loc == Baubles)
  {
  }

  /** A slot index of 0 or more is the last thing the description prints. */
  lemma DescriptionEndsWithSlot(e: Event)
    requires e.slotIndex >= 0
    ensures var d := e.Description(); var tail := " at slot " + IntToString(e.slotIndex);
      |d| >= |tail| && d[|d| - |tail|..] == tail
  {
  }
}
