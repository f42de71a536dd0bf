/**
 * com.moremod.experience.InventoryChangeHandler: every tenth player tick it
 * takes a snapshot of the relevant stacks (pumps and chest rings) in the
 * player's inventory, hotbar, off hand and Baubles slots, keyed
 * "LOCATION:slot", and compares it with the previous snapshot to fire added,
 * modified and removed events.
 *
 * Event posting is modelled by returning the events: the Baubles events in
 * the order they are posted, the snapshot diff as a set (the source walks a
 * HashMap, whose order is unspecified).
 */
module InventoryChangeHandler {
  import opened Wrappers
  import opened JavaInt
  import opened IntText
  import opened InventoryChangeEvent
  import opened SplitText

  const CheckInterval: int := 10

  /** InventoryLocation.name(). */
  function LocationName(loc: InventoryLocation): string
  {
    match loc
    case PlayerInventory => "PLAYER_INVENTORY"
    case Hotbar => "HOTBAR"
    case Baubles => "BAUBLES"
    case Offhand => "OFFHAND"
    case Unknown => "UNKNOWN"
  }

  /** InventoryLocation.valueOf: None where Java throws IllegalArgumentException. */
  function LocationValueOf(name: string): (r: Option<InventoryLocation>)
    ensures r.Some? ==> LocationName(r.value) == name
    ensures forall loc :: LocationName(loc) == name ==> r == Some(loc)
  {
    if name == "PLAYER_INVENTORY" then Some(PlayerInventory)
    else if name == "HOTBAR" then Some(Hotbar)
    else if name == "BAUBLES" then Some(Baubles)
    else if name == "OFFHAND" then Some(Offhand)
    else if name == "UNKNOWN" then Some(Unknown)
    else None
  }

  predicate NoColon(s: string) { Lacks(s, ':') }

  /** The snapshot key of a slot: location.name() + ":" + slot. */
  function Key(loc: InventoryLocation, slot: int): string
  {
    LocationName(loc) + ":" + IntToString(slot)
  }

  /** Java's s.split(":"). */
  function SplitKey(s: string): (r: seq<string>)
    ensures NoColon(s) ==> r == [s]
  {
    Split(s, ':')
  }

  /** Two colon-free pieces joined by one colon split back into the two, when the second is not empty. */
  lemma SplitTwo(a: string, b: string)
    requires NoColon(a) && NoColon(b) && b != []
    ensures SplitKey(a + ":" + b) == [a, b]
  {
    assert Join([a, b], ':') == a + ":" + b by {
      assert [a, b][1..] == [b];
    }
    SplitJoin([a, b], ':');
  }

  /** parseLocationFromKey: the first piece as a location name, UNKNOWN when it names none. */
  function ParseLocationFromKey(key: string): (r: InventoryLocation)
    ensures |SplitKey(key)| >= 1 && LocationValueOf(SplitKey(key)[0]).Some? ==> LocationName(r) == SplitKey(key)[0]
    ensures |SplitKey(key)| == 0 || LocationValueOf(SplitKey(key)[0]).None? ==> r == Unknown
  {
    var parts := SplitKey(key);
    if |parts| >= 1 then LocationValueOf(parts[0]).GetOr(Unknown) else Unknown
  }

  /** parseSlotFromKey: the second piece as an int, -1 when there is none or it is not a number. */
  function ParseSlotFromKey(key: string): (r: int)
    ensures IsInt(r)
    ensures |SplitKey(key)| < 2 || ParseInt(SplitKey(key)[1]).None? ==> r == -1
    ensures |SplitKey(key)| >= 2 && ParseInt(SplitKey(key)[1]).Some? ==> r == ParseInt(SplitKey(key)[1]).value
  {
    var parts := SplitKey(key);
    if |parts| >= 2 then ParseInt(parts[1]).GetOr(-1) else -1
  }

  lemma LocationNameNoColon(loc: InventoryLocation)
    ensures NoColon(LocationName(loc)) && LocationName(loc) != []
  {
  }

  /** A key parses back to its location and its slot. */
  lemma KeyRoundTrip(loc: InventoryLocation, slot: int)
    requires IsInt(slot)
    ensures ParseLocationFromKey(Key(loc, slot)) == loc
    ensures ParseSlotFromKey(Key(loc, slot)) == slot
  {
    LocationNameNoColon(loc);
    IntToStringHasNoColon(slot);
    SplitTwo(LocationName(loc), IntToString(slot));
    ParseIntOfIntToString(slot);
  }

  /** Different slots have different keys. */
  lemma KeyInjective(l1: InventoryLocation, s1: int, l2: InventoryLocation, s2: int)
    requires IsInt(s1) && IsInt(s2) && Key(l1, s1) == Key(l2, s2)
    ensures l1 == l2 && s1 == s2
  {
    KeyRoundTrip(l1, s1);
    KeyRoundTrip(l2, s2);
  }

  /** A key whose first piece names no location parses to UNKNOWN, keeping its slot. */
  lemma UnknownLocationParsesToUnknown(name: string, slot: int)
    requires NoColon(name) && LocationValueOf(name).None? && IsInt(slot)
    ensures ParseLocationFromKey(name + ":" + IntToString(slot)) == Unknown
    ensures ParseSlotFromKey(name + ":" + IntToString(slot)) == slot
  {
    IntToStringHasNoColon(slot);
    SplitTwo(name, IntToString(slot));
    ParseIntOfIntToString(slot);
  }

  /** A key whose second piece is not a number parses to slot -1. */
  lemma NonNumericSlotParsesToMinusOne(loc: InventoryLocation, slot: string)
    requires NoColon(slot) && slot != [] && ParseInt(slot).None?
    ensures ParseSlotFromKey(LocationName(loc) + ":" + slot) == -1
    ensures ParseLocationFromKey(LocationName(loc) + ":" + slot) == loc
  {
    LocationNameNoColon(loc);
    SplitTwo(LocationName(loc), slot);
  }

  /** isRelevantItem: a pump or a chest ring. */
  predicate Relevant(s: Stack) { IsExperienceTank(s) || IsRing(s) }

  /** ItemStack.areItemStacksEqual: two empties are equal; otherwise item, count, metadata and tag. */
  predicate StacksEqual(a: Stack, b: Stack)
  {
    if a.isEmpty || b.isEmpty then a.isEmpty && b.isEmpty
    else a.kind == b.kind && a.itemId == b.itemId && a.count == b.count && a.metadata == b.metadata && a.tag == b.tag
  }

  type Snapshot = map<string, Stack>

  /** InventorySnapshot.getItem: EMPTY for a key it does not hold. */
  function GetItem(snap: Snapshot, key: string): (r: Stack)
    ensures key !in snap ==> r.isEmpty
  {
    if key in snap then snap[key] else EmptyStack
  }

  /** InventorySnapshot.addItem: an empty stack is not stored. */
  function AddItem(snap: Snapshot, loc: InventoryLocation, slot: int, item: Stack): (r: Snapshot)
    ensures item.isEmpty ==> r == snap
    ensures !item.isEmpty ==> Key(loc, slot) in r && r[Key(loc, slot)] == item
    ensures forall k :: k != Key(loc, slot) ==> GetItem(r, k) == GetItem(snap, k)
  {
    if item.isEmpty then snap else snap[Key(loc, slot) := item]
  }

  /** The relevant stacks of one inventory, keyed by location and slot. */
  function SlotsMap(loc: InventoryLocation, stacks: seq<Stack>): (r: Snapshot)
    ensures forall k :: k in r ==> Relevant(r[k])
  {
    if stacks == [] then map[]
    else
      var m := SlotsMap(loc, stacks[..|stacks| - 1]);
      var last := stacks[|stacks| - 1];
      if Relevant(last) then AddItem(m, loc, |stacks| - 1, last) else m
  }

  /** Each slot of a slot map is present exactly when its stack is relevant, and then holds that stack. */
  lemma {:induction false} SlotsMapAt(loc: InventoryLocation, stacks: seq<Stack>, i: int)
    requires |stacks| <= IntMax && 0 <= i < |stacks|
    ensures Key(loc, i) in SlotsMap(loc, stacks) <==> Relevant(stacks[i])
    ensures Relevant(stacks[i]) ==> SlotsMap(loc, stacks)[Key(loc, i)] == stacks[i]
  {
    var n := |stacks| - 1;
    var init := stacks[..n];
    if i < n {
      SlotsMapAt(loc, init, i);
      if Key(loc, i) == Key(loc, n) {
        KeyInjective(loc, i, loc, n);
      }
      assert init[i] == stacks[i];
    } else if Key(loc, n) in SlotsMap(loc, init) {
      var j := SlotsMapKey(loc, init, Key(loc, n));
      KeyInjective(loc, j, loc, n);
    }
  }

  /** Every key of a slot map is the key of one of its slots. */
  lemma {:induction false} SlotsMapKey(loc: InventoryLocation, stacks: seq<Stack>, k: string) returns (i: int)
    requires k in SlotsMap(loc, stacks)
    ensures 0 <= i < |stacks| && k == Key(loc, i)
  {
    var n := |stacks| - 1;
    if k == Key(loc, n) {
      i := n;
    } else {
      i := SlotsMapKey(loc, stacks[..n], k);
    }
  }

  /** What a snapshot reads of a player: the main inventory, the off hand and, when Baubles is present, its slots. */
  datatype InventoryView = InventoryView(main: seq<Stack>, offhand: Stack, baubles: Option<seq<Stack>>)

  /** getStackInSlot for the nine hotbar slots: EMPTY beyond the inventory's size. */
  function HotbarSlots(main: seq<Stack>): (r: seq<Stack>)
    ensures |r| == 9
    ensures forall i :: 0 <= i < 9 ==> r[i] == (if i < |main| then main[i] else EmptyStack)
  {
    seq(9, i requires 0 <= i < 9 => if i < |main| then main[i] else EmptyStack)
  }

  /** The off hand's part of a snapshot: slot 0 when it holds a relevant stack. */
  function OffhandMap(offhand: Stack): Snapshot
  {
    if Relevant(offhand) then map[Key(Offhand, 0) := offhand] else map[]
  }

  /** The Baubles part of a snapshot: nothing when Baubles is absent. */
  function BaublesMap(baubles: Option<seq<Stack>>): Snapshot
  {
    if baubles.Some? then SlotsMap(Baubles, baubles.value) else map[]
  }

  /** createInventorySnapshot: inventory, hotbar, off hand (slot 0) and Baubles, in that order. */
  function SnapshotOf(inv: InventoryView): (r: Snapshot)
    ensures forall k :: k in r ==> Relevant(r[k])
  {
    SlotsMap(PlayerInventory, inv.main) + SlotsMap(Hotbar, HotbarSlots(inv.main)) + OffhandMap(inv.offhand) + BaublesMap(inv.baubles)
  }

  predicate InventoryFits(inv: InventoryView)
  {
    |inv.main| <= IntMax && (inv.baubles.Some? ==> |inv.baubles.value| <= IntMax)
  }

  /**
   * Every snapshot key is "LOCATION:slot" for a real location and a slot of
   * 0 or more, and parses back to both.
   */
  lemma SnapshotKeyForm(inv: InventoryView, k: string) returns (loc: InventoryLocation, slot: int)
    requires InventoryFits(inv) && k in SnapshotOf(inv)
    ensures k == Key(loc, slot) && loc != Unknown && 0 <= slot
    ensures ParseLocationFromKey(k) == loc && ParseSlotFromKey(k) == slot
  {
    if k in BaublesMap(inv.baubles) {
      loc := Baubles;
      slot := SlotsMapKey(Baubles, inv.baubles.value, k);
    } else if k in OffhandMap(inv.offhand) {
      loc, slot := Offhand, 0;
    } else if k in SlotsMap(Hotbar, HotbarSlots(inv.main)) {
      loc := Hotbar;
      slot := SlotsMapKey(Hotbar, HotbarSlots(inv.main), k);
    } else {
      loc := PlayerInventory;
      slot := SlotsMapKey(PlayerInventory, inv.main, k);
    }
    KeyRoundTrip(loc, slot);
  }

  /** A slot of a location holds its stack in the snapshot exactly when no other location can shadow it. */
  lemma NotInOtherParts(inv: InventoryView, loc: InventoryLocation, i: int)
    requires InventoryFits(inv) && 0 <= i <= IntMax
    ensures loc != Hotbar ==> Key(loc, i) !in SlotsMap(Hotbar, HotbarSlots(inv.main))
    ensures loc != Offhand ==> Key(loc, i) !in OffhandMap(inv.offhand)
    ensures loc != Baubles ==> Key(loc, i) !in BaublesMap(inv.baubles)
  {
    if loc != Hotbar && Key(loc, i) in SlotsMap(Hotbar, HotbarSlots(inv.main)) {
      var j := SlotsMapKey(Hotbar, HotbarSlots(inv.main), Key(loc, i));
      KeyInjective(loc, i, Hotbar, j);
    }
    if loc != Offhand && Key(loc, i) in OffhandMap(inv.offhand) {
      KeyInjective(loc, i, Offhand, 0);
    }
    if loc != Baubles && Key(loc, i) in BaublesMap(inv.baubles) {
      var j := SlotsMapKey(Baubles, inv.baubles.value, Key(loc, i));
      KeyInjective(loc, i, Baubles, j);
    }
  }

  /** A main inventory slot is in the snapshot exactly when its stack is relevant, with that stack. */
  lemma SnapshotHoldsInventorySlot(inv: InventoryView, i: int)
    requires InventoryFits(inv) && 0 <= i < |inv.main|
    ensures Key(PlayerInventory, i) in SnapshotOf(inv) <==> Relevant(inv.main[i])
    ensures Relevant(inv.main[i]) ==> SnapshotOf(inv)[Key(PlayerInventory, i)] == inv.main[i]
  {
    SlotsMapAt(PlayerInventory, inv.main, i);
    NotInOtherParts(inv, PlayerInventory, i);
  }

  /** The first nine slots are also recorded under HOTBAR. */
  lemma SnapshotHoldsHotbarSlot(inv: InventoryView, i: int)
    requires InventoryFits(inv) && 0 <= i < 9 && i < |inv.main|
    ensures Key(Hotbar, i) in SnapshotOf(inv) <==> Relevant(inv.main[i])
    ensures Relevant(inv.main[i]) ==> SnapshotOf(inv)[Key(Hotbar, i)] == inv.main[i]
  {
    SlotsMapAt(Hotbar, HotbarSlots(inv.main), i);
    NotInOtherParts(inv, Hotbar, i);
    if Key(Hotbar, i) in SlotsMap(PlayerInventory, inv.main) {
      var j := SlotsMapKey(PlayerInventory, inv.main, Key(Hotbar, i));
      KeyInjective(Hotbar, i, PlayerInventory, j);
    }
  }

  /** The off hand is recorded as OFFHAND:0 exactly when it holds a relevant stack. */
  lemma SnapshotHoldsOffhand(inv: InventoryView)
    requires InventoryFits(inv)
    ensures Key(Offhand, 0) in SnapshotOf(inv) <==> Relevant(inv.offhand)
    ensures Relevant(inv.offhand) ==> SnapshotOf(inv)[Key(Offhand, 0)] == inv.offhand
  {
    NotInOtherParts(inv, Offhand, 0);
    if Key(Offhand, 0) in SlotsMap(PlayerInventory, inv.main) {
      var j := SlotsMapKey(PlayerInventory, inv.main, Key(Offhand, 0));
      KeyInjective(Offhand, 0, PlayerInventory, j);
    }
  }

  lemma UnionUpdate(a: Snapshot, b: Snapshot, k: string, v: Stack)
    ensures a + b[k := v] == (a + b)[k := v]
  {
  }

  /** addItem for each relevant stack of one inventory, in slot order. */
  method AddSlots(snap: Snapshot, loc: InventoryLocation, stacks: seq<Stack>) returns (r: Snapshot)
    ensures r == snap + SlotsMap(loc, stacks)
  {
    r := snap;
    var i := 0;
    assert snap + map[] == snap;
    while i < |stacks|
      invariant 0 <= i <= |stacks|
      invariant r == snap + SlotsMap(loc, stacks[..i])
    {
      assert stacks[..i + 1][..i] == stacks[..i];
      if Relevant(stacks[i]) {
        UnionUpdate(snap, SlotsMap(loc, stacks[..i]), Key(loc, i), stacks[i]);
        r := AddItem(r, loc, i, stacks[i]);
      }
      i := i + 1;
    }
    assert stacks[..i] == stacks;
  }

  lemma UnionEmpty(m: Snapshot)
    ensures map[] + m == m && m + map[] == m
  {
  }

  /** createInventorySnapshot as the source writes it: a loop per inventory, adding relevant stacks. */
  method CreateInventorySnapshot(inv: InventoryView) returns (snap: Snapshot)
    ensures snap == SnapshotOf(inv)
  {
    var main := SlotsMap(PlayerInventory, inv.main);
    var hotbar := SlotsMap(Hotbar, HotbarSlots(inv.main));
    var offhand := OffhandMap(inv.offhand);
    var baubles := BaublesMap(inv.baubles);
    snap := AddSlots(map[], PlayerInventory, inv.main);
    UnionEmpty(main);
    snap := AddSlots(snap, Hotbar, HotbarSlots(inv.main));
    assert snap == main + hotbar;
    if Relevant(inv.offhand) {
      UnionUpdate(main + hotbar, map[], Key(Offhand, 0), inv.offhand);
      snap := AddItem(snap, Offhand, 0, inv.offhand);
    } else {
      UnionEmpty(snap);
    }
    assert snap == main + hotbar + offhand;
    if inv.baubles.Some? {
      snap := AddSlots(snap, Baubles, inv.baubles.value);
    } else {
      UnionEmpty(snap);
    }
  }

  datatype ChangeKind = Added | Modified | Removed

  /**
   * fireItemAddedEvent / fireItemModifiedEvent / fireItemRemovedEvent: a
   * tank event for a pump, else a ring event for a chest ring, else nothing.
   * The location and slot are parsed back from the key.
   */
  function FireEvent(kind: ChangeKind, player: Option<string>, key: string, item: Stack, now: int): (r: Option<Event>)
    ensures r.Some? <==> Relevant(item)
    ensures r.Some? ==> r.value.location == ParseLocationFromKey(key) && r.value.slotIndex == ParseSlotFromKey(key)
    ensures r.Some? ==> r.value.affectedItem == item && r.value.player == player
    ensures IsExperienceTank(item) ==> r.Some? && r.value.AffectsTanks() && !r.value.AffectsRings()
    ensures IsRing(item) ==> r.Some? && r.value.AffectsRings() && !r.value.AffectsTanks()
  {
    var loc := ParseLocationFromKey(key);
    var slot := ParseSlotFromKey(key);
    if IsExperienceTank(item) then
      Some(match kind
        case Added => TankAddedEvent(player, loc, Some(item), slot, now)
        case Modified => TankModifiedEvent(player, loc, Some(item), slot, now)
        case Removed => TankRemovedEvent(player, loc, Some(item), slot, now))
    else if IsRing(item) then
      Some(match kind
        case Added => RingAddedEvent(player, loc, Some(item), slot, now)
        case Modified => RingModifiedEvent(player, loc, Some(item), slot, now)
        case Removed => RingRemovedEvent(player, loc, Some(item), slot, now))
    else None
  }

  /** The event the first pass fires for a key of the current snapshot: added when the previous had none there, modified when it differs. */
  function CurrentKeyEvent(player: Option<string>, previous: Snapshot, current: Snapshot, key: string, now: int): Option<Event>
    requires key in current
  {
    var before := GetItem(previous, key);
    if before.isEmpty then FireEvent(Added, player, key, current[key], now)
    else if !StacksEqual(before, current[key]) then FireEvent(Modified, player, key, current[key], now)
    else None
  }

  /** The event the second pass fires for a key of the previous snapshot: removed when the current has none there. */
  function PreviousKeyEvent(player: Option<string>, previous: Snapshot, current: Snapshot, key: string, now: int): Option<Event>
    requires key in previous
  {
    if GetItem(current, key).isEmpty then FireEvent(Removed, player, key, previous[key], now) else None
  }

  function CurrentPassEvents(player: Option<string>, previous: Snapshot, current: Snapshot, keys: set<string>, now: int): set<Event>
  {
    set k | k in keys && k in current && CurrentKeyEvent(player, previous, current, k, now).Some? ::
      CurrentKeyEvent(player, previous, current, k, now).value
  }

  function PreviousPassEvents(player: Option<string>, previous: Snapshot, current: Snapshot, keys: set<string>, now: int): set<Event>
  {
    set k | k in keys && k in previous && PreviousKeyEvent(player, previous, current, k, now).Some? ::
      PreviousKeyEvent(player, previous, current, k, now).value
  }

  /** Everything compareAndFireEvents fires. */
  function DiffEvents(player: Option<string>, previous: Snapshot, current: Snapshot, now: int): set<Event>
  {
    CurrentPassEvents(player, previous, current, current.Keys, now) + PreviousPassEvents(player, previous, current, previous.Keys, now)
  }

  lemma CurrentPassStep(player: Option<string>, previous: Snapshot, current: Snapshot, done: set<string>, key: string, now: int)
    requires key in current
    ensures CurrentPassEvents(player, previous, current, done + {key}, now)
      == CurrentPassEvents(player, previous, current, done, now)
         + (var e := CurrentKeyEvent(player, previous, current, key, now); if e.Some? then {e.value} else {})
  {
  }

  lemma PreviousPassStep(player: Option<string>, previous: Snapshot, current: Snapshot, done: set<string>, key: string, now: int)
    requires key in previous
    ensures PreviousPassEvents(player, previous, current, done + {key}, now)
      == PreviousPassEvents(player, previous, current, done, now)
         + (var e := PreviousKeyEvent(player, previous, current, key, now); if e.Some? then {e.value} else {})
  {
  }

  /** The first loop of compareAndFireEvents: each key of the current snapshot, added or modified. */
  method FireCurrentPass(player: Option<string>, previous: Snapshot, current: Snapshot, now: int) returns (fired: set<Event>)
    ensures fired == CurrentPassEvents(player, previous, current, current.Keys, now)
  {
    fired := {};
    var done: set<string> := {};
    var todo := current.Keys;
    while todo != {}
      invariant done + todo == current.Keys
      invariant fired == CurrentPassEvents(player, previous, current, done, now)
      decreases |todo|
    {
      var key :| key in todo;
      var e := CurrentKeyEvent(player, previous, current, key, now);
      CurrentPassStep(player, previous, current, done, key, now);
      if e.Some? {
        fired := fired + {e.value};
      }
      done := done + {key};
      todo := todo - {key};
    }
  }

  /** The second loop of compareAndFireEvents: each key of the previous snapshot, removed. */
  method FirePreviousPass(player: Option<string>, previous: Snapshot, current: Snapshot, now: int) returns (fired: set<Event>)
    ensures fired == PreviousPassEvents(player, previous, current, previous.Keys, now)
  {
    fired := {};
    var done: set<string> := {};
    var todo := previous.Keys;
    while todo != {}
      invariant done + todo == previous.Keys
      invariant fired == PreviousPassEvents(player, previous, current, done, now)
      decreases |todo|
    {
      var key :| key in todo;
      var e := PreviousKeyEvent(player, previous, current, key, now);
      PreviousPassStep(player, previous, current, done, key, now);
      if e.Some? {
        fired := fired + {e.value};
      }
      done := done + {key};
      todo := todo - {key};
    }
  }

  /** compareAndFireEvents: a pass over the current snapshot, then one over the previous. */
  method CompareAndFireEvents(player: Option<string>, previous: Snapshot, current: Snapshot, now: int) returns (fired: set<Event>)
    ensures fired == DiffEvents(player, previous, current, now)
  {
    var added := FireCurrentPass(player, previous, current, now);
    var removed := FirePreviousPass(player, previous, current, now);
    fired := added + removed;
  }

  /** Comparing a snapshot with itself fires nothing. */
  lemma DiffOfSameSnapshotIsEmpty(player: Option<string>, snap: Snapshot, now: int)
    ensures DiffEvents(player, snap, snap, now) == {}
  {
    forall k | k in snap
      ensures CurrentKeyEvent(player, snap, snap, k, now).None?
      ensures PreviousKeyEvent(player, snap, snap, k, now).None?
    {
    }
  }

  /** Every event of the diff concerns the tank cache or the ring cache, never both. */
  lemma DiffEventsAreClassified(player: Option<string>, previous: Snapshot, current: Snapshot, now: int)
    ensures forall e :: e in DiffEvents(player, previous, current, now) ==> e.AffectsTanks() != e.AffectsRings()
  {
    forall e | e in DiffEvents(player, previous, current, now)
      ensures e.AffectsTanks() != e.AffectsRings()
    {
      if e in CurrentPassEvents(player, previous, current, current.Keys, now) {
        var k :| k in current && CurrentKeyEvent(player, previous, current, k, now) == Some(e);
      } else {
        var k :| k in previous && PreviousKeyEvent(player, previous, current, k, now) == Some(e);
      }
    }
  }

  /** A pump placed in a slot that held nothing fires exactly one TANK_ADDED event for that location and slot. */
  lemma TankPlacedFiresTankAdded(player: Option<string>, previous: Snapshot, loc: InventoryLocation, slot: int, tank: Stack, now: int)
    requires IsInt(slot) && Key(loc, slot) !in previous && IsExperienceTank(tank)
    ensures DiffEvents(player, previous, previous[Key(loc, slot) := tank], now) == {TankAddedEvent(player, loc, Some(tank), slot, now)}
  {
    var key := Key(loc, slot);
    var current := previous[key := tank];
    KeyRoundTrip(loc, slot);
    assert CurrentKeyEvent(player, previous, current, key, now) == Some(TankAddedEvent(player, loc, Some(tank), slot, now));
    forall k | k in current && k != key
      ensures CurrentKeyEvent(player, previous, current, k, now).None?
    {
      assert current[k] == previous[k];
    }
    forall k | k in previous
      ensures PreviousKeyEvent(player, previous, current, k, now).None?
    {
      assert k != key;
    }
    assert PreviousPassEvents(player, previous, current, previous.Keys, now) == {};
  }

  /** A chest ring taken from its slot fires exactly one RING_REMOVED event for that location and slot. */
  lemma RingTakenFiresRingRemoved(player: Option<string>, current: Snapshot, loc: InventoryLocation, slot: int, ring: Stack, now: int)
    requires IsInt(slot) && Key(loc, slot) !in current && IsRing(ring)
    ensures DiffEvents(player, current[Key(loc, slot) := ring], current, now) == {RingRemovedEvent(player, loc, Some(ring), slot, now)}
  {
    var key := Key(loc, slot);
    var previous := current[key := ring];
    KeyRoundTrip(loc, slot);
    assert PreviousKeyEvent(player, previous, current, key, now) == Some(RingRemovedEvent(player, loc, Some(ring), slot, now));
    forall k | k in previous && k != key
      ensures PreviousKeyEvent(player, previous, current, k, now).None?
    {
      assert previous[k] == current[k];
    }
    forall k | k in current
      ensures CurrentKeyEvent(player, previous, current, k, now).None?
    {
      assert k != key && previous[k] == current[k];
    }
    assert CurrentPassEvents(player, previous, current, current.Keys, now) == {};
  }

  /** The events monitorBaublesChanges posts for the first slots of the Baubles inventory. */
  function BaublesSlotEvents(player: Option<string>, previous: Snapshot, slots: seq<Stack>, now: int): (r: seq<Event>)
    ensures forall e :: e in r ==> e.changeType == BaublesChanged && e.location == Baubles && e.AffectsBaubles()
    ensures |r| <= |slots|
  {
    if slots == [] then []
    else
      var i := |slots| - 1;
      var earlier := BaublesSlotEvents(player, previous, slots[..i], now);
      var current := slots[i];
      var before := GetItem(previous, Key(Baubles, i));
      if !StacksEqual(current, before) && (Relevant(current) || Relevant(before)) then
        earlier + [BaublesChangedEvent(player, Some(if current.isEmpty then before else current), i, now)]
      else earlier
  }

  /** Whether any Baubles slot differs from the previous snapshot. */
  predicate AnyBaublesSlotChanged(previous: Snapshot, slots: seq<Stack>)
  {
    exists i :: 0 <= i < |slots| && !StacksEqual(slots[i], GetItem(previous, Key(Baubles, i)))
  }

  /** All monitorBaublesChanges posts: the slot events, then one refresh of BAUBLES when any slot changed. */
  function BaublesEvents(player: Option<string>, previous: Snapshot, slots: seq<Stack>, now: int): seq<Event>
  {
    BaublesSlotEvents(player, previous, slots, now)
      + (if AnyBaublesSlotChanged(previous, slots) then [InventoryRefreshedEvent(player, Baubles, now)] else [])
  }

  /** When no Baubles slot changed, monitorBaublesChanges posts nothing. */
  lemma {:induction false} UnchangedBaublesPostNothing(player: Option<string>, previous: Snapshot, slots: seq<Stack>, now: int)
    requires !AnyBaublesSlotChanged(previous, slots)
    ensures BaublesEvents(player, previous, slots, now) == []
  {
    if slots != [] {
      var i := |slots| - 1;
      assert !AnyBaublesSlotChanged(previous, slots[..i]) by {
        forall j | 0 <= j < i
          ensures StacksEqual(slots[..i][j], GetItem(previous, Key(Baubles, j)))
        {
          assert slots[..i][j] == slots[j];
        }
      }
      UnchangedBaublesPostNothing(player, previous, slots[..i], now);
      assert StacksEqual(slots[i], GetItem(previous, Key(Baubles, i)));
    }
  }

  /** Taking in one more slot adds its event, if any, and its change, if any. */
  lemma BaublesSlotStep(player: Option<string>, previous: Snapshot, slots: seq<Stack>, i: nat, now: int)
    requires i < |slots|
    ensures var current, before := slots[i], GetItem(previous, Key(Baubles, i));
      BaublesSlotEvents(player, previous, slots[..i + 1], now) ==
        if !StacksEqual(current, before) && (Relevant(current) || Relevant(before)) then
          BaublesSlotEvents(player, previous, slots[..i], now) + [BaublesChangedEvent(player, Some(if current.isEmpty then before else current), i, now)]
        else BaublesSlotEvents(player, previous, slots[..i], now)
    ensures AnyBaublesSlotChanged(previous, slots[..i + 1]) <==>
      AnyBaublesSlotChanged(previous, slots[..i]) || !StacksEqual(slots[i], GetItem(previous, Key(Baubles, i)))
  {
    assert slots[..i + 1][..i] == slots[..i];
    BaublesChangedStep(previous, slots, i);
  }

  lemma BaublesChangedStep(previous: Snapshot, slots: seq<Stack>, i: nat)
    requires i < |slots|
    ensures AnyBaublesSlotChanged(previous, slots[..i + 1]) <==>
      AnyBaublesSlotChanged(previous, slots[..i]) || !StacksEqual(slots[i], GetItem(previous, Key(Baubles, i)))
  {
    if AnyBaublesSlotChanged(previous, slots[..i]) {
      var w :| 0 <= w < i && !StacksEqual(slots[..i][w], GetItem(previous, Key(Baubles, w)));
      assert slots[..i + 1][w] == slots[..i][w];
    }
    if !StacksEqual(slots[i], GetItem(previous, Key(Baubles, i))) {
      assert slots[..i + 1][i] == slots[i];
    }
    if AnyBaublesSlotChanged(previous, slots[..i + 1]) {
      var w :| 0 <= w < i + 1 && !StacksEqual(slots[..i + 1][w], GetItem(previous, Key(Baubles, w)));
      if w < i {
        assert slots[..i + 1][w] == slots[..i][w];
      }
    }
  }

  /** monitorBaublesChanges: compares each Baubles slot with the previous snapshot. */
  method MonitorBaublesChanges(player: Option<string>, previous: Snapshot, slots: seq<Stack>, now: int) returns (posted: seq<Event>)
    ensures posted == BaublesEvents(player, previous, slots, now)
  {
    posted := [];
    var changed := false;
    var i := 0;
    while i < |slots|
      invariant 0 <= i <= |slots|
      invariant posted == BaublesSlotEvents(player, previous, slots[..i], now)
      invariant changed <==> AnyBaublesSlotChanged(previous, slots[..i])
    {
      BaublesSlotStep(player, previous, slots, i, now);
      var current := slots[i];
      var before := GetItem(previous, Key(Baubles, i));
      if !StacksEqual(current, before) {
        changed := true;
        if Relevant(current) || Relevant(before) {
          posted := posted + [BaublesChangedEvent(player, Some(if current.isEmpty then before else current), i, now)];
        }
      }
      i := i + 1;
    }
    assert slots[..i] == slots;
    if changed {
      posted := posted + [InventoryRefreshedEvent(player, Baubles, now)];
    }
  }

  /** No snapshot stores an empty stack. */
  predicate NoEmptyStacks(snap: Snapshot)
  {
    forall k :: k in snap ==> !snap[k].isEmpty
  }

  /** A player: the snapshot map's key and the name events carry. */
  datatype Player = Player(id: string, name: string)

  /** What one inventory check posts: the Baubles events in order, then the snapshot diff. */
  datatype CheckResult = CheckResult(baublesEvents: seq<Event>, diffEvents: set<Event>)

  const NoEvents: CheckResult := CheckResult([], {})

  /** What checkPlayerInventoryChanges posts against a stored previous snapshot. */
  function CheckEvents(player: Player, previous: Snapshot, inv: InventoryView, now: int): CheckResult
  {
    CheckResult(
      if inv.baubles.Some? then BaublesEvents(Some(player.name), previous, inv.baubles.value, now) else [],
      DiffEvents(Some(player.name), previous, SnapshotOf(inv), now))
  }

  /** The handler: one snapshot per player and a shared tick counter. */
  class Handler {
    var snapshots: map<string, Snapshot>
    var tickCounter: int

    ghost predicate Valid()
      reads this
    {
      IsInt(tickCounter) && forall id :: id in snapshots ==> NoEmptyStacks(snapshots[id])
    }

    constructor ()
      ensures Valid() && snapshots == map[] && tickCounter == 0
    {
      snapshots := map[];
      tickCounter := 0;
    }

    /**
     * checkPlayerInventoryChanges: the first check of a player only stores
     * the snapshot; later ones post the Baubles events and the diff against
     * the stored snapshot, then replace it.
     */
    method CheckPlayerInventoryChanges(player: Player, inv: InventoryView, now: int) returns (r: CheckResult)
      requires Valid()
      modifies this
      ensures Valid()
      ensures tickCounter == old(tickCounter)
      ensures snapshots == old(snapshots)[player.id := SnapshotOf(inv)]
      ensures player.id !in old(snapshots) ==> r == NoEvents
      ensures player.id in old(snapshots) ==> r == CheckEvents(player, old(snapshots)[player.id], inv, now)
    {
      var current := CreateInventorySnapshot(inv);
      if player.id !in snapshots {
        snapshots := snapshots[player.id := current];
        return NoEvents;
      }
      var previous := snapshots[player.id];
      var posted: seq<Event> := [];
      if inv.baubles.Some? {
        posted := MonitorBaublesChanges(Some(player.name), previous, inv.baubles.value, now);
      }
      var diff := CompareAndFireEvents(Some(player.name), previous, current, now);
      snapshots := snapshots[player.id := current];
      r := CheckResult(posted, diff);
    }

    /**
     * onPlayerTick: only the END phase on the server counts; the counter is
     * pre-incremented (an int, so it wraps) and the inventory comparison runs when it is a
     * multiple of 10.
     */
    method OnPlayerTick(player: Player, isEndPhase: bool, isRemote: bool, inv: InventoryView, now: int)
      returns (checked: bool, r: CheckResult)
      requires Valid()
      modifies this
      ensures Valid()
      ensures !isEndPhase || isRemote ==> !checked && tickCounter == old(tickCounter)
      ensures isEndPhase && !isRemote ==> tickCounter == Wrap32(old(tickCounter) + 1)
      ensures checked <==> isEndPhase && !isRemote && tickCounter % CheckInterval == 0
      ensures isEndPhase && !isRemote && old(tickCounter) == CheckInterval - 1 ==> checked
      ensures !checked ==> snapshots == old(snapshots) && r == NoEvents
      ensures checked ==> snapshots == old(snapshots)[player.id := SnapshotOf(inv)]
      ensures checked && player.id in old(snapshots) ==> r == CheckEvents(player, old(snapshots)[player.id], inv, now)
      ensures checked && player.id !in old(snapshots) ==> r == NoEvents
    {
      checked := false;
      r := NoEvents;
      if !isEndPhase || isRemote {
        return;
      }
      tickCounter := Wrap32(tickCounter + 1);
      if tickCounter % CheckInterval != 0 {
        return;
      }
      checked := true;
      r := CheckPlayerInventoryChanges(player, inv, now);
    }

    /** scheduleInventoryRefresh: sets the counter so that the next tick checks. */
    method ScheduleInventoryRefresh(player: Option<Player>)
      requires Valid()
      modifies this
      ensures Valid() && snapshots == old(snapshots)
      ensures player.Some? ==> tickCounter == CheckInterval - 1
      ensures player.None? ==> tickCounter == old(tickCounter)
    {
      if player.None? {
        return;
      }
      tickCounter := CheckInterval - 1;
    }

    /**
     * forceFullInventoryRefresh: drops the player's snapshot, so the comparison
     * only stores a new one, then posts refreshes of the inventory, the hotbar
     * and Baubles.
     */
    method ForceFullInventoryRefresh(player: Option<Player>, inv: InventoryView, now: int) returns (posted: seq<Event>)
      requires Valid()
      modifies this
      ensures Valid() && tickCounter == old(tickCounter)
      ensures player.None? ==> snapshots == old(snapshots) && posted == []
      ensures player.Some? ==> snapshots == old(snapshots)[player.value.id := SnapshotOf(inv)]
      ensures player.Some? ==> posted == [InventoryRefreshedEvent(Some(player.value.name), PlayerInventory, now),
                                          InventoryRefreshedEvent(Some(player.value.name), Hotbar, now),
                                          InventoryRefreshedEvent(Some(player.value.name), Baubles, now)]
    {
      if player.None? {
        return [];
      }
      var p := player.value;
      snapshots := snapshots - {p.id};
      var r := CheckPlayerInventoryChanges(p, inv, now);
      assert r == NoEvents;
      posted := [InventoryRefreshedEvent(Some(p.name), PlayerInventory, now),
                 InventoryRefreshedEvent(Some(p.name), Hotbar, now),
                 InventoryRefreshedEvent(Some(p.name), Baubles, now)];
    }

    /** refreshAllPlayersInventory: forgets every snapshot. */
    method RefreshAllPlayersInventory()
      requires Valid()
      modifies this
      ensures Valid() && snapshots == map[] && tickCounter == old(tickCounter)
    {
      snapshots := map[];
    }

    /** refreshPlayerInventory: a check, then a refresh of the player inventory. */
    method RefreshPlayerInventory(player: Option<Player>, inv: InventoryView, now: int) returns (r: CheckResult, refresh: seq<Event>)
      requires Valid()
      modifies this
      ensures Valid() && tickCounter == old(tickCounter)
      ensures player.None? ==> snapshots == old(snapshots) && r == NoEvents && refresh == []
      ensures player.Some? ==> snapshots == old(snapshots)[player.value.id := SnapshotOf(inv)]
      ensures player.Some? && player.value.id in old(snapshots) ==> r == CheckEvents(player.value, old(snapshots)[player.value.id], inv, now)
      ensures player.Some? ==> refresh == [InventoryRefreshedEvent(Some(player.value.name), PlayerInventory, now)]
    {
      if player.None? {
        return NoEvents, [];
      }
      r := CheckPlayerInventoryChanges(player.value, inv, now);
      refresh := [InventoryRefreshedEvent(Some(player.value.name), PlayerInventory, now)];
    }

    /** refreshBaublesInventory: a refresh of Baubles, then a check. */
    method RefreshBaublesInventory(player: Option<Player>, inv: InventoryView, now: int) returns (refresh: seq<Event>, r: CheckResult)
      requires Valid()
      modifies this
      ensures Valid() && tickCounter == old(tickCounter)
      ensures player.None? ==> snapshots == old(snapshots) && r == NoEvents && refresh == []
      ensures player.Some? ==> snapshots == old(snapshots)[player.value.id := SnapshotOf(inv)]
      ensures player.Some? && player.value.id in old(snapshots) ==> r == CheckEvents(player.value, old(snapshots)[player.value.id], inv, now)
      ensures player.Some? ==> refresh == [InventoryRefreshedEvent(Some(player.value.name), Baubles, now)]
    {
      if player.None? {
        return [], NoEvents;
      }
      refresh := [InventoryRefreshedEvent(Some(player.value.name), Baubles, now)];
      r := CheckPlayerInventoryChanges(player.value, inv, now);
    }

    /** onItemPickup (an ItemTossEvent): a relevant tossed item schedules a check on the next tick. */
    method OnItemToss(player: Option<Player>, isRemote: bool, tossed: Stack)
      requires Valid()
      modifies this
      ensures Valid() && snapshots == old(snapshots)
      ensures player.Some? && !isRemote && Relevant(tossed) ==> tickCounter == CheckInterval - 1
      ensures !(player.Some? && !isRemote && Relevant(tossed)) ==> tickCounter == old(tickCounter)
    {
      if player.None? || isRemote {
        return;
      }
      if Relevant(tossed) {
        ScheduleInventoryRefresh(player);
      }
    }

    /** onContainerClosed: schedules a check on the next tick. */
    method OnContainerClosed(player: Player, isRemote: bool)
      requires Valid()
      modifies this
      ensures Valid() && snapshots == old(snapshots)
      ensures tickCounter == if isRemote then old(tickCounter) else CheckInterval - 1
    {
      if isRemote {
        return;
      }
      ScheduleInventoryRefresh(Some(player));
    }

    /** onItemCrafted: crafting a relevant item forces a full refresh. */
    method OnItemCrafted(player: Player, isRemote: bool, crafted: Stack, inv: InventoryView, now: int) returns (posted: seq<Event>)
      requires Valid()
      modifies this
      ensures Valid() && tickCounter == old(tickCounter)
      ensures isRemote || !Relevant(crafted) ==> snapshots == old(snapshots) && posted == []
      ensures !isRemote && Relevant(crafted) ==> snapshots == old(snapshots)[player.id := SnapshotOf(inv)]
      ensures !isRemote && Relevant(crafted) ==>
        posted == [InventoryRefreshedEvent(Some(player.name), PlayerInventory, now),
                   InventoryRefreshedEvent(Some(player.name), Hotbar, now),
                   InventoryRefreshedEvent(Some(player.name), Baubles, now)]
    {
      posted := [];
      if isRemote {
        return;
      }
      if Relevant(crafted) {
        posted := ForceFullInventoryRefresh(Some(player), inv, now);
      }
    }
  }
}
