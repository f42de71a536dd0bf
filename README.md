# Experience tanks, pumps and absorb rings — a Dafny model

This project models the integer and string logic of a Minecraft Forge mod
that keeps player experience (XP) in "tank" items. The mod ships two
parallel package trees, `com.moremod` and `com.rsring`. Where they differ
(the capacity cap, the order in which NBT is read back, the injection order
of the controller), each has its own module. Where they share code, one
module models both, and its rows cite both files.

The model covers:

- **Experience arithmetic** (`XpHelper`, `ExperienceCalculator`, `PumpCapacity`).
  - The vanilla level-to-XP formula in three branches, the XP to the next
    level, and the floor level of an XP total (the counting loop).
  - XP between two levels, and the formatted XP text.
  - Tank capacity: 1000 · 2^(levels − 1), saturated at `Integer.MAX_VALUE`.
    Java's `long` arithmetic and shift masking are written out where the code
    relies on them.
- **Tank state** (`RsringPumpCapability`, `MoremodPumpCapability`, `ExperienceTank`).
  - The pump capability and `ExperienceTankData` as classes whose setters
    clamp.
  - `addXp`/`takeXp` return the amount actually moved.
  - NBT write and read, with `Nbt` as a map of tags.
  - The tank id's text (`UuidText`): `UUID.toString` and the Java 8
    `UUID.fromString`, which accepts any five '-'-separated hex groups.
- **Moving XP.**
  - `TankDistribution` and `PumpController` cover the controller's
    extract/inject loops: a stable sort, then greedy draining or filling.
  - `PumpActionPriority`, `PumpActionTransfer` and `PumpActionHandler` cover
    the pump-action packet handler: the tank ordering, the per-button loops
    over the capabilities, and the controller's own settings.
  - `RsringItemPump` covers the pump item: NBT getters, the texture fill
    level, storing extracted XP with overflow bottles, and absorbing orbs and
    bottles.
- **Results and events** (`TankScan`, `MoremodRingDetection`, `RsringRingDetection`, `InventoryChangeEvent`, `InventoryChangeHandler`).
  - Scan and ring-detection results with their builders, totals, primary-ring
    choice and summaries.
  - Change events and their classification.
  - The inventory snapshot diff and the tick counter that schedules it.
  - The snapshot keys' `String.split` (`SplitText`).
- **The absorb ring** (`RsRingCapability`, `AbsorbRing`, `ItemNames`).
  - The nine-slot filter used as a whitelist or a blacklist.
  - Item-name normalisation and the configured default list.
  - The energy arithmetic of one absorb pass.
  - Dimension names.
- **Packets and items** (`ByteBuf`, `PacketSyncRingFilter`, `PacketPumpAction`, `RsringControllerItem`, `RsringCraftingUpgrade`, `MoremodTankManager`).
  - The byte layout of the two packets, with round trips.
  - The controller item's NBT getters with their defaults.
  - The upgrade recipe.
  - The tank manager's validation, tier table and overflow handling.

How the game is represented:

- Game objects are reduced to the values the code reads. A stack is a
  datatype; a world entity is an array element the loop updates; the player
  is an XP total.
- Configuration values, random ids and the results of calls into Minecraft
  are parameters.
- `null` is `Option.None`, or a nullable class reference where the source
  mutates the object.

## Model

| member | source | states |
|---|---|---|
| PumpCapacity.CappedCapacity | src/main/java/com/moremod/capability/ExperiencePumpCapability.java:55-67 | the capacity getMaxXp is meant to give: 1000 * 2^(levels-1) up to 22 levels, Integer.MAX_VALUE from 23 levels on, never below 1000 |
| PumpCapacity.CappedCapacityMonotone | src/main/java/com/moremod/capability/ExperiencePumpCapability.java:55-67 | adding capacity levels never lowers the intended capacity |
| PumpCapacity.ShiftedCapacity | src/main/java/com/moremod/capability/ExperiencePumpCapability.java:59-63 | getMaxXp as written (long multiply of a masked shift, saturating compare, int cast) always yields a value in 0..Integer.MAX_VALUE |
| PumpCapacity.ShiftedCapacityCases | src/main/java/com/rsring/capability/ExperiencePumpCapability.java:97-101 | with k = (levels-1) mod 64: exact doubling for k <= 21, Integer.MAX_VALUE for 22..53, and 0 or Integer.MAX_VALUE once the long has wrapped |
| PumpCapacity.ShiftedCapacityIsCapped | src/main/java/com/moremod/capability/ExperiencePumpCapability.java:59-63 | for 1..54 levels the shift computation agrees with the intended capped capacity |
| PumpCapacity.ShiftedCapacityWrapsPast54 | src/main/java/com/moremod/capability/ExperiencePumpCapability.java:59-63 | at 55 levels the computed capacity is 0 and at 65 levels it is 1000, where the intended capacity is Integer.MAX_VALUE |
| IntText.IntToString | src/main/java/com/moremod/experience/InventoryChangeHandler.java:503 | the decimal text of a slot number: a minus sign exactly for negatives, then digits without leading zeros |
| IntText.ParseInt | src/main/java/com/moremod/experience/InventoryChangeHandler.java:487 | Integer.parseInt over ASCII digits: a value exactly when the text after an optional sign is a non-empty run of digits whose signed value is in the int range, and that value is the digits read in base 10, negated after '-'; None (NumberFormatException) otherwise |
| IntText.ParseIntOfIntToString | src/main/java/com/moremod/experience/InventoryChangeHandler.java:483-493 | parsing the printed form of any int gives that int back |
| IntText.IntToStringHasNoColon | src/main/java/com/moremod/experience/InventoryChangeHandler.java:503 | a printed slot number contains no colon, so a key splits at the one colon after the location |
| InventoryChangeHandler.LocationValueOf | src/main/java/com/moremod/experience/InventoryChangeHandler.java:475 | InventoryLocation.valueOf: the location whose name is the string, None exactly when no location has that name |
| SplitText.Split | src/main/java/com/moremod/experience/InventoryChangeHandler.java:472 | String.split on a string without the separator (the empty string included) is that string alone |
| SplitText.PiecesOfJoin | src/main/java/com/moremod/experience/InventoryChangeHandler.java:472 | cutting a join of separator-free pieces at the separators gives the pieces back, empty ones included |
| SplitText.SplitJoin | src/main/java/com/moremod/experience/InventoryChangeHandler.java:472 | split inverts join for separator-free pieces whose last piece is not empty (trailing empties are dropped) |
| InventoryChangeHandler.SplitKey | src/main/java/com/moremod/experience/InventoryChangeHandler.java:472 | key.split(":") of a colon-free key is the key alone |
| InventoryChangeHandler.SplitTwo | src/main/java/com/moremod/experience/InventoryChangeHandler.java:484-486 | "a:b" with colon-free a and non-empty colon-free b splits into exactly [a, b] |
| InventoryChangeHandler.ParseLocationFromKey | src/main/java/com/moremod/experience/InventoryChangeHandler.java:471-481 | the key's first piece as a location, UNKNOWN when it names no location |
| InventoryChangeHandler.ParseSlotFromKey | src/main/java/com/moremod/experience/InventoryChangeHandler.java:483-493 | the key's second piece as an int, -1 when there is no second piece or it is not a number |
| InventoryChangeHandler.KeyRoundTrip | src/main/java/com/moremod/experience/InventoryChangeHandler.java:471-493 | a key built by addItem parses back to its own location and slot |
| InventoryChangeHandler.KeyInjective | src/main/java/com/moremod/experience/InventoryChangeHandler.java:501-506 | two different (location, slot) pairs never share a snapshot key |
| InventoryChangeHandler.UnknownLocationParsesToUnknown | src/main/java/com/moremod/experience/InventoryChangeHandler.java:474-478 | a key whose first piece names no location gives UNKNOWN and still its slot |
| InventoryChangeHandler.NonNumericSlotParsesToMinusOne | src/main/java/com/moremod/experience/InventoryChangeHandler.java:486-490 | a key whose second piece is not a number gives slot -1 and still its location |
| InventoryChangeHandler.GetItem | src/main/java/com/moremod/experience/InventoryChangeHandler.java:508-510 | getItem returns the empty stack for a key the snapshot does not hold |
| InventoryChangeHandler.AddItem | src/main/java/com/moremod/experience/InventoryChangeHandler.java:501-506 | addItem ignores an empty stack, otherwise stores the stack under "LOCATION:slot" and leaves every other key as it was |
| InventoryChangeHandler.SlotsMap | src/main/java/com/moremod/experience/InventoryChangeHandler.java:252-258 | the stacks recorded for one inventory are all relevant (a pump or a chest ring) |
| InventoryChangeHandler.SlotsMapAt | src/main/java/com/moremod/experience/InventoryChangeHandler.java:252-258 | slot i of an inventory is recorded exactly when its stack is relevant, and then with that stack |
| InventoryChangeHandler.SlotsMapKey | src/main/java/com/moremod/experience/InventoryChangeHandler.java:252-258 | every recorded key names one of the inventory's slots |
| InventoryChangeHandler.HotbarSlots | src/main/java/com/moremod/experience/InventoryChangeHandler.java:260-265 | the nine hotbar slots are the first nine inventory slots, empty past the inventory's end |
| InventoryChangeHandler.SnapshotOf | src/main/java/com/moremod/experience/InventoryChangeHandler.java:248-277 | a snapshot holds only relevant stacks |
| InventoryChangeHandler.SnapshotKeyForm | src/main/java/com/moremod/experience/InventoryChangeHandler.java:248-277 | every snapshot key is "LOCATION:slot" for a known location and a slot >= 0, and parses back to both |
| InventoryChangeHandler.NotInOtherParts | src/main/java/com/moremod/experience/InventoryChangeHandler.java:248-277 | a key of one location is never written by the loops of the other locations |
| InventoryChangeHandler.SnapshotHoldsInventorySlot | src/main/java/com/moremod/experience/InventoryChangeHandler.java:252-258 | a main-inventory slot is in the snapshot exactly when its stack is relevant, with that stack |
| InventoryChangeHandler.SnapshotHoldsHotbarSlot | src/main/java/com/moremod/experience/InventoryChangeHandler.java:260-265 | each of the first nine slots is also recorded under HOTBAR exactly when relevant |
| InventoryChangeHandler.SnapshotHoldsOffhand | src/main/java/com/moremod/experience/InventoryChangeHandler.java:267-271 | the off hand is recorded as OFFHAND:0 exactly when it holds a relevant stack |
| InventoryChangeHandler.AddSlots | src/main/java/com/moremod/experience/InventoryChangeHandler.java:252-258 | the addItem loop over one inventory adds exactly that inventory's slot map |
| InventoryChangeHandler.CreateInventorySnapshot | src/main/java/com/moremod/experience/InventoryChangeHandler.java:248-277 | the four addItem loops build exactly the declared snapshot |
| InventoryChangeHandler.FireEvent | src/main/java/com/moremod/experience/InventoryChangeHandler.java:406-455 | an event is fired exactly for a relevant stack, at the key's parsed location and slot; a pump gives a tank event, a chest ring a ring event |
| InventoryChangeHandler.FireCurrentPass | src/main/java/com/moremod/experience/InventoryChangeHandler.java:372-386 | the first loop fires ITEM_ADDED or ITEM_MODIFIED for exactly the keys of the current snapshot that are new or differ |
| InventoryChangeHandler.FirePreviousPass | src/main/java/com/moremod/experience/InventoryChangeHandler.java:389-400 | the second loop fires ITEM_REMOVED for exactly the keys of the previous snapshot that are gone |
| InventoryChangeHandler.CompareAndFireEvents | src/main/java/com/moremod/experience/InventoryChangeHandler.java:368-401 | all events fired are the union of the two passes |
| InventoryChangeHandler.DiffOfSameSnapshotIsEmpty | src/main/java/com/moremod/experience/InventoryChangeHandler.java:368-401 | comparing a snapshot with itself fires nothing |
| InventoryChangeHandler.DiffEventsAreClassified | src/main/java/com/moremod/experience/InventoryChangeHandler.java:406-455 | every fired event concerns the tank cache or the ring cache, never both |
| InventoryChangeHandler.TankPlacedFiresTankAdded | src/main/java/com/moremod/experience/InventoryChangeHandler.java:368-419 | placing a pump in an empty slot fires exactly one TANK_ADDED event for that location and slot |
| InventoryChangeHandler.RingTakenFiresRingRemoved | src/main/java/com/moremod/experience/InventoryChangeHandler.java:368-437 | taking a chest ring from a slot fires exactly one RING_REMOVED event for that location and slot |
| InventoryChangeHandler.BaublesSlotEvents | src/main/java/com/moremod/experience/InventoryChangeHandler.java:329-350 | per-slot Baubles events are BAUBLES_CHANGED events at BAUBLES, at most one per slot |
| InventoryChangeHandler.UnchangedBaublesPostNothing | src/main/java/com/moremod/experience/InventoryChangeHandler.java:310-363 | when no Baubles slot differs from the snapshot, nothing is posted |
| InventoryChangeHandler.MonitorBaublesChanges | src/main/java/com/moremod/experience/InventoryChangeHandler.java:310-363 | the slot loop posts exactly the slot events, then one refresh when any slot changed |
| InventoryChangeHandler.Handler.constructor | src/main/java/com/moremod/experience/InventoryChangeHandler.java:34-46 | a new handler holds no snapshots and a zero tick counter |
| InventoryChangeHandler.Handler.CheckPlayerInventoryChanges | src/main/java/com/moremod/experience/InventoryChangeHandler.java:224-243 | the player's snapshot becomes the current one; the first check posts nothing, later ones post the Baubles events and the diff against the stored snapshot |
| InventoryChangeHandler.Handler.OnPlayerTick | src/main/java/com/moremod/experience/InventoryChangeHandler.java:71-82 | only the server's END phase counts; the counter is pre-incremented with int wrap-around and a check runs exactly when it is a multiple of 10 |
| InventoryChangeHandler.Handler.ScheduleInventoryRefresh | src/main/java/com/moremod/experience/InventoryChangeHandler.java:170-177 | for a player, sets the counter to 9 so the next tick checks; snapshots unchanged |
| InventoryChangeHandler.Handler.ForceFullInventoryRefresh | src/main/java/com/moremod/experience/InventoryChangeHandler.java:183-207 | drops and re-stores the player's snapshot without a diff, then posts refreshes of inventory, hotbar and Baubles |
| InventoryChangeHandler.Handler.RefreshAllPlayersInventory | src/main/java/com/moremod/experience/InventoryChangeHandler.java:213-219 | forgets every stored snapshot |
| InventoryChangeHandler.Handler.RefreshPlayerInventory | src/main/java/com/moremod/experience/InventoryChangeHandler.java:137-147 | a check against the stored snapshot, then one PLAYER_INVENTORY refresh event |
| InventoryChangeHandler.Handler.RefreshBaublesInventory | src/main/java/com/moremod/experience/InventoryChangeHandler.java:152-164 | one BAUBLES refresh event, then a check against the stored snapshot |
| InventoryChangeHandler.Handler.OnItemToss | src/main/java/com/moremod/experience/InventoryChangeHandler.java:89-99 | a relevant item tossed on the server schedules a check on the next tick; anything else changes nothing |
| InventoryChangeHandler.Handler.OnContainerClosed | src/main/java/com/moremod/experience/InventoryChangeHandler.java:106-114 | closing a container on the server schedules a check on the next tick |
| InventoryChangeHandler.Handler.OnItemCrafted | src/main/java/com/moremod/experience/InventoryChangeHandler.java:121-131 | crafting a relevant item on the server forces a full refresh (snapshot replaced, three refresh events) |
| InventoryChangeEvent.Event.Description | src/main/java/com/moremod/experience/InventoryChangeEvent.java:181-200 | getDescription starts with the change's display name, prints the player part and " in " plus the location, and ends with " at slot N" exactly when the slot index is >= 0 |
| InventoryChangeEvent.DescriptionEndsWithSlot | src/main/java/com/moremod/experience/InventoryChangeEvent.java:196-198 | a slot index of 0 or more is the last thing the description prints |
| InventoryChangeEvent.NewEvent | src/main/java/com/moremod/experience/InventoryChangeEvent.java:69-76 | the full constructor keeps player, change type, location, slot and time, and turns a null item into the empty stack |
| InventoryChangeEvent.DefaultEvent | src/main/java/com/moremod/experience/InventoryChangeEvent.java:102-104 | the no-argument event is an unplayered INVENTORY_REFRESHED at UNKNOWN with no item and slot -1, affecting no cache |
| InventoryChangeEvent.EventWithoutSlot | src/main/java/com/moremod/experience/InventoryChangeEvent.java:81-89 | the slotless constructor is the full one with slot -1, so no slot is printed |
| InventoryChangeEvent.GeneralEvent | src/main/java/com/moremod/experience/InventoryChangeEvent.java:94-97 | the general constructor has no item and slot -1, so neither is printed |
| InventoryChangeEvent.TankEventsAffectOnlyTanks | src/main/java/com/moremod/experience/InventoryChangeEvent.java:137-162 | tankAdded, tankRemoved and tankModified affect the tank cache and never the ring cache; Baubles only at BAUBLES |
| InventoryChangeEvent.RingEventsAffectOnlyRings | src/main/java/com/moremod/experience/InventoryChangeEvent.java:137-162 | ringAdded, ringRemoved and ringModified affect the ring cache and never the tank cache; Baubles only at BAUBLES |
| InventoryChangeEvent.BaublesEventDependsOnItem | src/main/java/com/moremod/experience/InventoryChangeEvent.java:286-288 | a Baubles change always affects Baubles, and affects the tank or ring cache exactly when its item is a pump or a chest ring |
| InventoryChangeEvent.RefreshEventAffectsNeitherCache | src/main/java/com/moremod/experience/InventoryChangeEvent.java:293-295 | inventoryRefreshed affects neither the tank nor the ring cache |
| ItemNames.Trim | src/main/java/com/rsring/capability/RsRingCapability.java:83 | String.trim: the result has no blank at either end, is no longer than the input, and is empty exactly for a blank input |
| ItemNames.TrimOfTrimmed | src/main/java/com/rsring/capability/RsRingCapability.java:83 | trimming a string with no blank ends changes nothing |
| ItemNames.Normalize | src/main/java/com/rsring/capability/RsRingCapability.java:80-88 | normalizeItemName: "" for null or blank; the trimmed name when it has a namespace; otherwise "minecraft:" plus the trimmed name; a non-empty result always has a colon and no blank ends |
| ItemNames.NormalizeIdempotent | src/main/java/com/rsring/capability/RsRingCapability.java:80-88 | normalizing an already normalized name changes nothing |
| RsRingCapability.NormalizedList | src/main/java/com/rsring/capability/RsRingCapability.java:233-249 | the loaded list holds at most one entry per configured entry, each non-empty and namespaced |
| RsRingCapability.NormalizedListKeeps | src/main/java/com/rsring/capability/RsRingCapability.java:40-60 | every non-blank configured name appears, normalized, in the loaded list |
| RsRingCapability.NormalizedListFrom | src/main/java/com/rsring/capability/RsRingCapability.java:40-60 | every entry of the loaded list is the normalized form of some configured name |
| RsRingCapability.ConfiguredMaxEnergy | src/main/java/com/rsring/capability/RsRingCapability.java:90-96 | the configured capacity when positive, 10,000,000 otherwise; always positive |
| RsRingCapability.ConfiguredInitialEnergy | src/main/java/com/rsring/capability/RsRingCapability.java:98-108 | the configured initial energy clamped into 0..capacity |
| RsRingCapability.CreateEnergyStorage | src/main/java/com/rsring/capability/RsRingCapability.java:110-114 | a storage with the configured capacity, MAX_IO both ways, and the energy clamped into 0..capacity |
| RsRingCapability.RefreshedEnergy | src/main/java/com/rsring/capability/RsRingCapability.java:116-127 | refreshEnergyStorage keeps the storage when the capacity is unchanged, otherwise rebuilds it keeping min(energy, new capacity), floored at 0 by the EnergyStorage constructor |
| RsRingCapability.InitialState | src/main/java/com/rsring/capability/RsRingCapability.java:32-35 | a new capability is unbound, disabled, in the configured mode and holds the configured initial energy |
| RsRingCapability.FilterSlotOf | src/main/java/com/rsring/capability/RsRingCapability.java:260-272 | getFilterSlot: "" outside 0..8 or past the list; the stored entry when filters are unlocked, the normalized configured entry when locked |
| RsRingCapability.Padded | src/main/java/com/rsring/capability/RsRingCapability.java:252-257 | padding keeps the list as its prefix and fills up to n with "" |
| RsRingCapability.WithFilterSlot | src/main/java/com/rsring/capability/RsRingCapability.java:252-257 | setFilterSlot changes nothing when filters are locked or the slot is outside 0..8, and only ever the list |
| RsRingCapability.FilterSlotAfterSet | src/main/java/com/rsring/capability/RsRingCapability.java:252-272 | after setFilterSlot with filters unlocked, that slot reads back the new value and every other slot reads as before |
| RsRingCapability.WithAdded | src/main/java/com/rsring/capability/RsRingCapability.java:189-197 | addToBlacklist only grows the list, adds the registry name when filters are unlocked and the stack is not empty, and never creates a duplicate |
| RsRingCapability.RemoveFirst | src/main/java/com/rsring/capability/RsRingCapability.java:203 | List.remove(Object): unchanged when absent, otherwise one fewer occurrence of exactly that name |
| RsRingCapability.WithRemoved | src/main/java/com/rsring/capability/RsRingCapability.java:200-206 | removeFromBlacklist changes nothing when locked or for an empty stack; on a list without duplicates the name is gone afterwards |
| RsRingCapability.RemoveFromDistinct | src/main/java/com/rsring/capability/RsRingCapability.java:200-206 | removing a name from a duplicate-free list leaves no occurrence of it |
| RsRingCapability.LockedListIsConfigured | src/main/java/com/rsring/capability/RsRingCapability.java:233-249 | with filters locked, the list a new capability loads is exactly what getBlacklistItems reports, all non-empty namespaced names |
| RsRingCapability.LockedFilterSlotSkipsBlank | src/main/java/com/rsring/capability/RsRingCapability.java:260-272 | with filters locked, getFilterSlot reads the configured array by position while getBlacklistItems skips blank entries, so the two disagree on a blank first entry |
| RsRingCapability.WriteNbt | src/main/java/com/rsring/capability/RsRingCapability.java:276-298 | writeNBT writes the terminal keys exactly when bound, and always the list, the mode, the enabled flag and the energy |
| RsRingCapability.NewEnergyStorage | src/main/java/com/rsring/capability/RsRingCapability.java:313 | Forge's EnergyStorage constructor keeps the capacity and limits and stores the energy clamped into [0, capacity] |
| RsRingCapability.ReadNbtState | src/main/java/com/rsring/capability/RsRingCapability.java:301-330 | readNBT rebuilds the storage at the configured capacity with the tag's energy clamped into [0, capacity], as the EnergyStorage constructor stores it; absent terminal keys keep the terminal, an absent mode gives the configured one, an absent list the default list |
| RsRingCapability.ReadNbtOfWriteNbt | src/main/java/com/rsring/capability/RsRingCapability.java:276-330 | reading back what writeNBT wrote restores the flags, the list, the energy (clamped into [0, capacity]) and the terminal when bound |
| RsRingCapability.Capability.constructor | src/main/java/com/rsring/capability/RsRingCapability.java:32-35 | the new capability's state is the initial state of its configuration |
| RsRingCapability.Capability.LoadDefaultFilterList | src/main/java/com/rsring/capability/RsRingCapability.java:40-60 | the list becomes the default list (the normalized non-blank configured names when locked, empty otherwise); nothing else changes |
| RsRingCapability.Capability.RefreshEnergyStorage | src/main/java/com/rsring/capability/RsRingCapability.java:116-127 | only the storage changes, as the refresh function says |
| RsRingCapability.Capability.BindTerminal | src/main/java/com/rsring/capability/RsRingCapability.java:136-139 | the terminal position and dimension are set and the ring is bound; nothing else changes |
| RsRingCapability.Capability.SetEnabled | src/main/java/com/rsring/capability/RsRingCapability.java:162-164 | only the enabled flag changes |
| RsRingCapability.Capability.Copy | src/main/java/com/rsring/capability/RsRingCapability.java:177-186 | a fresh capability with the same fields and a new storage holding the same energy |
| RsRingCapability.Capability.AddToBlacklist | src/main/java/com/rsring/capability/RsRingCapability.java:189-197 | the state becomes the addToBlacklist state |
| RsRingCapability.Capability.RemoveFromBlacklist | src/main/java/com/rsring/capability/RsRingCapability.java:200-206 | the state becomes the removeFromBlacklist state |
| RsRingCapability.Capability.IsInBlacklist | src/main/java/com/rsring/capability/RsRingCapability.java:209-216 | the scan answers true exactly for a non-empty stack whose registry name is a non-empty entry |
| RsRingCapability.Capability.SetWhitelistMode | src/main/java/com/rsring/capability/RsRingCapability.java:227-230 | sets the mode when custom filters are allowed, otherwise changes nothing |
| RsRingCapability.Capability.GetBlacklistItems | src/main/java/com/rsring/capability/RsRingCapability.java:233-249 | the loop returns the normalized configured names when locked and the stored list otherwise |
| RsRingCapability.Capability.SetFilterSlot | src/main/java/com/rsring/capability/RsRingCapability.java:252-257 | the state becomes the setFilterSlot state |
| RsRingCapability.Capability.ReadNbt | src/main/java/com/rsring/capability/RsRingCapability.java:301-330 | the state becomes the readNBT state of the tag |
| AbsorbRing.DimensionName | src/main/java/com/rsring/item/ItemAbsorbRing.java:140-147 | the overworld, the nether and the end by name, any other dimension as "维度 " and its number |
| AbsorbRing.DimensionNameInjective | src/main/java/com/rsring/item/ItemAbsorbRing.java:140-147 | two different dimensions never get the same name |
| AbsorbRing.NormalizeAll | src/main/java/com/rsring/item/ItemAbsorbRing.java:476-483 | each configured entry is trimmed and namespaced exactly as normalizeItemName does, one for one |
| AbsorbRing.HasAnyDefaultFilter | src/main/java/com/rsring/item/ItemAbsorbRing.java:456-467 | the loop answers true exactly when the mode's configured list has a non-blank entry |
| AbsorbRing.IsInDefaultList | src/main/java/com/rsring/item/ItemAbsorbRing.java:469-485 | false for a null or empty name; otherwise true exactly when a configured entry of the mode, trimmed and namespaced, equals the name |
| AbsorbRing.HasAnyFilter | src/main/java/com/rsring/item/ItemAbsorbRing.java:423-434 | true exactly when a default filter exists or one of the nine filter slots is non-empty |
| AbsorbRing.ShouldFilterItem | src/main/java/com/rsring/item/ItemAbsorbRing.java:436-454 | an item is skipped in whitelist mode exactly when it is listed nowhere, in blacklist mode exactly when it is listed (default list or a slot) |
| AbsorbRing.DefaultListedMeansDefaultFilter | src/main/java/com/rsring/item/ItemAbsorbRing.java:456-485 | a name found in the default list implies that the default list has a filter |
| AbsorbRing.WhitelistWithoutFilterSkipsAll | src/main/java/com/rsring/item/ItemAbsorbRing.java:436-454 | in whitelist mode with no filter at all, every item is skipped |
| AbsorbRing.BlacklistSlotIsSkipped | src/main/java/com/rsring/item/ItemAbsorbRing.java:436-454 | in blacklist mode the name in any non-empty filter slot is skipped |
| AbsorbRing.WhitelistSlotIsAbsorbed | src/main/java/com/rsring/item/ItemAbsorbRing.java:436-454 | in whitelist mode the name in any non-empty filter slot is absorbed |
| AbsorbRing.ExtractEnergy | src/main/java/com/rsring/item/ItemAbsorbRing.java:404-405 | for a non-negative request, extractEnergy only lowers the energy, by at most the stored amount, the request and maxExtract |
| AbsorbRing.AttemptCountBounds | src/main/java/com/rsring/item/ItemAbsorbRing.java:388-389 | the attempted count is between 1 and the stack size, the whole stack when items are free, and within what the energy pays for otherwise |
| AbsorbRing.RequestedIsExactCost | src/main/java/com/rsring/item/ItemAbsorbRing.java:402-406 | for an insert within the attempted count, inserted * cost does not overflow an int and never exceeds the stored energy |
| AbsorbRing.AbsorbStepAccounts | src/main/java/com/rsring/item/ItemAbsorbRing.java:380-417 | for an attempted stack, the entity loses exactly the inserted items (dies when that was all of it) and the storage loses min(inserted * cost, maxExtract) energy, staying non-negative |
| AbsorbRing.AbsorbAll | src/main/java/com/rsring/item/ItemAbsorbRing.java:380-417 | the loop keeps one entity per nearby item and changes only the storage's energy |
| AbsorbRing.SkippedEntityUnchanged | src/main/java/com/rsring/item/ItemAbsorbRing.java:381-385 | a dead, empty or filtered entity is left exactly as it was |
| AbsorbRing.AbsorbAllEnergyBounds | src/main/java/com/rsring/item/ItemAbsorbRing.java:380-417 | the loop never raises the stored energy and never drives it below zero |
| AbsorbRing.FilteredIgnoresEnergy | src/main/java/com/rsring/item/ItemAbsorbRing.java:385 | whether an item is filtered does not depend on the stored energy, so paying for items cannot change later filter decisions |
| AbsorbRing.AbsorbEntity | src/main/java/com/rsring/item/ItemAbsorbRing.java:380-417 | one loop iteration applies exactly the declared step to the capability's storage and to the entity |
| AbsorbRing.AbsorbItemsToChest | src/main/java/com/rsring/item/ItemAbsorbRing.java:356-420 | nothing happens when the ring is unbound, the terminal is not loaded, or it is in whitelist mode with no filter; otherwise the loop's outcome |
| AbsorbRing.AbsorbLoop | src/main/java/com/rsring/item/ItemAbsorbRing.java:380-417 | the loop over the nearby entities produces exactly the declared entities and energy |
| RsringCraftingUpgrade.FirstPump | src/main/java/com/rsring/event/CraftingUpgradeHandler.java:39-57 | the pump the scan keeps is the first pump of the grid; there is none exactly when the grid holds no pump |
| RsringCraftingUpgrade.Matches | src/main/java/com/rsring/event/CraftingUpgradeHandler.java:134-163 | the scan accepts exactly the grids with one basic pump, one pearl, one bottle and nothing else |
| RsringCraftingUpgrade.UpgradedState | src/main/java/com/rsring/event/CraftingUpgradeHandler.java:64-108 | the result is a valid pump capability with capacity level max(1, original) + 1 (clamped to the configured range), the original XP clamped to the new capacity, and the original mode, retain level and mending flag (defaults 0, 10, false without a capability) |
| RsringCraftingUpgrade.UpgradeKeepsXp | src/main/java/com/rsring/event/CraftingUpgradeHandler.java:103-105 | when the new level is within the configured maximum, the upgraded pump keeps exactly the original XP and has one more level |
| RsringCraftingUpgrade.GetCraftingResult | src/main/java/com/rsring/event/CraftingUpgradeHandler.java:33-131 | EMPTY when the grid holds no pump or the first pump is a special tank; otherwise the upgraded state of the first pump |
| RsringControllerItem.GetControllerData | src/main/java/com/rsring/item/ItemExperiencePumpController.java:44-52 | the ControllerData compound, present exactly when the stack is not empty and its tag has that key |
| RsringControllerItem.KeyOr | src/main/java/com/rsring/item/ItemExperiencePumpController.java:108-151 | each getter falls back to its default when the controller data or the key is missing |
| RsringControllerItem.GetMode | src/main/java/com/rsring/item/ItemExperiencePumpController.java:128-131 | MODE_OFF without controller data, 0 when the data lacks the mode key |
| RsringControllerItem.IsUseForMending | src/main/java/com/rsring/item/ItemExperiencePumpController.java:148-151 | false without controller data |
| RsringControllerItem.SettingsCompound | src/main/java/com/rsring/item/ItemExperiencePumpController.java:68-72 | the new compound holds exactly the mode, retain level and mending keys with the given values |
| RsringControllerItem.WithControllerData | src/main/java/com/rsring/item/ItemExperiencePumpController.java:61-74 | after setControllerData the getters return the given mode, retain level and mending, the extract and store levels read their default 1, and other tag keys are kept |
| RsringControllerItem.WithExtractStoreLevels | src/main/java/com/rsring/item/ItemExperiencePumpController.java:82-101 | after setExtractStoreLevels the levels read back as given and mode, retain level and mending read as before; other tag keys are kept |
| RsringControllerItem.SetControllerDataResetsLevels | src/main/java/com/rsring/item/ItemExperiencePumpController.java:68-73 | setControllerData after setExtractStoreLevels resets both levels to 1 |
| RsringControllerItem.ControllerStack.constructor | src/main/java/com/rsring/item/ItemExperiencePumpController.java:44-52 | the stack view starts as given |
| RsringControllerItem.ControllerStack.SetControllerData | src/main/java/com/rsring/item/ItemExperiencePumpController.java:61-74 | the stack becomes the setControllerData result |
| RsringControllerItem.ControllerStack.SetExtractStoreLevels | src/main/java/com/rsring/item/ItemExperiencePumpController.java:82-101 | the stack becomes the setExtractStoreLevels result |
| ExperienceCalculator.TankCapacity | ExperienceCalculator.java:40-46 | the capacity of a tank level: 1000 for level 1 or lower, at least 1000 always |
| ExperienceCalculator.TankCapacityDoubles | ExperienceCalculator.java:42-44 | each further tank level doubles the capacity |
| ExperienceCalculator.TankCapacityMonotone | ExperienceCalculator.java:40-46 | a higher tank level never has less capacity |
| ExperienceCalculator.TankCapacityFitsLong | ExperienceCalculator.java:40-46 | up to level 54 the capacity fits a long |
| ExperienceCalculator.CalculateTankCapacity | ExperienceCalculator.java:40-46 | the doubling loop gives the capacity wrapped to a long, which is the exact capacity up to level 54 |
| ExperienceCalculator.RequiredTankLevelLoop | ExperienceCalculator.java:55-58 | the search only counts upward from its starting level |
| ExperienceCalculator.RequiredTankLevelAsWritten | ExperienceCalculator.java:51-61 | the search as written, with long wrap-around, returns a level of at least 1 whenever it stops |
| ExperienceCalculator.LoopAgreesWithin54 | ExperienceCalculator.java:55-58 | a doubling search started above every too-small level, that stops at a level up to 54, stops at the smallest level whose capacity holds the XP |
| ExperienceCalculator.RequiredTankLevelAsWrittenAgrees | ExperienceCalculator.java:51-61 | whenever the search as written stops at a level up to 54, that level is the one CalculateRequiredTankLevel finds |
| ExperienceCalculator.RequiredTankLevelAsWrittenDiverges | ExperienceCalculator.java:55-58 | for Long.MAX_VALUE the doubling wraps to a negative and then zero capacity before reaching the target, so the loop never stops |
| ExperienceCalculator.CalculateRequiredTankLevel | ExperienceCalculator.java:51-61 | the smallest level >= 1 whose capacity holds the XP; level 1 for anything up to 1000 |
| XpHelper.ExperienceForLevel | src/main/java/com/rsring/util/XpHelper.java:51-65 | the total XP of a level is never negative and, for a positive level, at least 7 per level |
| XpHelper.ExperienceDivisionExact | src/main/java/com/rsring/util/XpHelper.java:51-65 | every one of the three closed forms divides by 2 exactly |
| XpHelper.ExperienceClosedForm | src/main/java/com/moremod/util/XpHelper.java:51-65 | the three branches as polynomials: l^2 + 6l below 16, and the two quadratics above 15 and 30 |
| XpHelper.ExperienceLimitOnLevel | src/main/java/com/rsring/util/XpHelper.java:73-82 | the XP to the next level is at least 7 and is exactly the difference of the totals of the two levels |
| XpHelper.ExperienceStep | src/main/java/com/moremod/util/XpHelper.java:73-82 | the difference of consecutive totals is 7 + 2l, 37 + 5(l - 15) or 112 + 9(l - 30) by range |
| XpHelper.ExperienceStrictlyIncreasing | src/main/java/com/moremod/util/XpHelper.java:90-96 | the total XP strictly increases with the level from 0 on, which is why the level search stops |
| XpHelper.ExperienceMonotone | src/main/java/com/moremod/util/XpHelper.java:51-65 | the total XP never decreases with the level from 0 on |
| XpHelper.NegativeLevelExceedsLevelThirty | src/main/java/com/rsring/util/XpHelper.java:61-63 | a negative level falls into the third branch and yields more XP than level 30 |
| XpHelper.ExperienceFitsIntUpTo21863 | src/main/java/com/rsring/util/XpHelper.java:51-65 | the exact total XP (no wrap-around) fits an int up to level 21863 and exceeds Integer.MAX_VALUE above it |
| XpHelper.FloorLevel | src/main/java/com/rsring/util/XpHelper.java:90-96 | -1 for negative XP; otherwise the level L with E(L) <= x < E(L+1) |
| XpHelper.FloorLevelUnique | src/main/java/com/moremod/util/XpHelper.java:90-96 | that level is the only one whose XP range contains x |
| XpHelper.LevelForExperience | src/main/java/com/rsring/util/XpHelper.java:90-96 | the counting loop returns the floor level: -1 for negative XP, otherwise the L with E(L) <= x < E(L+1) |
| XpHelper.ExperienceForLevelAsWritten | src/main/java/com/rsring/util/XpHelper.java:51-65 | getExperienceForLevel evaluated with 32-bit wrap-around and truncating division always yields an int |
| XpHelper.ExperienceAsWrittenAgrees | src/main/java/com/rsring/util/XpHelper.java:51-65 | up to level 15465 no int operation overflows, so the wrapped value is the exact total |
| XpHelper.ExperienceAsWrittenWraps | src/main/java/com/moremod/util/XpHelper.java:51-65 | the wrapped total is 1073737170 at level 15465, -1073607451 at 15466 (exact: 1073876197) and -75705 at 21863 |
| XpHelper.LevelSearchAsWritten | src/main/java/com/rsring/util/XpHelper.java:90-96 | the counting loop over wrapped totals with a wrapping `i++` answers an int, or nothing when it has not stopped within the fuel |
| XpHelper.LevelSearchAsWrittenStopsAbove | src/main/java/com/rsring/util/XpHelper.java:90-96 | the loop only answers L when the wrapped total of L + 1 exceeds the XP |
| XpHelper.LevelSearchAsWrittenAgrees | src/main/java/com/moremod/util/XpHelper.java:90-96 | below 1073737170 XP the loop as written answers the floor level within 15466 steps |
| XpHelper.LevelSearchAsWrittenMissesFloor | src/main/java/com/rsring/util/XpHelper.java:90-96 | for XP between the totals of levels 15465 and 15466 the floor level is 15465 but the loop as written never answers it |
| XpHelper.LevelSearchAsWrittenDiverges | src/main/java/com/rsring/util/XpHelper.java:90-96 | for Integer.MAX_VALUE XP the loop as written never stops, whatever the fuel |
| XpHelper.ExperienceBetweenLevels | src/main/java/com/rsring/util/XpHelper.java:206-214 | never negative, 0 for equal levels, and the difference of the two totals in whichever order is larger |
| XpHelper.ExperienceBetweenLevelsSymmetric | src/main/java/com/rsring/util/XpHelper.java:206-214 | swapping the two levels gives the same amount |
| XpHelper.FormatExperience | src/main/java/com/rsring/util/XpHelper.java:190-197 | "0 XP (0 levels)" for xp <= 0, otherwise the XP and its floor level as "<xp> XP (<level> levels)" |
| ExperienceTank.TankData.WithStored | src/main/java/com/moremod/experience/ExperienceTankData.java:62-64 | setting the stored XP clamps it into 0..maxCapacity, changes no other field and keeps the tank valid |
| ExperienceTank.TankData.WithMaxCapacity | src/main/java/com/moremod/experience/ExperienceTankData.java:70-74 | the new capacity is at least 1 and the stored XP is lowered to fit it; tier and id are kept and validity is preserved |
| ExperienceTank.TankData.WithTier | src/main/java/com/moremod/experience/ExperienceTankData.java:80-82 | the tier is at least 1, nothing else changes and validity is preserved |
| ExperienceTank.TankData.WithId | src/main/java/com/moremod/experience/ExperienceTankData.java:88-90 | a missing id is replaced by the freshly generated one; nothing else changes |
| ExperienceTank.TankData.RemainingCapacity | src/main/java/com/moremod/experience/ExperienceTankData.java:111-113 | room left plus stored XP is the capacity, and for a valid tank the room lies in 0..capacity |
| ExperienceTank.TankData.IsFull | src/main/java/com/moremod/experience/ExperienceTankData.java:97-99 | the tank is full exactly when no room remains |
| ExperienceTank.TankData.IsEmpty | src/main/java/com/moremod/experience/ExperienceTankData.java:104-106 | a valid tank is empty exactly when it stores no XP |
| ExperienceTank.TankData.Accepted | src/main/java/com/moremod/experience/ExperienceTankData.java:125-131 | addExperience accepts nothing for a non-positive amount, otherwise the smaller of the amount and the room left, and never overfills |
| ExperienceTank.TankData.Removed | src/main/java/com/moremod/experience/ExperienceTankData.java:136-142 | removeExperience gives nothing for a non-positive amount, otherwise the smaller of the amount and the stored XP, and never goes below empty |
| ExperienceTank.DefaultTank | src/main/java/com/moremod/experience/ExperienceTankData.java:29-34 | a new tank is empty with capacity 1000, tier 1 and a fresh id, and is valid |
| ExperienceTank.NewTank | src/main/java/com/moremod/experience/ExperienceTankData.java:39-44 | the three-value constructor clamps stored XP into 0..capacity and floors capacity and tier at 1, giving a valid tank |
| ExperienceTank.WriteToNbt | src/main/java/com/moremod/experience/ExperienceTankData.java:150-162 | the tag holds exactly the four keys, with the stored XP, capacity, tier and the id's text |
| ExperienceTank.ReadId | src/main/java/com/moremod/experience/ExperienceTankData.java:187-196 | the id is the parsed one when UUID.fromString accepts the key's text, and the fresh one when it rejects it or the key is missing |
| ExperienceTank.ReadFromNbtState | src/main/java/com/moremod/experience/ExperienceTankData.java:168-200 | a null tag changes nothing; otherwise each present key replaces its field (XP floored at 0, capacity and tier at 1), the id is re-read or regenerated and stored XP is capped at the capacity; a valid tank stays valid |
| ExperienceTank.FromNbt | src/main/java/com/moremod/experience/ExperienceTankData.java:205-209 | reading a null tag gives the default tank, and any tag gives a valid tank |
| ExperienceTank.FromNbtOfWriteToNbt | src/main/java/com/moremod/experience/ExperienceTankData.java:150-209 | reading back what writeToNBT wrote reproduces every field of a valid tank |
| ExperienceTank.FromNbtOfEmpty | src/main/java/com/moremod/experience/ExperienceTankData.java:168-209 | a tag without any key gives the defaults 0, 1000, 1 and a fresh id |
| ExperienceTank.FromNbtClamps | src/main/java/com/moremod/experience/ExperienceTankData.java:175-199 | negative or zero values in the tag are floored and the stored XP is capped at the capacity read |
| ExperienceTank.ExperienceTankData.constructor | src/main/java/com/moremod/experience/ExperienceTankData.java:29-34 | the object starts in the default tank state |
| ExperienceTank.ExperienceTankData.WithValues | src/main/java/com/moremod/experience/ExperienceTankData.java:39-44 | the object starts in the clamped state of the three-value constructor |
| ExperienceTank.ExperienceTankData.CopyOf | src/main/java/com/moremod/experience/ExperienceTankData.java:49-54 | the copy has the same four fields as the original |
| ExperienceTank.ExperienceTankData.SetStoredExperience | src/main/java/com/moremod/experience/ExperienceTankData.java:62-64 | the object's new state is the old state with the clamped stored XP |
| ExperienceTank.ExperienceTankData.SetMaxCapacity | src/main/java/com/moremod/experience/ExperienceTankData.java:70-74 | the new state has the floored capacity and the stored XP lowered to fit |
| ExperienceTank.ExperienceTankData.SetTankTier | src/main/java/com/moremod/experience/ExperienceTankData.java:80-82 | the new state has the floored tier |
| ExperienceTank.ExperienceTankData.SetTankId | src/main/java/com/moremod/experience/ExperienceTankData.java:88-90 | the new state has the given id, or the fresh one for a null id |
| ExperienceTank.ExperienceTankData.AddExperience | src/main/java/com/moremod/experience/ExperienceTankData.java:125-131 | returns the accepted amount, adds exactly that to the stored XP and keeps the tank valid |
| ExperienceTank.ExperienceTankData.RemoveExperience | src/main/java/com/moremod/experience/ExperienceTankData.java:136-142 | returns the removed amount, subtracts exactly that and keeps the tank valid |
| ExperienceTank.ExperienceTankData.ReadFromNbt | src/main/java/com/moremod/experience/ExperienceTankData.java:168-200 | the object's new state is what readFromNBT computes from the old state and the tag |
| ExperienceTank.FromNbtObject | src/main/java/com/moremod/experience/ExperienceTankData.java:205-209 | a fresh object whose state is fromNBT of the tag |
| MoremodTankManager.ValidateCapacity | src/main/java/com/moremod/experience/ExperienceTankManager.java:121-138 | negative XP becomes 0, a capacity of 0 or less is replaced by the base 1000, and XP above the capacity is capped; the result is never negative and never above a positive capacity |
| MoremodTankManager.ValidateCapacityIdempotent | src/main/java/com/moremod/experience/ExperienceTankManager.java:121-138 | validating an already validated amount changes nothing |
| MoremodTankManager.CapacityForTier | src/main/java/com/moremod/experience/ExperienceTankManager.java:266-269 | the capacity is 1000 times the tier clamped into 1..10, so it lies in 1000..10000 |
| MoremodTankManager.TierFromCapacity | src/main/java/com/moremod/experience/ExperienceTankManager.java:277-284 | the tier lies in 1..10: 1 up to the base capacity, then one more tier per full 1000 above it, capped at 10 |
| MoremodTankManager.TierFromCapacityForTier | src/main/java/com/moremod/experience/ExperienceTankManager.java:266-284 | the tier recovered from a tier's capacity is that tier, for every tier 1..10 |
| MoremodTankManager.CapacityForTierFromCapacity | src/main/java/com/moremod/experience/ExperienceTankManager.java:266-284 | the capacity of the tier read from a capacity is at most that capacity, and below a capacity's next tier unless the tier is already 10 |
| MoremodTankManager.HandleExperienceOverflow | src/main/java/com/moremod/experience/ExperienceTankManager.java:355-377 | a non-pump or a non-positive amount passes unchanged; for a pump the tank is filled up to its capacity and only the part that did not fit is returned as overflow, which is non-zero only when the tank ends full |
| MoremodTankManager.CountPumps | src/main/java/com/moremod/experience/ExperienceTankManager.java:490-508 | the number of pumps counted is at most the number of grid slots |
| MoremodTankManager.IsUpgradeCrafting | src/main/java/com/moremod/experience/ExperienceTankManager.java:490-508 | the grid is an upgrade recipe exactly when it holds one pump and at least one ender pearl or experience bottle |
| UuidText.ToString | src/main/java/com/moremod/experience/ExperienceTankData.java:158-159 | the text written for a tank id is always 36 characters: 8, 4, 4, 4 and 12 lower-case hex digits joined by '-' |
| UuidText.ParseGroup | src/main/java/com/moremod/experience/ExperienceTankData.java:190 | a group is read exactly when it is a non-empty run of hex digits (either case) whose value is at most Long.MAX_VALUE, and its value is that number |
| UuidText.Parse | src/main/java/com/moremod/experience/ExperienceTankData.java:187-196 | UUID.fromString succeeds exactly when the text splits at '-' into five groups each read by ParseGroup, and the id it gives has two 64-bit halves |
| UuidText.Combine | src/main/java/com/moremod/experience/ExperienceTankData.java:190 | the halves or-ed and shifted from the five group values (no masking) are 64-bit values |
| UuidText.CombineFits | src/main/java/com/moremod/experience/ExperienceTankData.java:190 | group values that fit their 32/16/16/16/48-bit slots combine into the halves (v0*2^16+v1)*2^16+v2 and v3*2^48+v4 |
| UuidText.HexNumberOfDigits | src/main/java/com/moremod/experience/ExperienceTankData.java:158-159 | reading back d written hex digits of a value gives the value modulo 16^d |
| UuidText.HexDigitsOfNumber | src/main/java/com/moremod/experience/ExperienceTankData.java:190 | writing the value of a lower-case hex text with as many digits gives the text back |
| UuidText.BitOrShifted | src/main/java/com/moremod/experience/ExperienceTankData.java:190 | or-ing a k-bit number into a value shifted left by k is addition |
| UuidText.ParseJoined | src/main/java/com/moremod/experience/ExperienceTankData.java:190 | five acceptable hex groups joined by '-' parse to the combination of their values |
| UuidText.ParseToString | src/main/java/com/moremod/experience/ExperienceTankData.java:150-200 | parsing the text of any id gives back that id, so a tank id survives writeToNBT and readFromNBT |
| UuidText.ToStringOfParse | src/main/java/com/moremod/experience/ExperienceTankData.java:187-196 | a canonical lower-case id text is accepted and reproduced by printing the id parsed from it |
| UuidText.ParseShortGroups | src/main/java/com/moremod/experience/ExperienceTankData.java:190 | groups shorter than their slots (as in "1-2-3-4-5") are accepted and read as if zero-padded |
| UuidText.ParseSpills | src/main/java/com/moremod/experience/ExperienceTankData.java:190 | a second group longer than its slot spills into the first: "0-" + x + "0000-0-0-0" and x + "-0-0-0-0" parse to the same id |
| ByteBuf.ReadIntOf | src/main/java/com/rsring/network/PacketPumpAction.java:54-61 | reading four bytes written by writeInt gives the written int (wrapped to 32 bits) and leaves the rest of the buffer |
| ByteBuf.ReadBooleanOf | src/main/java/com/rsring/network/PacketSyncRingFilter.java:41-48 | reading a byte written by writeBoolean gives the written flag and leaves the rest |
| ByteBuf.ReadVarIntOf | src/main/java/com/rsring/network/PacketSyncRingFilter.java:34-46 | the length prefix of a UTF-8 string reads back as the length written |
| ByteBuf.DecodeUtf8Of | src/main/java/com/rsring/network/PacketSyncRingFilter.java:34-46 | decoding the UTF-8 bytes of any string gives back that string |
| ByteBuf.Utf8OfDecode | src/main/java/com/rsring/network/PacketSyncRingFilter.java:34-46 | bytes that decode as UTF-8 are exactly the encoding of the decoded string |
| ByteBuf.Utf8StringBytes | src/main/java/com/rsring/network/PacketSyncRingFilter.java:46 | writeUTF8String refuses a string whose UTF-8 form is too long for its length prefix and otherwise writes more bytes than the encoding alone |
| ByteBuf.ReadUtf8StringOf | src/main/java/com/rsring/network/PacketSyncRingFilter.java:34-46 | readUTF8String on what writeUTF8String wrote gives the written string and leaves the rest |
| ByteBuf.Buffer.WriteBoolean | src/main/java/com/rsring/network/PacketSyncRingFilter.java:41 | the buffer gains exactly the flag's byte at its end |
| ByteBuf.Buffer.WriteInt | src/main/java/com/rsring/network/PacketPumpAction.java:61 | the buffer gains exactly the int's four bytes at its end |
| ByteBuf.Buffer.WriteUtf8String | src/main/java/com/rsring/network/PacketSyncRingFilter.java:46 | the buffer gains the string's length-prefixed UTF-8 bytes, or nothing when the string is too long |
| ByteBuf.Buffer.ReadBoolean | src/main/java/com/rsring/network/PacketSyncRingFilter.java:31-34 | a read consumes one byte and yields its flag, or fails on an empty buffer |
| ByteBuf.Buffer.ReadInt | src/main/java/com/rsring/network/PacketPumpAction.java:54 | a read consumes four bytes and yields their int, or fails with fewer than four left |
| ByteBuf.Buffer.ReadUtf8String | src/main/java/com/rsring/network/PacketSyncRingFilter.java:34 | a read consumes a length-prefixed UTF-8 string and yields it, or fails on a short buffer, a bad length prefix or bytes that are not well-formed UTF-8 |
| MoremodPumpCapability.PumpState.MaxXp | src/main/java/com/moremod/capability/ExperiencePumpCapability.java:55-68 | the capacity is never negative and, for at least one level, is the intended capped capacity (at least 1000) |
| MoremodPumpCapability.PumpState.WithXpStored | src/main/java/com/moremod/capability/ExperiencePumpCapability.java:41-43 | setXpStored clamps the XP into 0..getMaxXp() and changes nothing else |
| MoremodPumpCapability.PumpState.WithCapacityLevels | src/main/java/com/moremod/capability/ExperiencePumpCapability.java:49-52 | setCapacityLevels clamps the levels into 1..1000 and lowers the stored XP to the new capacity; nothing else changes |
| MoremodPumpCapability.PumpState.WithMode | src/main/java/com/moremod/capability/ExperiencePumpCapability.java:74-76 | setMode keeps a mode in 0..2 and turns any other value into OFF |
| MoremodPumpCapability.PumpState.WithRetainLevel | src/main/java/com/moremod/capability/ExperiencePumpCapability.java:82-84 | setRetainLevel floors the retain level at 0 |
| MoremodPumpCapability.PumpState.XpAccepted | src/main/java/com/moremod/capability/ExperiencePumpCapability.java:107-113 | addXp accepts nothing for a non-positive amount, never overfills, and accepts either all of the amount or exactly the room left |
| MoremodPumpCapability.PumpState.XpTaken | src/main/java/com/moremod/capability/ExperiencePumpCapability.java:116-122 | takeXp gives nothing for a non-positive amount and otherwise exactly the smaller of the amount and the stored XP |
| MoremodPumpCapability.SettersPreserveValid | src/main/java/com/moremod/capability/ExperiencePumpCapability.java:31-122 | the initial state is valid and every setter, addXp and takeXp keep a valid state valid |
| MoremodPumpCapability.AddCapacityLevelsState | src/main/java/com/moremod/capability/ExperiencePumpCapability.java:95-104 | addCapacityLevels succeeds exactly for a positive count below the 1000-level cap, then raises the levels by the count or to the cap, and otherwise changes nothing; the result stays valid |
| MoremodPumpCapability.AddCapacityLevelsKeepsXp | src/main/java/com/moremod/capability/ExperiencePumpCapability.java:95-104 | adding capacity levels keeps the stored XP and never lowers the capacity |
| MoremodPumpCapability.WriteNbt | src/main/java/com/moremod/capability/ExperiencePumpCapability.java:137-147 | a null instance gives an empty tag; otherwise the tag holds exactly the five keys with the state's values |
| MoremodPumpCapability.ReadSettings | src/main/java/com/moremod/capability/ExperiencePumpCapability.java:156-158 | reading mode, retain level and mending keeps XP and levels and leaves mode and retain level in range |
| MoremodPumpCapability.ReadNbtAsWritten | src/main/java/com/moremod/capability/ExperiencePumpCapability.java:150-159 | readNBT as written: a null tag changes nothing, and the XP read back never exceeds the capacity the instance had before the read |
| MoremodPumpCapability.ReadNbtAsWrittenTruncates | src/main/java/com/moremod/capability/ExperiencePumpCapability.java:150-159 | a valid 2-level tank holding 1500 XP, written and read into a fresh instance, comes back with 1000 XP |
| MoremodPumpCapability.ReadNbtState | src/main/java/com/moremod/capability/ExperiencePumpCapability.java:150-159 | readNBT with capacity restored before XP: a null tag changes nothing and any tag gives a valid state |
| MoremodPumpCapability.ReadNbtOfWriteNbt | src/main/java/com/moremod/capability/ExperiencePumpCapability.java:137-159 | with capacity read first, reading what writeNBT wrote restores any valid state exactly |
| MoremodPumpCapability.ExperiencePumpCapability.constructor | src/main/java/com/moremod/capability/ExperiencePumpCapability.java:31-35 | a new capability is in the initial state (no XP, default levels, mode OFF, retain 10, no mending) and valid |
| MoremodPumpCapability.ExperiencePumpCapability.SetXpStored | src/main/java/com/moremod/capability/ExperiencePumpCapability.java:41-43 | the new state is the old one with the clamped XP |
| MoremodPumpCapability.ExperiencePumpCapability.SetCapacityLevels | src/main/java/com/moremod/capability/ExperiencePumpCapability.java:49-52 | the new state is the old one with clamped levels and XP lowered to fit |
| MoremodPumpCapability.ExperiencePumpCapability.SetMode | src/main/java/com/moremod/capability/ExperiencePumpCapability.java:74-76 | the new state is the old one with the checked mode |
| MoremodPumpCapability.ExperiencePumpCapability.SetRetainLevel | src/main/java/com/moremod/capability/ExperiencePumpCapability.java:82-84 | the new state is the old one with the floored retain level |
| MoremodPumpCapability.ExperiencePumpCapability.SetUseForMending | src/main/java/com/moremod/capability/ExperiencePumpCapability.java:90-92 | only the mending flag changes |
| MoremodPumpCapability.ExperiencePumpCapability.AddCapacityLevels | src/main/java/com/moremod/capability/ExperiencePumpCapability.java:95-104 | the result and new state are those of addCapacityLevels, and the capability stays valid |
| MoremodPumpCapability.ExperiencePumpCapability.AddXp | src/main/java/com/moremod/capability/ExperiencePumpCapability.java:107-113 | returns the accepted amount, adds exactly that and stays valid |
| MoremodPumpCapability.ExperiencePumpCapability.TakeXp | src/main/java/com/moremod/capability/ExperiencePumpCapability.java:116-122 | returns the taken amount, subtracts exactly that and stays valid |
| MoremodPumpCapability.ExperiencePumpCapability.Copy | src/main/java/com/moremod/capability/ExperiencePumpCapability.java:125-133 | the copy is a new object with the same five fields |
| MoremodPumpCapability.ExperiencePumpCapability.ReadNbt | src/main/java/com/moremod/capability/ExperiencePumpCapability.java:150-159 | the new state is readNBT's result with capacity read before XP |
| RsringPumpCapability.TankConfig.DefaultMode | src/main/java/com/rsring/capability/ExperiencePumpCapability.java:30-36 | the configured default mode when it lies in 0..2, otherwise OFF |
| RsringPumpCapability.TankConfig.DefaultRetainLevel | src/main/java/com/rsring/capability/ExperiencePumpCapability.java:38-44 | the configured default retain level, floored at 0 |
| RsringPumpCapability.TankConfig.MaxLevels | src/main/java/com/rsring/capability/ExperiencePumpCapability.java:50-59 | the configured level limit clamped into 1..25, unchanged when already in range |
| RsringPumpCapability.PumpState.MaxXp | src/main/java/com/rsring/capability/ExperiencePumpCapability.java:89-105 | a positive fixed capacity wins; otherwise for 1..54 levels (every level count the 25-level limit allows) the capacity is the intended capped one; never negative |
| RsringPumpCapability.PumpState.WithXpStored | src/main/java/com/rsring/capability/ExperiencePumpCapability.java:73-75 | setXpStored clamps the XP into 0..getMaxXp() and changes nothing else |
| RsringPumpCapability.PumpState.WithCapacityLevels | src/main/java/com/rsring/capability/ExperiencePumpCapability.java:81-86 | setCapacityLevels clamps the levels into 1..configured limit and lowers the stored XP to the new capacity |
| RsringPumpCapability.PumpState.WithMode | src/main/java/com/rsring/capability/ExperiencePumpCapability.java:111-113 | setMode keeps a mode in 0..2 and turns any other value into OFF |
| RsringPumpCapability.PumpState.WithRetainLevel | src/main/java/com/rsring/capability/ExperiencePumpCapability.java:119-121 | setRetainLevel floors the retain level at 0 |
| RsringPumpCapability.PumpState.XpAccepted | src/main/java/com/rsring/capability/ExperiencePumpCapability.java:144-150 | addXp accepts nothing for a non-positive amount, never overfills, and accepts either all of the amount or exactly the room left |
| RsringPumpCapability.PumpState.XpTaken | src/main/java/com/rsring/capability/ExperiencePumpCapability.java:153-159 | takeXp gives nothing for a non-positive amount and otherwise exactly the smaller of the amount and the stored XP |
| RsringPumpCapability.InitialState | src/main/java/com/rsring/capability/ExperiencePumpCapability.java:61-67 | a new capability holds no XP, default levels and no fixed capacity, and is valid |
| RsringPumpCapability.XpSetterValid | src/main/java/com/rsring/capability/ExperiencePumpCapability.java:73-75 | setXpStored keeps a valid state valid |
| RsringPumpCapability.LevelsSetterValid | src/main/java/com/rsring/capability/ExperiencePumpCapability.java:81-86 | setCapacityLevels keeps a valid state valid |
| RsringPumpCapability.ModeSetterValid | src/main/java/com/rsring/capability/ExperiencePumpCapability.java:111-113 | setMode keeps a valid state valid |
| RsringPumpCapability.RetainSetterValid | src/main/java/com/rsring/capability/ExperiencePumpCapability.java:119-121 | setRetainLevel keeps a valid state valid |
| RsringPumpCapability.AddCapacityLevelsState | src/main/java/com/rsring/capability/ExperiencePumpCapability.java:132-141 | addCapacityLevels succeeds exactly for a positive count below the configured limit, then raises the levels by the count or to the limit, and otherwise changes nothing; the result stays valid |
| RsringPumpCapability.WriteNbt | src/main/java/com/rsring/capability/ExperiencePumpCapability.java:175-188 | a null instance gives an empty tag; otherwise the tag holds the six keys, fixed capacity included, with the state's values |
| RsringPumpCapability.ReadNbtState | src/main/java/com/rsring/capability/ExperiencePumpCapability.java:191-204 | a null tag changes nothing and any tag gives a valid state |
| RsringPumpCapability.ReadNbtOfWriteNbt | src/main/java/com/rsring/capability/ExperiencePumpCapability.java:175-204 | reading what writeNBT wrote restores any valid state exactly, since capacity is read before XP |
| RsringPumpCapability.ExperiencePumpCapability.constructor | src/main/java/com/rsring/capability/ExperiencePumpCapability.java:61-67 | a new capability keeps its configuration and starts in the valid initial state |
| RsringPumpCapability.ExperiencePumpCapability.SetXpStored | src/main/java/com/rsring/capability/ExperiencePumpCapability.java:73-75 | the new state is the old one with the clamped XP |
| RsringPumpCapability.ExperiencePumpCapability.SetCapacityLevels | src/main/java/com/rsring/capability/ExperiencePumpCapability.java:81-86 | the new state is the old one with clamped levels and XP lowered to fit |
| RsringPumpCapability.ExperiencePumpCapability.SetMode | src/main/java/com/rsring/capability/ExperiencePumpCapability.java:111-113 | the new state is the old one with the checked mode |
| RsringPumpCapability.ExperiencePumpCapability.SetRetainLevel | src/main/java/com/rsring/capability/ExperiencePumpCapability.java:119-121 | the new state is the old one with the floored retain level |
| RsringPumpCapability.ExperiencePumpCapability.SetUseForMending | src/main/java/com/rsring/capability/ExperiencePumpCapability.java:127-129 | only the mending flag changes |
| RsringPumpCapability.ExperiencePumpCapability.AddCapacityLevels | src/main/java/com/rsring/capability/ExperiencePumpCapability.java:132-141 | the result and new state are those of addCapacityLevels, and the capability stays valid |
| RsringPumpCapability.ExperiencePumpCapability.AddXp | src/main/java/com/rsring/capability/ExperiencePumpCapability.java:144-150 | returns the accepted amount, adds exactly that and stays valid |
| RsringPumpCapability.ExperiencePumpCapability.TakeXp | src/main/java/com/rsring/capability/ExperiencePumpCapability.java:153-159 | returns the taken amount, subtracts exactly that and stays valid |
| RsringPumpCapability.ExperiencePumpCapability.Copy | src/main/java/com/rsring/capability/ExperiencePumpCapability.java:162-171 | the copy is a new object with the same configuration and fields |
| RsringPumpCapability.ExperiencePumpCapability.ReadNbt | src/main/java/com/rsring/capability/ExperiencePumpCapability.java:191-204 | the new state is readNBT's result |
| MoremodRingDetection.InventoryLocation.Priority | src/main/java/com/moremod/experience/RingDetectionResult.java:17-39 | each location's priority is its 1-based position in the declaration order (main hand 1 through player inventory 6) |
| MoremodRingDetection.PriorityIsPosition | src/main/java/com/moremod/experience/RingDetectionResult.java:17-39 | the location at position i of the declaration order has priority i + 1, so priorities are distinct |
| MoremodRingDetection.CountAt | src/main/java/com/moremod/experience/RingDetectionResult.java:130-133 | a location with no entry counts no rings |
| MoremodRingDetection.RingType | src/main/java/com/moremod/experience/RingDetectionResult.java:275-288 | an empty stack has type "Unknown"; otherwise the class name with a leading "Item" removed, or the class name itself |
| MoremodRingDetection.FirstNonEmpty | src/main/java/com/moremod/experience/RingDetectionResult.java:232-252 | the location found holds at least one ring, and none is found exactly when every location is empty |
| MoremodRingDetection.FirstNonEmptyHasBestPriority | src/main/java/com/moremod/experience/RingDetectionResult.java:232-252 | the location found has a priority no worse than any non-empty location, which is what the highest-priority search in determinePrimaryRing picks |
| MoremodRingDetection.CountType | src/main/java/com/moremod/experience/RingDetectionResult.java:194-209 | the count of a ring type is at most the number of rings |
| MoremodRingDetection.CountTypePositive | src/main/java/com/moremod/experience/RingDetectionResult.java:194-209 | every found ring's own type counts at least once |
| MoremodRingDetection.ByTypeKeepsFirst | src/main/java/com/moremod/experience/RingDetectionResult.java:216-227 | the by-type map holds every found type, each mapped to the first found ring of that type |
| MoremodRingDetection.ByTypeHas | src/main/java/com/moremod/experience/RingDetectionResult.java:216-227 | every found ring's type is a key of the by-type map |
| MoremodRingDetection.ByTypeFirst | src/main/java/com/moremod/experience/RingDetectionResult.java:216-227 | every key of the by-type map maps to the first found ring of that type |
| MoremodRingDetection.BuildRingsByType | src/main/java/com/moremod/experience/RingDetectionResult.java:216-227 | the loop builds the by-type map that keeps the first ring of each type |
| MoremodRingDetection.DeterminePrimaryRing | src/main/java/com/moremod/experience/RingDetectionResult.java:232-252 | the loop over locations picks EMPTY when no ring is found, else the first ring of the non-empty location of best priority |
| MoremodRingDetection.DeterminePrimaryLocation | src/main/java/com/moremod/experience/RingDetectionResult.java:257-270 | no location for an empty primary ring; otherwise the first location, in priority order, whose list holds the ring, and none only when no list holds it |
| MoremodRingDetection.NewRingDetectionResult | src/main/java/com/moremod/experience/RingDetectionResult.java:52-72 | the result keeps the lists, keeps the first ring of each type, selects the primary ring, and has a primary location exactly when the primary ring is non-empty, namely the best non-empty location |
| MoremodRingDetection.Empty | src/main/java/com/moremod/experience/RingDetectionResult.java:77-79 | the empty result has no rings in any location, an EMPTY primary ring and no primary location |
| MoremodRingDetection.Summary | src/main/java/com/moremod/experience/RingDetectionResult.java:174-189 | the summary lists every location with a non-zero count under its display name with that count, and nothing else |
| MoremodRingDetection.LocationSummary | src/main/java/com/moremod/experience/RingDetectionResult.java:174-189 | the loop produces the summary in priority order |
| MoremodRingDetection.TypeSummary | src/main/java/com/moremod/experience/RingDetectionResult.java:194-209 | the type summary has exactly the by-type keys, each with the number of found rings of that type, which is at least 1 |
| MoremodRingDetection.CountOfType | src/main/java/com/moremod/experience/RingDetectionResult.java:199-204 | the inner loop counts exactly the found rings of the type |
| MoremodRingDetection.CountAllLocationsUpdate | src/main/java/com/moremod/experience/RingDetectionResult.java:309 | replacing one location's list changes the total count by the difference in its length |
| MoremodRingDetection.Builder.constructor | src/main/java/com/moremod/experience/RingDetectionResult.java:303-304 | a new builder has no rings |
| MoremodRingDetection.Builder.AddRing | src/main/java/com/moremod/experience/RingDetectionResult.java:306-312 | a null or empty ring is ignored; any other ring is appended to the list and to its location's list |
| MoremodRingDetection.NonEmpty | src/main/java/com/moremod/experience/RingDetectionResult.java:314-321 | the rings addRings keeps are non-null, non-empty elements of the list, at most as many as it has |
| MoremodRingDetection.Appended | src/main/java/com/moremod/experience/RingDetectionResult.java:306-312 | adding rings to a location appends them to that location's list (creating it only when something is added) and leaves every other location alone |
| MoremodRingDetection.AppendedTwice | src/main/java/com/moremod/experience/RingDetectionResult.java:314-321 | adding rings one call after another to a location is the same as adding them all at once |
| MoremodRingDetection.Builder.AddRings | src/main/java/com/moremod/experience/RingDetectionResult.java:314-321 | a null list changes nothing; otherwise the list's non-empty rings, in order, are appended to the found list and to the location's list, as one addRing call per element does |
| MoremodRingDetection.Builder.Build | src/main/java/com/moremod/experience/RingDetectionResult.java:323-325 | the result has rings exactly when its primary ring is non-empty, and then the primary location is the best non-empty location and the primary ring its first ring |
| MoremodRingDetection.AnyRingGivesFirstLocation | src/main/java/com/moremod/experience/RingDetectionResult.java:232-252 | when any location holds a ring, the priority walk finds a non-empty location |
| RsringRingDetection.NewResult | src/main/java/com/rsring/experience/RingDetectionResult.java:19-28 | the private constructor keeps the flag and slot, turns a null ring into EMPTY, a null location into UNKNOWN and null collections into empty ones |
| RsringRingDetection.Found | src/main/java/com/rsring/experience/RingDetectionResult.java:30-38 | found(ring, location, slot) is flagged found with that ring, location and slot, holds the ring exactly when it is non-empty, and then has it as primary ring and as the location's only ring |
| RsringRingDetection.NotFound | src/main/java/com/rsring/experience/RingDetectionResult.java:40-47 | notFound() and empty() hold no rings, an EMPTY ring, location UNKNOWN and slot -1 |
| RsringRingDetection.FirstKey | src/main/java/com/rsring/experience/RingDetectionResult.java:120-123 | the first key of the map in declaration order, UNKNOWN when there is none: it is a key, and no earlier location is |
| RsringRingDetection.FirstKeyShift | src/main/java/com/rsring/experience/RingDetectionResult.java:120-123 | skipping a leading location that is not a key keeps the first key found in the rest |
| RsringRingDetection.BuildResult | src/main/java/com/rsring/experience/RingDetectionResult.java:120-126 | build() is found exactly when a ring was added; its ring is the first added and its location the first non-empty location in declaration order, with slot -1 |
| RsringRingDetection.PrimaryLocationMayDiffer | src/main/java/com/rsring/experience/RingDetectionResult.java:120-126 | a ring added first from the hotbar and a second from the main hand give primary ring the first and location MAIN_HAND, which does not hold it |
| RsringRingDetection.Builder.constructor | src/main/java/com/rsring/experience/RingDetectionResult.java:109-110 | a new builder has no rings |
| RsringRingDetection.Builder.AddRing | src/main/java/com/rsring/experience/RingDetectionResult.java:112-118 | an empty ring is ignored; any other ring is appended to the list and to its location's list |
| RsringRingDetection.Builder.Build | src/main/java/com/rsring/experience/RingDetectionResult.java:120-126 | the result is found exactly when it holds rings, then its primary ring is non-empty and its location holds at least one ring |
| TankScan.SumOfAppend | src/main/java/com/moremod/experience/TankScanResult.java:168-197 | the total over two lists of tanks is the sum of their totals |
| TankScan.CalculateTotal | src/main/java/com/moremod/experience/TankScanResult.java:168-197 | the loops of calculateTotalCapacity and calculateTotalStored compute the sum of the per-tank value, with empty stacks contributing 0 |
| TankScan.CountAt | src/main/java/com/moremod/experience/TankScanResult.java:106-109 | a location with no entry counts no tanks |
| TankScan.NewTankScanResult | src/main/java/com/moremod/experience/TankScanResult.java:43-59 | the result keeps the tanks and their grouping, and its totals are the sums of capacity and stored XP over the tanks |
| TankScan.Empty | src/main/java/com/moremod/experience/TankScanResult.java:64-66 | the empty result has no tanks anywhere and zero totals and remaining capacity |
| TankScan.RemainingIsSumOfFreeSpace | src/main/java/com/moremod/experience/TankScanResult.java:136-138 | the total remaining capacity is the sum of each tank's free space |
| TankScan.SumOfDifference | src/main/java/com/moremod/experience/TankScanResult.java:136-138 | summing capacities and stored XP separately and subtracting equals summing each tank's free space |
| TankScan.Summary | src/main/java/com/moremod/experience/TankScanResult.java:150-161 | the summary lists every location with a non-zero count under its display name with that count, and nothing else |
| TankScan.LocationSummary | src/main/java/com/moremod/experience/TankScanResult.java:150-161 | the loop over the locations in declaration order produces that summary |
| TankScan.Builder.constructor | src/main/java/com/moremod/experience/TankScanResult.java:234-235 | a new builder has no tanks |
| TankScan.Builder.AddTank | src/main/java/com/moremod/experience/TankScanResult.java:237-243 | a null or empty stack is ignored; any other is appended to the list and to its location's list |
| TankScan.Builder.AddTanks | src/main/java/com/moremod/experience/TankScanResult.java:245-252 | a null list changes nothing; otherwise exactly its non-empty stacks are appended in order |
| TankScan.Builder.Build | src/main/java/com/moremod/experience/TankScanResult.java:254-256 | the result keeps the collected tanks with matching totals, and the tank count is the sum of the four location counts |
| TankScan.NonEmpty | src/main/java/com/moremod/experience/TankScanResult.java:245-252 | the kept stacks are non-empty elements of the list, at most as many as it has |
| PumpController.ProcessScrollInput | src/main/java/com/moremod/experience/ExperiencePumpController.java:154-173 | no scroll keeps the amount; scrolling up adds a tenth of it (at least 1) and always increases it; scrolling down subtracts that step but never goes below 1, and lowers any amount above 1 |
| PumpController.ConvertLevelToXp | src/main/java/com/moremod/experience/ExperiencePumpController.java:348-361 | 0 for a level of 0 or less; otherwise the total XP of the whole level reached, with levels above 21863 treated as 21863, so the result fits in an int |
| PumpController.ConvertLevelToXpMonotone | src/main/java/com/moremod/experience/ExperiencePumpController.java:348-361 | a higher level never converts to less XP |
| PumpController.ConvertLevelToXpAsWritten | src/main/java/com/moremod/experience/ExperiencePumpController.java:348-361 | 0 for a level of 0 or less; otherwise always an int, the wrapped total of the capped whole level |
| PumpController.ConvertLevelToXpAsWrittenWraps | src/main/java/com/moremod/experience/ExperiencePumpController.java:353-360 | below level 15466 the as-written result is the exact total; at 15466 it is negative, and every level from 21863 up (the cap) gives -75705 |
| PumpController.ConvertLevelToXpIgnoresFraction | src/main/java/com/moremod/experience/ExperiencePumpController.java:348-361 | a fractional level converts like its whole part |
| PumpController.ConvertIntegerLevelToXp | src/main/java/com/rsring/experience/ExperiencePumpController.java:357-382 | on whole levels: 0 for 0 or less, the level's total XP up to 21863, the total of 21863 above that, agreeing with the real-valued conversion |
| PumpController.CalculateLevelBasedExtraction | src/main/java/com/moremod/experience/ExperiencePumpController.java:587-606 | never negative; 0 for a null player or a negative target; otherwise positive exactly when the player has more than the target level's total, and then what is left after extraction is exactly that total |
| PumpController.IsTankManagedByController | src/main/java/com/moremod/experience/ExperiencePumpController.java:456-471 | a tank is managed exactly when it is a pump item with a capability whose mode is not OFF and the controller is enabled in the configuration |
| PumpController.ExtractExperienceFromTanks | src/main/java/com/moremod/experience/ExperiencePumpController.java:206-252 | the tanks are drained fullest first (a stable sort that is a permutation ordered by stored XP), and the player receives the smaller of the amount and all stored XP, nothing for a non-positive amount |
| PumpController.InjectExperienceToTanks | src/main/java/com/moremod/experience/ExperiencePumpController.java:262-324 | the amount is capped by the player's XP; nothing moves when that is not positive; otherwise the tanks are filled in ascending free space (a stable permutation) and the player loses the smaller of that amount and the total free space |
| PumpController.InjectExperienceInOrder | src/main/java/com/rsring/experience/ExperiencePumpController.java:265-332 | the same filling over a given fill order: the player loses the smaller of the capped amount and the total free space, never more than their XP |
| PumpController.PerformExperienceOperation | src/main/java/com/moremod/experience/ExperiencePumpController.java:183-196 | nothing for a null player or a non-positive amount; extraction moves the smaller of the amount and all stored XP; injection moves the smaller of the amount, the player's XP and the free space; never more than the amount |
| PumpController.PerformExperienceOperationInOrder | src/main/java/com/rsring/experience/ExperiencePumpController.java:186-199 | as above, with the injection order given |
| RsringItemPump.GetDataFromNbt | src/main/java/com/rsring/item/ItemExperiencePump.java:51-55 | the pump data compound is found exactly for a non-empty stack whose tag has the data key, and is that key's compound |
| RsringItemPump.GetXpStoredFromNbt | src/main/java/com/rsring/item/ItemExperiencePump.java:58-62 | 0 without data, otherwise the data's stored XP |
| RsringItemPump.GetCapacityLevelsFromNbt | src/main/java/com/rsring/item/ItemExperiencePump.java:65-69 | the default 1 level without data or without the key, otherwise the stored level count |
| RsringItemPump.SpecialCapacity | src/main/java/com/rsring/item/ItemExperiencePump.java:72-98 | exactly the four special tanks have a fixed capacity (30970, 1045970, 4339720, 17677220 XP) |
| RsringItemPump.GetMaxXpFromNbt | src/main/java/com/rsring/item/ItemExperiencePump.java:72-98 | 1000 for a null stack, the fixed capacity of a special tank, otherwise the shift formula on the unclamped level count, which for 1..54 levels is the intended capped capacity |
| RsringItemPump.MissingDataDefaults | src/main/java/com/rsring/item/ItemExperiencePump.java:51-98 | without pump data a stack reads as 0 XP and 1 level, and a basic pump as 1000 capacity |
| RsringItemPump.FillLevel | src/main/java/com/rsring/item/ItemExperiencePump.java:771-779 | the texture level is EMPTY exactly when stored or capacity is not positive; otherwise a quarter below 30 percent, half below 60, three quarters below 90, full from 90 percent |
| RsringItemPump.FillLevelMonotone | src/main/java/com/rsring/item/ItemExperiencePump.java:771-779 | more stored XP never shows a lower fill level |
| RsringItemPump.GetXpFillLevel | src/main/java/com/rsring/item/ItemExperiencePump.java:741-780 | EMPTY for a null or empty stack; the NBT values when the stack has pump data; otherwise the capability's values, or EMPTY without a capability |
| RsringItemPump.OverflowBottles | src/main/java/com/rsring/item/ItemExperiencePump.java:419-449 | no bottles unless overflow is enabled and the amount overfills the tank; then one bottle per whole bottle's worth of the overflow, with less than a bottle's worth left over |
| RsringItemPump.StoreExtractedXp | src/main/java/com/rsring/item/ItemExperiencePump.java:419-449 | the tank keeps the smaller of stored plus amount and its capacity, nothing changes for a non-positive amount, the overflow bottles are returned and the tank stays valid |
| RsringItemPump.PumpExperienceBetweenPlayerAndTank | src/main/java/com/rsring/item/ItemExperiencePump.java:452-485 | a managed tank or mode OFF moves nothing; FROM_PLAYER moves the player's XP above the retain level's total into the tank up to its room and never takes the player below that total; TO_PLAYER gives up to max(1, rate) XP toward that total, as far as the tank holds it, never beyond it; the tank changes by exactly what the player gains or loses |
| RsringItemPump.TotalUpdate | src/main/java/com/rsring/item/ItemExperiencePump.java:539-646 | replacing one entity changes the total of a value by the difference of the old and new values |
| RsringItemPump.ExtractXpFromOrbs | src/main/java/com/rsring/item/ItemExperiencePump.java:539-568 | the orbs and the XP returned are exactly those of OrbsPass: the orbs visited in order, each live orb giving the smaller of the budget left, its XP and the free space, until the budget is reached |
| RsringItemPump.OrbsPassTotal | src/main/java/com/rsring/item/ItemExperiencePump.java:539-568 | the pass is greedy: it extracts the smaller of the budget and what all live orbs can give, each capped by the free space |
| RsringItemPump.OrbsPassSettled | src/main/java/com/rsring/item/ItemExperiencePump.java:546-549 | once the budget is reached the orbs not yet visited stay as they are (the loop's break) |
| RsringItemPump.OrbsPassDrains | src/main/java/com/rsring/item/ItemExperiencePump.java:539-568 | the XP extracted lies in 0..maxExtract, is 0 with no free space, and is exactly the XP the orbs lose; each orb is untouched or loses at most the free space and dies when emptied |
| RsringItemPump.BottleYield | src/main/java/com/rsring/item/ItemExperiencePump.java:571-623 | from a stack of bottles the pump gains the smaller of the stack's worth and the free space, using the fewest bottles that cover it (at least 1, at most the stack), and uses the whole stack unless the free space ran out |
| RsringItemPump.BottleYieldFacts | src/main/java/com/rsring/item/ItemExperiencePump.java:596-610 | the division facts the bottle yield rests on |
| RsringItemPump.ExtractXpFromBottleItems | src/main/java/com/rsring/item/ItemExperiencePump.java:571-623 | the entities and the XP returned are exactly those of BottlesPass: each live bottle stack in order converted by BottleYield, shrunk by the bottles used and killed when empty, until the running total reaches the budget |
| RsringItemPump.BottlesPassAll | src/main/java/com/rsring/item/ItemExperiencePump.java:571-623 | a pass that ends below the budget has converted every live bottle stack by its full BottleYield; the XP gained never shrinks along the pass |
| RsringItemPump.BottlesPassSettled | src/main/java/com/rsring/item/ItemExperiencePump.java:578-594 | once the budget is used up (or the tank has no room) the entities not yet visited stay as they are |
| RsringItemPump.BottlesPassDrains | src/main/java/com/rsring/item/ItemExperiencePump.java:571-623 | nothing changes once the budget is used up or the tank is full; otherwise the XP gained is never more than the bottles consumed are worth, stays below budget plus free space, and each stack is untouched or drained by BottleYield |
| RsringItemPump.WorthAdds | src/main/java/com/rsring/item/ItemExperiencePump.java:596-617 | the bound "XP gained is at most the worth of the bottles used" adds up over stacks |
| RsringItemPump.ExtractXpFromThrownBottles | src/main/java/com/rsring/item/ItemExperiencePump.java:626-646 | the bottles and the XP returned are exactly those of ThrownPass: each live thrown bottle in order absorbed whole for at most one bottle's worth and the free space, as long as the budget allows |
| RsringItemPump.ThrownPassTotal | src/main/java/com/rsring/item/ItemExperiencePump.java:626-646 | the pass is greedy: it gains the smaller of the budget left and what all live thrown bottles can give |
| RsringItemPump.ThrownPassSettled | src/main/java/com/rsring/item/ItemExperiencePump.java:632-633 | once the budget is reached the bottles not yet visited stay as they are |
| RsringItemPump.ThrownPassAbsorbs | src/main/java/com/rsring/item/ItemExperiencePump.java:626-646 | each thrown bottle absorbed is killed and gives 1..xpPerBottle XP, the total stays within the remaining budget, none is revived, and nothing happens when the tank has no room |
| RsringItemPump.ExtractXpFromSurroundings | src/main/java/com/rsring/item/ItemExperiencePump.java:512-536 | a full tank leaves everything unchanged and returns 0; otherwise the result is SurroundingsPass with budget rate * max(1, interval) and the tank's free space |
| RsringItemPump.ExtractWithRoom | src/main/java/com/rsring/item/ItemExperiencePump.java:525-535 | runs the orb pass, then the bottle-stack pass and the thrown-bottle pass only while bottle extraction is enabled and the running total is below the budget, exactly as SurroundingsPass |
| RsringItemPump.SurroundingsPassOverfills | src/main/java/com/rsring/item/ItemExperiencePump.java:539-567 | with 10 XP of room and two live 10-XP orbs the pass drains both for 20 XP; storeExtractedXp keeps only 10 and spawns no overflow bottle |
| RsringItemPump.SurroundingsPassLive | src/main/java/com/rsring/item/ItemExperiencePump.java:512-646 | with the free space re-read after every entity, the total is non-negative and never exceeds the tank's free space, and bottles are untouched when bottle extraction is disabled |
| RsringItemPump.SurroundingsPassLiveFits | src/main/java/com/rsring/item/ItemExperiencePump.java:419-444 | what the corrected passes extract always fits the tank, so storeExtractedXp spawns no overflow bottle and loses nothing |
| RsringItemPump.SurroundingsPassLiveTakesRoom | src/main/java/com/rsring/item/ItemExperiencePump.java:539-567 | on the example above the corrected pass takes 10 XP from the first orb and leaves the second |
| RsringItemPump.SurroundingsPassBounds | src/main/java/com/rsring/item/ItemExperiencePump.java:512-536 | the total is non-negative, at least the XP the orbs lost, 0 or below budget plus free space, and bottles are untouched when bottle extraction is disabled |
| PacketSyncRingFilter.CopiedSlots | src/main/java/com/rsring/network/PacketSyncRingFilter.java:22-27 | the message has nine slots: the first nine given ones are copied, the rest (or all, for a null array) stay null |
| PacketSyncRingFilter.ReceivedPrefix | src/main/java/com/rsring/network/PacketSyncRingFilter.java:32-36 | the first k slots as the receiver stores them: a null or empty slot arrives as "" |
| PacketSyncRingFilter.Received | src/main/java/com/rsring/network/PacketSyncRingFilter.java:32-36 | every slot as the receiver stores it, a null or empty slot as "" |
| PacketSyncRingFilter.SlotBytes | src/main/java/com/rsring/network/PacketSyncRingFilter.java:43-49 | a null or empty slot is written as a false flag; any other as a true flag followed by its length-prefixed UTF-8 text, which fails only when the text is too long |
| PacketSyncRingFilter.ReadSlotsFrom | src/main/java/com/rsring/network/PacketSyncRingFilter.java:32-36 | reading n slots gives exactly n strings |
| PacketSyncRingFilter.Decode | src/main/java/com/rsring/network/PacketSyncRingFilter.java:30-37 | a decoded message always has nine slots |
| PacketSyncRingFilter.ReadSlotOf | src/main/java/com/rsring/network/PacketSyncRingFilter.java:33-34 | reading one slot back from its bytes gives the slot's received value and leaves the rest |
| PacketSyncRingFilter.ReadSlotsOf | src/main/java/com/rsring/network/PacketSyncRingFilter.java:32-36 | reading k slots back from the bytes of the first k gives their received values and leaves the rest |
| PacketSyncRingFilter.DecodeEncode | src/main/java/com/rsring/network/PacketSyncRingFilter.java:30-51 | fromBytes on what toBytes wrote gives the sent mode and the nine slots as received, and leaves the rest |
| PacketSyncRingFilter.SlotsBytesDefined | src/main/java/com/rsring/network/PacketSyncRingFilter.java:42-50 | writing the slots fails only when some slot's text is too long for its length prefix |
| PacketSyncRingFilter.Message.constructor | src/main/java/com/rsring/network/PacketSyncRingFilter.java:22-27 | the message keeps the mode and copies the given slots |
| PacketSyncRingFilter.Message.Empty | src/main/java/com/rsring/network/PacketSyncRingFilter.java:20 | the no-argument message has mode false and nine null slots |
| PacketSyncRingFilter.Message.ToBytes | src/main/java/com/rsring/network/PacketSyncRingFilter.java:39-51 | the buffer gains exactly the encoding of the mode and the nine slots, when every slot can be written |
| PacketSyncRingFilter.Message.FromBytes | src/main/java/com/rsring/network/PacketSyncRingFilter.java:29-37 | the read succeeds exactly when the readable bytes decode; then the message holds the decoded mode and slots and the buffer has consumed them |
| PacketSyncRingFilter.ReadSlots | src/main/java/com/rsring/network/PacketSyncRingFilter.java:32-36 | the loop reads n slots exactly when the bytes hold them, storing each and consuming their bytes |
| PacketSyncRingFilter.ChainReads | src/main/java/com/rsring/network/PacketSyncRingFilter.java:32-36 | slots read one after another, each from what the previous left, amount to reading them all at once |
| PacketSyncRingFilter.ChainBreaks | src/main/java/com/rsring/network/PacketSyncRingFilter.java:32-36 | a slot that fails to read makes reading all n slots fail |
| PacketSyncRingFilter.SlotsUndefined | src/main/java/com/rsring/network/PacketSyncRingFilter.java:32-36 | if k slots cannot be read, neither can more |
| PacketSyncRingFilter.ReadSlot | src/main/java/com/rsring/network/PacketSyncRingFilter.java:33-35 | one slot is read from the buffer exactly as the byte-level reader says, consuming its bytes |
| PacketSyncRingFilter.WriteSlots | src/main/java/com/rsring/network/PacketSyncRingFilter.java:42-50 | the loop appends every slot's bytes in order, failing exactly when some slot cannot be written |
| PacketSyncRingFilter.WriteSlot | src/main/java/com/rsring/network/PacketSyncRingFilter.java:43-49 | one slot's bytes are appended, failing exactly when its text is too long |
| PacketSyncRingFilter.SelectRing | src/main/java/com/rsring/network/PacketSyncRingFilter.java:59-67 | the ring found by the scan wins, else the main hand's absorb ring, else the off hand's; nothing is selected unless that stack is a non-empty absorb ring |
| PacketSyncRingFilter.AppliedSlots | src/main/java/com/rsring/network/PacketSyncRingFilter.java:74-76 | applying filter slots changes only the ring's blacklist entries |
| PacketSyncRingFilter.AppliedSlotsRead | src/main/java/com/rsring/network/PacketSyncRingFilter.java:74-76 | with custom filters allowed, each applied slot reads back the value sent, "" for null |
| PacketSyncRingFilter.Handle | src/main/java/com/rsring/network/PacketSyncRingFilter.java:55-87 | nothing changes without a ring, without a capability, or when custom filters are locked; otherwise the ring takes the sent mode and every filter slot reads back the value sent |
| PacketPumpAction.HandOrdinal | src/main/java/com/rsring/network/PacketPumpAction.java:39 | the main hand is sent as 0 and any other hand as 1, and reading the ordinal back gives the same hand |
| PacketPumpAction.HandOf | src/main/java/com/rsring/network/PacketPumpAction.java:66-86 | ordinal 0 stands for the main hand and every other ordinal for the off hand |
| PacketPumpAction.Encode | src/main/java/com/rsring/network/PacketPumpAction.java:58-62 | a message always travels as six bytes |
| PacketPumpAction.Decode | src/main/java/com/rsring/network/PacketPumpAction.java:51-55 | decoding succeeds exactly when six bytes are readable, and consumes exactly those six |
| PacketPumpAction.DecodeEncode | src/main/java/com/rsring/network/PacketPumpAction.java:51-62 | decoding what was encoded gives the hand and action as signed bytes and the value as a 32-bit int, hence exactly the fields sent when they fit |
| PacketPumpAction.Message.Empty | src/main/java/com/rsring/network/PacketPumpAction.java:36 | the no-argument message has all three fields 0 |
| PacketPumpAction.Message.WithoutValue | src/main/java/com/rsring/network/PacketPumpAction.java:38-42 | the message carries the hand's ordinal, the action and value 0 |
| PacketPumpAction.Message.constructor | src/main/java/com/rsring/network/PacketPumpAction.java:44-48 | the message carries the hand's ordinal, the action and the value |
| PacketPumpAction.Message.ToBytes | src/main/java/com/rsring/network/PacketPumpAction.java:58-62 | the buffer gains exactly the six-byte encoding of the fields |
| PacketPumpAction.Message.FromBytes | src/main/java/com/rsring/network/PacketPumpAction.java:51-55 | the read succeeds exactly when six bytes are readable; then the fields are the decoded ones and the buffer has consumed them |
| PumpActionPriority.Kept | src/main/java/com/rsring/network/PacketPumpAction.java:91-107 | a filter pass keeps only entries of its group, never more than the list has |
| PumpActionPriority.AppendKept | src/main/java/com/rsring/network/PacketPumpAction.java:91-98 | one filter loop appends exactly the list's entries of the group, in order |
| PumpActionPriority.SplitManaged | src/main/java/com/rsring/network/PacketPumpAction.java:112-118 | the loop splits the list into its managed and unmanaged entries, each in order |
| PumpActionPriority.Prioritize | src/main/java/com/rsring/network/PacketPumpAction.java:89-122 | the handler's loops build exactly the prioritized list |
| PumpActionPriority.KeptAppend | src/main/java/com/rsring/network/PacketPumpAction.java:89-122 | filtering a concatenation is the concatenation of the filtered parts |
| PumpActionPriority.KeptSplit | src/main/java/com/rsring/network/PacketPumpAction.java:89-122 | two disjoint filters of a list together take no entry more often than the list has it |
| PumpActionPriority.KeptPartition | src/main/java/com/rsring/network/PacketPumpAction.java:89-122 | two filters that split every entry one way or the other together give back a permutation of the list |
| PumpActionPriority.KeptAll | src/main/java/com/rsring/network/PacketPumpAction.java:89-122 | filtering a list whose entries all belong to the group gives the list |
| PumpActionPriority.KeptNone | src/main/java/com/rsring/network/PacketPumpAction.java:89-122 | filtering a list with no entry of the group gives nothing |
| PumpActionPriority.GroupFirst | src/main/java/com/rsring/network/PacketPumpAction.java:120-122 | in a block of group entries followed by non-group entries, every group entry precedes every other |
| PumpActionPriority.FirstPassPermutation | src/main/java/com/rsring/network/PacketPumpAction.java:89-110 | the first pass never adds entries; it is a permutation for the other actions and whenever no tank records negative XP, and for store and take it drops exactly the negative ones |
| PumpActionPriority.PrioritizedPermutation | src/main/java/com/rsring/network/PacketPumpAction.java:89-122 | the prioritized list never adds entries and is a permutation unless a tank records negative XP for a store or take action |
| PumpActionPriority.ManagedFirst | src/main/java/com/rsring/network/PacketPumpAction.java:112-122 | every managed tank comes before every unmanaged one |
| PumpActionPriority.PrioritizedStable | src/main/java/com/rsring/network/PacketPumpAction.java:89-122 | moving managed tanks ahead keeps the first pass's order within each block, and the first pass keeps the list's order within the empty and within the filled tanks |
| PumpActionPriority.BlockOrder | src/main/java/com/rsring/network/PacketPumpAction.java:89-122 | filtering keeps a group-first block structure |
| PumpActionPriority.PreferenceWithinBlocks | src/main/java/com/rsring/network/PacketPumpAction.java:89-122 | within the managed and within the unmanaged block, storing visits empty tanks first and taking visits filled tanks first |
| TankDistribution.SumOfAppend | src/main/java/com/moremod/experience/ExperiencePumpController.java:217-245 | the running total over a list of tanks is additive over concatenation |
| TankDistribution.WithKey | src/main/java/com/moremod/experience/ExperiencePumpController.java:211-215 | the tanks sharing one sort key form a subsequence no longer than the list |
| TankDistribution.WithKeyAppend | src/main/java/com/moremod/experience/ExperiencePumpController.java:211-215 | selecting the tanks of one key distributes over concatenation |
| TankDistribution.Insert | src/main/java/com/moremod/experience/ExperiencePumpController.java:211-215 | inserting one tank into the sorted prefix grows it by exactly one |
| TankDistribution.InsertElements | src/main/java/com/moremod/experience/ExperiencePumpController.java:211-215 | insertion adds exactly the new tank to the multiset of tanks |
| TankDistribution.InsertSorted | src/main/java/com/moremod/experience/ExperiencePumpController.java:211-215 | insertion keeps a list sorted by the key |
| TankDistribution.SortBy | src/main/java/com/moremod/experience/ExperiencePumpController.java:211-215 | the stable sort used for the tank list keeps its length |
| TankDistribution.SortByPermutes | src/main/java/com/moremod/experience/ExperiencePumpController.java:211-215 | the sorted tank list is a permutation of the scanned tanks and is ordered by the key |
| TankDistribution.InsertStable | src/main/java/com/moremod/experience/ExperiencePumpController.java:211-215 | insertion keeps tanks with equal keys in their original relative order |
| TankDistribution.SortByStable | src/main/java/com/moremod/experience/ExperiencePumpController.java:211-215 | List.sort is stable: among tanks with equal key the scan order is kept |
| TankDistribution.SumOfInsert | src/main/java/com/moremod/experience/ExperiencePumpController.java:211-215 | insertion adds the new tank's value to any total |
| TankDistribution.SumOfSortBy | src/main/java/com/moremod/experience/ExperiencePumpController.java:211-215 | sorting the tanks leaves every total (stored, free space) unchanged |
| TankDistribution.TakeFrom | src/main/java/com/moremod/experience/ExperiencePumpController.java:222-231 | a tank gives min(remaining, stored) when both are positive and nothing otherwise |
| TankDistribution.PutInto | src/main/java/com/moremod/experience/ExperiencePumpController.java:289-301 | a tank takes min(remaining, free space) when both are positive and nothing otherwise |
| TankDistribution.Drained | src/main/java/com/moremod/experience/ExperiencePumpController.java:221-248 | draining in order yields one updated tank per input tank |
| TankDistribution.DrainedPerTank | src/main/java/com/moremod/experience/ExperiencePumpController.java:226-239 | draining changes only each tank's stored amount, and only ever lowers it, never below zero |
| TankDistribution.DrainedNothing | src/main/java/com/moremod/experience/ExperiencePumpController.java:222-224 | a non-positive request leaves every tank untouched |
| TankDistribution.DrainedTotal | src/main/java/com/moremod/experience/ExperiencePumpController.java:217-251 | the XP removed from the tanks is min(request, total positive stored XP), or zero for a non-positive request |
| TankDistribution.DrainedGreedy | src/main/java/com/moremod/experience/ExperiencePumpController.java:220-248 | a later tank is drawn from only after every earlier non-empty tank is emptied |
| TankDistribution.Filled | src/main/java/com/moremod/experience/ExperiencePumpController.java:288-315 | filling in order yields one updated tank per input tank |
| TankDistribution.FilledPerTank | src/main/java/com/moremod/experience/ExperiencePumpController.java:293-309 | filling changes only each tank's stored amount, and only raises it, never above its capacity |
| TankDistribution.FilledNothing | src/main/java/com/moremod/experience/ExperiencePumpController.java:269-271 | a non-positive amount leaves every tank untouched |
| TankDistribution.FilledTotal | src/main/java/com/moremod/experience/ExperiencePumpController.java:284-323 | the XP added to the tanks is min(amount, total free space), or zero for a non-positive amount |
| TankDistribution.FilledGreedy | src/main/java/com/moremod/experience/ExperiencePumpController.java:287-315 | a later tank receives XP only after every earlier tank with free space is full |
| TankDistribution.DrainInOrder | src/main/java/com/moremod/experience/ExperiencePumpController.java:217-251 | the extraction loop computes exactly the drained tank list, and its total is min(request, stored XP) |
| TankDistribution.FillInOrder | src/main/java/com/moremod/experience/ExperiencePumpController.java:284-323 | the injection loop computes exactly the filled tank list, and its total is min(amount, free space) |
| PumpActionTransfer.StoredUpdate | src/main/java/com/rsring/network/PacketPumpAction.java:158-287 | replacing one tank's state changes the XP held by all tanks by exactly that tank's difference |
| PumpActionTransfer.Removal | src/main/java/com/rsring/util/XpHelper.java:147-161 | removeExperienceFromPlayer returns 0 for a non-positive amount, never more than the player has, and the full amount when the player has it |
| PumpActionTransfer.AfterRemoval | src/main/java/com/rsring/util/XpHelper.java:147-161 | the player's total drops by exactly what was removed and stays non-negative |
| PumpActionTransfer.AfterAddition | src/main/java/com/rsring/util/XpHelper.java:170-180 | addExperienceToPlayer adds a positive amount and ignores the rest |
| PumpActionTransfer.DrainStep | src/main/java/com/rsring/network/PacketPumpAction.java:209-228 | one TAKE_ONE pass keeps the number of tanks and every capability's invariant |
| PumpActionTransfer.DrainRun | src/main/java/com/rsring/network/PacketPumpAction.java:209-228 | the TAKE_ONE loop keeps the number of tanks and every capability's invariant |
| PumpActionTransfer.DrainStepConserves | src/main/java/com/rsring/network/PacketPumpAction.java:216-224 | one TAKE_ONE pass lowers the tanks by exactly the XP it hands to the player |
| PumpActionTransfer.DrainStepBounds | src/main/java/com/rsring/network/PacketPumpAction.java:210-223 | the outstanding need only shrinks, never below zero, and a pass with no need left does nothing |
| PumpActionTransfer.DrainStepAt | src/main/java/com/rsring/network/PacketPumpAction.java:213-226 | a pass touches only its own tank, only lowers it, and empties it unless the need is met |
| PumpActionTransfer.DrainConserves | src/main/java/com/rsring/network/PacketPumpAction.java:196-230 | over the whole TAKE_ONE loop the tanks lose exactly what the player gains |
| PumpActionTransfer.DrainBounded | src/main/java/com/rsring/network/PacketPumpAction.java:196-230 | the player gains between 0 and the XP of the levels asked for; a non-positive need changes nothing |
| PumpActionTransfer.DrainLowers | src/main/java/com/rsring/network/PacketPumpAction.java:209-228 | TAKE_ONE only lowers tanks, and leaves unvisited tanks untouched |
| PumpActionTransfer.DrainExhausts | src/main/java/com/rsring/network/PacketPumpAction.java:209-228 | if the need is not met, every visited tank with the capability is empty |
| PumpActionTransfer.DrainSettled | src/main/java/com/rsring/network/PacketPumpAction.java:210 | once the need is met, later passes change nothing |
| PumpActionTransfer.FillStep | src/main/java/com/rsring/network/PacketPumpAction.java:266-285 | one STORE_ONE pass keeps the number of tanks and every capability's invariant |
| PumpActionTransfer.FillRun | src/main/java/com/rsring/network/PacketPumpAction.java:266-285 | the STORE_ONE loop keeps the number of tanks and every capability's invariant |
| PumpActionTransfer.FillStepConserves | src/main/java/com/rsring/network/PacketPumpAction.java:273-281 | one STORE_ONE pass raises the tanks by exactly the XP it takes from the player |
| PumpActionTransfer.FillStepBounds | src/main/java/com/rsring/network/PacketPumpAction.java:267-280 | the outstanding budget only shrinks, never below zero, and a pass with no budget left does nothing |
| PumpActionTransfer.FillStepAt | src/main/java/com/rsring/network/PacketPumpAction.java:270-283 | a pass touches only its own tank, only raises it, and fills it to capacity unless the budget runs out |
| PumpActionTransfer.FillConserves | src/main/java/com/rsring/network/PacketPumpAction.java:246-287 | over the whole loop the tanks gain exactly what the player loses |
| PumpActionTransfer.FillBounded | src/main/java/com/rsring/network/PacketPumpAction.java:246-287 | the player gives between 0 and the budget; a non-positive budget changes nothing |
| PumpActionTransfer.FillRaises | src/main/java/com/rsring/network/PacketPumpAction.java:266-285 | filling only raises tanks, and leaves unvisited tanks untouched |
| PumpActionTransfer.FillExhausts | src/main/java/com/rsring/network/PacketPumpAction.java:266-285 | if budget is left over, every visited tank with the capability is full |
| PumpActionTransfer.FillSettled | src/main/java/com/rsring/network/PacketPumpAction.java:267 | once the budget is spent, later passes change nothing |
| PumpActionTransfer.FillStepIsStoreAll | src/main/java/com/rsring/item/ItemExperiencePump.java:293-311 | storeAllExperience on one tank is the same step as a fill pass with the player's whole total as budget, so STORE_ALL is the fill loop |
| PumpActionTransfer.EmptyStep | src/main/java/com/rsring/item/ItemExperiencePump.java:314-332 | extractAllExperience keeps the number of tanks and every capability's invariant |
| PumpActionTransfer.EmptyRun | src/main/java/com/rsring/network/PacketPumpAction.java:182-194 | the TAKE_ALL loop keeps the number of tanks and every capability's invariant |
| PumpActionTransfer.EmptyRunEffect | src/main/java/com/rsring/network/PacketPumpAction.java:182-194 | TAKE_ALL empties exactly the visited tanks and changes nothing else |
| PumpActionTransfer.Pump | src/main/java/com/rsring/network/PacketPumpAction.java:340-362 | pumping changes only the tank's stored XP and keeps the tank valid and the player non-negative |
| PumpActionTransfer.PumpFacts | src/main/java/com/rsring/network/PacketPumpAction.java:340-362 | the pump conserves XP; OFF does nothing; FROM never takes the player below the retain level's total; TO gives at most 100 points and never above it |
| PumpActionTransfer.StepOf | src/main/java/com/rsring/network/PacketPumpAction.java:198 | the step is the message value when positive and 1 otherwise (the same rule at lines 144, 168, 171 and 248) |
| PumpActionTransfer.NextMode | src/main/java/com/rsring/network/PacketPumpAction.java:163 | the MODE button always moves a valid mode to a different valid mode |
| PumpActionTransfer.Adjusted | src/main/java/com/rsring/network/PacketPumpAction.java:161-176 | a settings button keeps the tank valid; only MODE (through the pump) touches the player's XP |
| PumpActionTransfer.SettingsStep | src/main/java/com/rsring/network/PacketPumpAction.java:158-179 | one settings pass keeps the number of tanks, every invariant and a non-negative player total |
| PumpActionTransfer.SettingsRun | src/main/java/com/rsring/network/PacketPumpAction.java:158-179 | the settings loop keeps the number of tanks, every invariant and a non-negative player total |
| PumpActionTransfer.Visits | src/main/java/com/rsring/network/PacketPumpAction.java:158 | a tank is visited at most as often as there are passes |
| PumpActionTransfer.VisitsListed | src/main/java/com/rsring/network/PacketPumpAction.java:158 | a tank is visited at least once exactly when the order lists it |
| PumpActionTransfer.SettingsStepFacts | src/main/java/com/rsring/network/PacketPumpAction.java:158-179 | a settings pass touches only its own tank and skips stacks without the capability |
| PumpActionTransfer.SettingsConserve | src/main/java/com/rsring/network/PacketPumpAction.java:158-179 | the settings loop conserves tank XP plus player XP, and leaves the player alone except for MODE |
| PumpActionTransfer.MendingFlipsPerVisit | src/main/java/com/rsring/network/PacketPumpAction.java:173-174 | MENDING flips each tank's mending flag once per visit and changes nothing else |
| PumpActionTransfer.ModeAdvancesPerVisit | src/main/java/com/rsring/network/PacketPumpAction.java:162-163 | MODE advances each tank's mode by the number of visits, modulo 3 |
| PumpActionTransfer.ModeStep | src/main/java/com/rsring/network/PacketPumpAction.java:162-163 | one MODE pass advances only its own tank's mode |
| PumpActionTransfer.ModeSum | src/main/java/com/rsring/network/PacketPumpAction.java:163 | advancing a mode once more adds one, modulo 3 |
| PumpActionTransfer.RetainDownStaysInRange | src/main/java/com/rsring/network/PacketPumpAction.java:170-171 | RETAIN_DOWN keeps every retain level between 0 and its old value and changes nothing else |
| PumpActionTransfer.ControllerNextMode | src/main/java/com/rsring/network/PacketPumpAction.java:140-141 | the controller's (mode + 1) % 3 uses Java's remainder, lies strictly between -3 and 3, and is NextMode on a valid mode |
| PumpActionTransfer.ControllerModeCycles | src/main/java/com/rsring/network/PacketPumpAction.java:140-141 | three MODE presses return a valid controller mode to where it started, and one press changes it |
| PumpActionTransfer.RetainLowered | src/main/java/com/rsring/network/PacketPumpAction.java:146-147 | RETAIN_DOWN never yields a negative retain level |
| PumpActionTransfer.RetainArithmetic | src/main/java/com/rsring/network/PacketPumpAction.java:143-147 | without overflow RETAIN_UP adds the step and RETAIN_DOWN subtracts it down to 0 |
| PumpActionTransfer.StoreTarget | src/main/java/com/rsring/network/PacketPumpAction.java:253 | the STORE_ONE target level is never negative |
| PumpActionTransfer.TakeNeedExact | src/main/java/com/rsring/network/PacketPumpAction.java:202-205 | without overflow the TAKE_ONE need is the XP between the current level and step levels higher, and is positive |
| PumpActionTransfer.StoreBudgetBounds | src/main/java/com/rsring/network/PacketPumpAction.java:252-262 | the STORE_ONE budget is at most the XP of the levels dropped and at most what the player has above the target; it is positive when the player has XP above the target |
| PumpActionTransfer.Effect | src/main/java/com/rsring/network/PacketPumpAction.java:128-291 | every button keeps the number of tanks and every capability's invariant |
| PumpActionTransfer.EffectConserves | src/main/java/com/rsring/network/PacketPumpAction.java:128-291 | whatever the button, XP only moves between the player and the tanks, and the player never ends below zero |
| PumpActionTransfer.StoredLowered | src/main/java/com/rsring/network/PacketPumpAction.java:182-194 | tanks that only lost XP hold no more than before |
| PumpActionTransfer.StoreBudgetAffordable | src/main/java/com/rsring/network/PacketPumpAction.java:258-262 | the player always has the STORE_ONE budget to give |
| PumpActionHandler.Player.SetTotal | src/main/java/com/rsring/util/XpHelper.java:132-138 | the player's total becomes the amount clamped at 0, at the level that total reaches |
| PumpActionHandler.Player.AddExperience | src/main/java/com/rsring/util/XpHelper.java:170-180 | the total grows by a positive amount, and a non-positive amount leaves the player as they were |
| PumpActionHandler.Player.RemoveExperience | src/main/java/com/rsring/util/XpHelper.java:147-161 | returns 0 for a non-positive amount, otherwise min(amount, total), and lowers the total by exactly that |
| PumpActionHandler.ExtractAllExperience | src/main/java/com/rsring/item/ItemExperiencePump.java:314-332 | a stack without the capability yields 0; otherwise the tank is emptied into the player, who gains exactly what it held |
| PumpActionHandler.StoreAllExperience | src/main/java/com/rsring/item/ItemExperiencePump.java:293-311 | a stack without the capability stores 0; otherwise the tank accepts as much of the player's total as fits, and the player loses exactly that |
| PumpActionHandler.PumpBetween | src/main/java/com/rsring/network/PacketPumpAction.java:340-362 | the tank and the player end as the pump function says, so XP is conserved and the retain level bounds hold |
| PumpActionHandler.DrainTank | src/main/java/com/rsring/network/PacketPumpAction.java:209-228 | one TAKE_ONE pass over a capability does what DrainStep says, and the player gains what the need shrinks by |
| PumpActionHandler.FillTank | src/main/java/com/rsring/network/PacketPumpAction.java:266-285 | one STORE_ONE pass over a capability does what FillStep says, and the player loses what the budget shrinks by |
| PumpActionHandler.EmptyTank | src/main/java/com/rsring/network/PacketPumpAction.java:186-192 | one TAKE_ALL pass empties the tank into the player |
| PumpActionHandler.StoreAllTank | src/main/java/com/rsring/network/PacketPumpAction.java:236-242 | one STORE_ALL pass does what FillStep says with the player's whole total as budget |
| PumpActionHandler.SettingsTank | src/main/java/com/rsring/network/PacketPumpAction.java:158-178 | one settings pass over a capability does what SettingsStep says to the tanks and to the player |
| PumpActionHandler.UpdateOneTank | src/main/java/com/rsring/network/PacketPumpAction.java:161-176 | one settings button on one capability does what Adjusted says |
| PumpActionHandler.DrainTanks | src/main/java/com/rsring/network/PacketPumpAction.java:209-228 | the TAKE_ONE loop leaves the capabilities as DrainRun says and gives the player what the tanks lost |
| PumpActionHandler.TakeLevels | src/main/java/com/rsring/network/PacketPumpAction.java:196-230 | TAKE_ONE drains, in order, the XP between the player's level and step levels higher |
| PumpActionHandler.FillTanks | src/main/java/com/rsring/network/PacketPumpAction.java:266-285 | the STORE_ONE loop leaves the capabilities as FillRun says and takes from the player what the tanks gained |
| PumpActionHandler.StoreLevels | src/main/java/com/rsring/network/PacketPumpAction.java:246-287 | STORE_ONE fills, in order, the XP of the levels dropped, cut to what the player has above the target level |
| PumpActionHandler.TakeAll | src/main/java/com/rsring/network/PacketPumpAction.java:182-194 | TAKE_ALL empties every listed tank and the player gains the XP the tanks lost |
| PumpActionHandler.StoreAll | src/main/java/com/rsring/network/PacketPumpAction.java:232-244 | STORE_ALL fills the tanks in order from the player's whole total, and the player keeps what did not fit |
| PumpActionHandler.UpdateTankSettings | src/main/java/com/rsring/network/PacketPumpAction.java:158-179 | a settings button leaves the capabilities and the player as SettingsRun says |
| PumpActionHandler.ControllerAfter | src/main/java/com/rsring/network/PacketPumpAction.java:139-152 | the controller's mode, retain level and mending flag after a settings button: MODE cycles the mode, RETAIN_UP and RETAIN_DOWN move the retain level by the step (not below 0 going down), MENDING flips the flag, and everything else is kept |
| PumpActionHandler.UpdateController | src/main/java/com/rsring/network/PacketPumpAction.java:134-156 | the held controller's NBT ends as ControllerAfter says |
| PumpActionHandler.OrderIndexes | src/main/java/com/rsring/network/PacketPumpAction.java:89-122 | the prioritised order lists only stacks that were found |
| PumpActionHandler.Handled | src/main/java/com/rsring/network/PacketPumpAction.java:88-291 | the handler conserves tank XP plus player XP and never leaves the player below zero |
| PumpActionHandler.RunAction | src/main/java/com/rsring/network/PacketPumpAction.java:128-291 | the button's loop leaves the capabilities and the player's total as Effect says |
| PumpActionHandler.Handle | src/main/java/com/rsring/network/PacketPumpAction.java:66-298 | without a controller in the chosen hand nothing changes; with no tanks only MENDING sends the message; otherwise the tanks and the player end as Handled says, and the controller is updated only for settings buttons |
| AbsorbRing.StepEnergyBounds | src/main/java/com/rsring/item/ItemAbsorbRing.java:402-406 | one absorbed stack never raises the stored energy and never takes it below zero |
| ExperienceCalculator.LoopNeverReachesLongMax | ExperienceCalculator.java:55-58 | starting from an even capacity, the doubling search never finds a level for Long.MAX_VALUE, however long it runs |
| PumpCapacity.ExactCapacityRange | src/main/java/com/moremod/capability/ExperiencePumpCapability.java:55-67 | 1000 * 2^(levels-1) fits an int exactly up to 22 levels and exceeds Integer.MAX_VALUE beyond |
| PumpCapacity.ShiftedCapacityAt55 | src/main/java/com/moremod/capability/ExperiencePumpCapability.java:59-63 | at 55 levels the long product has wrapped so that the int capacity is 0 |

## Left out

- Floating-point code:
  - `XpHelper.getLevelsForExperience` and moremod's `formatExperience` (`%.1f`).
  - The fractional-level part of rsring's `convertLevelToXP`. Only whole levels are modelled (`PumpController.ConvertIntegerLevelToXp`).
  - `ExperienceCalculator.calculateTotalXP`, the HSV colour helpers and moremod's `PacketPumpAction.levelToTotalXp`.
  - The experience bar fraction: the player is an integer total (`PumpActionHandler.Player` keeps the points earned into the level as an integer).
  - rsring's injection comparator sorts by fill ratio as a double. `PumpController.InjectExperienceInOrder` takes the resulting order as a parameter.
- Values that come from configuration or from the game are parameters:
  - configuration values such as the XP per bottle and the energy cost per item;
  - the number of items the Refined Storage network accepts in an absorb pass;
  - the entities found in the world, as arrays;
  - fresh random UUIDs;
  - whether the held item is a controller, and whether a stack is a pump or a ring.
- Mending (`mendSingleItem`) and `formatFe` are not modelled: they repair items and format energy values, outside the XP and filter logic.
- No I/O is modelled:
  - Packet sending and syncing back to clients: `PacketPumpData`, `syncTankBack`, `syncCapabilityToStack`.
  - Chat messages: only whether the "no tanks" message is sent is modelled.
  - Logging.
  - `addScheduledTask`: the scheduled body runs inline.
  - Forge event-bus posting: events are returned instead.
- The snapshot diff walks a `HashMap`, so the order of its events is unspecified. `InventoryChangeHandler.CompareAndFireEvents` states the events as a set.
- GUI, rendering, input, registration, proxies, reflection-based integrations (Baubles, Refined Storage, ring detection services) and recipe registration are not part of this model.
- Duplicate classes are not modelled again:
  - rsring's `InventoryChangeEvent` and `InventoryChangeHandler`;
  - moremod's chest ring filter, controller item and absorb ring;
  - the rsring copies of `ExperienceTankData` and `TankScanResult`, each modelled once for both trees.
- Java `int` overflow is modelled only where the code relies on it or where it decides a branch:
  - the capacity shift;
  - the `long` doubling in `ExperienceCalculator`;
  - the retain-level and level arithmetic of the pump-action handler;
  - the tick counter;
  - the absorb energy product;
  - the packet's `int` field.
- Netty's `IndexOutOfBoundsException` on a short buffer is modelled as a `None` read.
- PumpController.ProcessScrollInput: `baseAmount + step` is not wrapped to 32 bits, so the contract does not hold the way the source behaves for amounts near `Integer.MAX_VALUE`.
- PumpActionTransfer.AfterAddition: the player's new total is not wrapped to 32 bits.
- PumpActionHandler.Player.AddExperience: the same unwrapped addition as `AfterAddition`.
- TankScan.CalculateTotal: the sums are taken in unbounded integers, so an `int` accumulator wrapping past `Integer.MAX_VALUE` is not modelled.
- XpHelper.ExperienceForLevel: it is computed without wrap-around, and the rest of the model uses this exact total. Java's `int` formula agrees with it only up to level 15465 (`XpHelper.ExperienceAsWrittenAgrees`) and wraps from level 15466 on; see Findings.
- XpHelper.ExperienceFitsIntUpTo21863: it speaks of the exact total. The source's wrapped total is already negative at level 15466; see Findings.
- XpHelper.LevelForExperience: it searches over the exact totals, so it ends for every input. The loop as written agrees with it below 1073737170 XP (`XpHelper.LevelSearchAsWrittenAgrees`); see Findings.
- PumpController.ConvertLevelToXp: it uses the exact total. As written, levels from 15466 up, and every level capped to 21863, give a negative value; see Findings.
- XpHelper.FormatExperience: it prints the floor level (`XpHelper.FloorLevel`). formatExperience as written calls the wrapping level search, which misses level 15465 from 1073737170 XP on and never returns for Integer.MAX_VALUE; a tank can hold that much. See Findings (`XpHelper.LevelSearchAsWrittenMissesFloor`).
- PumpActionHandler.Player.SetTotal: it sets the floor level of the new total. setPlayerTotalExperience and addExperienceToPlayer as written call the same wrapping search, so from 1073737170 XP they set a level other than 15465, and at Integer.MAX_VALUE they do not return. See Findings (`XpHelper.LevelSearchAsWrittenMissesFloor`).
- PumpController.ConvertLevelToXpMonotone: it holds for the exact total only. `PumpController.ConvertLevelToXpAsWrittenWraps` shows the as-written value falling below 0 at level 15466.
- PumpController.ConvertIntegerLevelToXp: it uses the exact total, like `ConvertLevelToXp`.
- ExperienceCalculator.RequiredTankLevelAsWritten: the loop as written need not end, so it runs for at most `fuel` doublings and answers `None` when the fuel runs out. `ExperienceCalculator.CalculateRequiredTankLevel` is the terminating definition.
- UuidText.Parse: only ASCII hex digits are accepted in a group. Java's `Character.digit` also accepts the other Unicode decimal digits and full-width Latin letters, so such texts parse in Java and are rejected here.
- IntText.ParseInt: only ASCII digits are accepted. Java's `Integer.parseInt` reads digits through `Character.digit`, so other Unicode decimal digits (for example Arabic-Indic "١٢", which Java reads as 12) parse in Java and give `None` here. Keys built by the model always hold ASCII digits, so `IntText.ParseIntOfIntToString` is unaffected.
- ByteBuf.DecodeUtf8: malformed UTF-8 (a stray continuation byte, an overlong form, a surrogate, a truncated sequence) gives `None`. Netty's `ByteBuf.toString(UTF_8)` instead puts U+FFFD in place of each malformed part and goes on, using the JDK decoder's rules for how many bytes one U+FFFD covers. The JDK decoder is not part of this model.
- ByteBuf.Buffer.ReadUtf8String: it fails on malformed UTF-8 where Forge's `readUTF8String` returns a string with U+FFFD in it. Only the buffer-length and length-prefix failures are the source's own.
- PacketSyncRingFilter.Message.FromBytes: it fails on a slot with malformed UTF-8 where the source stores a string with U+FFFD in it, for example the bytes `00 01 01 FF` followed by eight `00` bytes. Packets written by `toBytes` always hold well-formed UTF-8, so `PacketSyncRingFilter.DecodeEncode` is unaffected.
- MoremodPumpCapability.PumpState.MaxXp: it is the corrected capacity (`PumpCapacity.CappedCapacity`, saturating at `Integer.MAX_VALUE`). getMaxXp as written gives 0 at 55 levels and wraps beyond; see Findings (`PumpCapacity.ShiftedCapacityWrapsPast54`).
- MoremodPumpCapability.ExperiencePumpCapability.ReadNbt: it restores the capacity before the XP (the corrected order, `MoremodPumpCapability.ReadNbtState`). readNBT as written clamps the XP to the old capacity first; see Findings (`MoremodPumpCapability.ReadNbtAsWrittenTruncates`).

## Findings

| source | as written | input that shows it | evidently intended | confidence | as-written member | corrected member |
|---|---|---|---|---|---|---|
| src/main/java/com/moremod/capability/ExperiencePumpCapability.java:55-67 | `1000L * (1L << (levels - 1))`, compared against `Integer.MAX_VALUE` and cast to `int`. The `long` product overflows from 55 levels on, and Java masks the shift distance to 6 bits. setCapacityLevels allows up to 1000 levels. | 55 capacity levels give a maximum of 0 XP, and 65 give 1000 | saturate at `Integer.MAX_VALUE` for every level above 22 | not executed | PumpCapacity.ShiftedCapacityWrapsPast54 | PumpCapacity.CappedCapacity |
| src/main/java/com/moremod/capability/ExperiencePumpCapability.java:150-158 | readNBT calls setXpStored before setCapacityLevels, so the stored XP is clamped to the instance's old capacity | a tank saved with 2 levels and 1500 XP, read into a fresh capability, comes back with 1000 XP | restore the capacity first, as the rsring copy does, so that reading back what was written is the identity | not executed | MoremodPumpCapability.ReadNbtAsWrittenTruncates | MoremodPumpCapability.ReadNbtOfWriteNbt |
| ExperienceCalculator.java:51-61 | the capacity doubles in a `long` until it reaches the request. Past 1000 · 2^53 it wraps to a negative value and then to 0, so the loop never ends. | `calculateRequiredTankLevel(Long.MAX_VALUE)` | the smallest level whose capacity holds the request | not executed | ExperienceCalculator.RequiredTankLevelAsWrittenDiverges | ExperienceCalculator.CalculateRequiredTankLevel |
| src/main/java/com/rsring/util/XpHelper.java:62-63 | the third branch multiplies `(level - 30) * (215 + (level - 30) * 9)` in `int`. The product passes Integer.MAX_VALUE from level 15466, and convertLevelToXP (ExperiencePumpController.java:353-360 in both trees) caps levels only at 21863. | `getExperienceForLevel(15466)` is -1073607451 and `convertLevelToXP(21863)` is -75705 | the exact total, which fits an int up to level 21863 | not executed | XpHelper.ExperienceAsWrittenWraps | XpHelper.ExperienceFitsIntUpTo21863 |
| src/main/java/com/rsring/util/XpHelper.java:90-96 | getLevelForExperience counts up while the wrapped total is at most the XP. The wrapped total of level 15466 is negative, so the loop runs past it. For Integer.MAX_VALUE every total qualifies and the loop never ends. | `getLevelForExperience(1073737170)` does not answer 15465, and `getLevelForExperience(Integer.MAX_VALUE)` does not return | the floor level of the XP | not executed | XpHelper.LevelSearchAsWrittenMissesFloor | XpHelper.LevelForExperience |
| src/main/java/com/rsring/item/ItemExperiencePump.java:554-556 | each extraction pass bounds an entity by `getMaxXp() - getXpStored()`, read from a capability that nothing updates during the passes, and the bottle passes start again from that same free space. storeExtractedXp (lines 426-444) then caps the tank at getMaxXp and drops the excess below one bottle's worth. | a tank with 10 XP of room and two live 10-XP orbs nearby: 20 XP are drained from the orbs and 10 are stored | bound each entity by the free space left after what was already taken, so that nothing drained is lost | not executed | RsringItemPump.SurroundingsPassOverfills | RsringItemPump.SurroundingsPassLive |
