/**
 * ExperienceTankData (identical in the moremod and rsring trees): stored
 * XP, capacity, upgrade tier and id of one tank, clamped on every update,
 * with its NBT form. Fresh random ids are passed in as parameters.
 */
module ExperienceTank {
  import opened Wrappers
  import opened JavaInt
  import opened Nbt
  import opened UuidText

  const DefaultMaxCapacity: int := 1000
  const StoredXpKey: string := "storedExperience"
  const MaxCapacityKey: string := "maxCapacity"
  const TankTierKey: string := "tankTier"
  const TankIdKey: string := "tankId"

  datatype TankData = TankData(stored: int, maxCapacity: int, tier: int, id: Uuid)
  {
    predicate Valid() {
      0 <= stored <= maxCapacity && maxCapacity >= 1 && tier >= 1 && id.Valid()
    }

    /** setStoredExperience: clamped to [0, maxCapacity]. */
    function WithStored(x: int): (r: TankData)
      ensures r.stored == Clamp(x, 0, Max(0, maxCapacity)) && r.(stored := stored) == this
      ensures Valid() ==> r.Valid()
    {
      this.(stored := Max(0, Min(x, maxCapacity)))
    }

    /** setMaxCapacity: at least 1, and stored XP is lowered to fit. */
    function WithMaxCapacity(m: int): (r: TankData)
      ensures r.maxCapacity == Max(1, m)
      ensures r.stored == Min(stored, Max(1, m))
      ensures r.tier == tier && r.id == id
      ensures Valid() ==> r.Valid()
    {
      var cap := Max(1, m);
      this.(maxCapacity := cap, stored := Min(stored, cap))
    }

    /** setTankTier: at least 1. */
    function WithTier(t: int): (r: TankData)
      ensures r.tier == Max(1, t) && r.(tier := tier) == this
      ensures Valid() ==> r.Valid()
    {
      this.(tier := Max(1, t))
    }

    /** setTankId: a null id is replaced by a random one. */
    function WithId(newId: Option<Uuid>, randomId: Uuid): (r: TankData)
      ensures r.id == newId.GetOr(randomId) && r.(id := id) == this
    {
      this.(id := if newId.Some? then newId.value else randomId)
    }

    function RemainingCapacity(): (r: int)
      ensures r + stored == maxCapacity
      ensures Valid() ==> 0 <= r <= maxCapacity
    {
      maxCapacity - stored
    }

    /** isFull: stored reaches capacity, i.e. no room remains. */
    predicate IsFull()
      ensures IsFull() <==> RemainingCapacity() <= 0
    {
      stored >= maxCapacity
    }

    /** isEmpty: nothing stored (or, for an invalid state, less than nothing). */
    predicate IsEmpty()
      ensures Valid() ==> (IsEmpty() <==> stored == 0)
    {
      stored <= 0
    }

    /** addExperience's result: 0 for amount <= 0, else min(amount, remaining). */
    function Accepted(amount: int): (moved: int)
      requires Valid()
      ensures amount <= 0 ==> moved == 0
      ensures amount > 0 ==> moved == Min(amount, RemainingCapacity())
      ensures 0 <= moved && stored + moved <= maxCapacity
    {
      if amount <= 0 then 0 else Min(amount, RemainingCapacity())
    }

    /** removeExperience's result: 0 for amount <= 0, else min(amount, stored). */
    function Removed(amount: int): (moved: int)
      requires Valid()
      ensures amount <= 0 ==> moved == 0
      ensures amount > 0 ==> moved == Min(amount, stored)
      ensures 0 <= moved <= stored
    {
      if amount <= 0 then 0 else Min(amount, stored)
    }
  }

  /** new ExperienceTankData(): empty, capacity 1000, tier 1. */
  function DefaultTank(randomId: Uuid): (d: TankData)
    ensures d.stored == 0 && d.maxCapacity == DefaultMaxCapacity && d.tier == 1 && d.id == randomId
    ensures randomId.Valid() ==> d.Valid()
  {
    TankData(0, DefaultMaxCapacity, 1, randomId)
  }

  /** new ExperienceTankData(stored, max, tier): every field clamped into range. */
  function NewTank(stored: int, maxCapacity: int, tier: int, randomId: Uuid): (d: TankData)
    ensures d.stored == Max(0, Min(stored, maxCapacity))
    ensures d.maxCapacity == Max(1, maxCapacity) && d.tier == Max(1, tier)
    ensures randomId.Valid() ==> d.Valid()
  {
    TankData(Max(0, Min(stored, maxCapacity)), Max(1, maxCapacity), Max(1, tier), randomId)
  }

  /** writeToNBT: the three numbers and the id's text. */
  function WriteToNbt(d: TankData): (tag: Compound)
    requires d.id.Valid()
    ensures tag.Keys == {StoredXpKey, MaxCapacityKey, TankTierKey, TankIdKey}
    ensures GetInteger(tag, StoredXpKey) == d.stored
    ensures GetInteger(tag, MaxCapacityKey) == d.maxCapacity
    ensures GetInteger(tag, TankTierKey) == d.tier
    ensures GetString(tag, TankIdKey) == ToString(d.id)
  {
    var t := SetInteger(Empty, StoredXpKey, d.stored);
    var t := SetInteger(t, MaxCapacityKey, d.maxCapacity);
    var t := SetInteger(t, TankTierKey, d.tier);
    SetString(t, TankIdKey, ToString(d.id))
  }

  /** The id readFromNBT keeps: the parsed id, or the random one when missing or malformed. */
  function ReadId(tag: Compound, randomId: Uuid): (id: Uuid)
    ensures !HasKey(tag, TankIdKey) ==> id == randomId
    ensures Parse(GetString(tag, TankIdKey)).Some? && HasKey(tag, TankIdKey) ==> id == Parse(GetString(tag, TankIdKey)).value
    ensures Parse(GetString(tag, TankIdKey)).None? && HasKey(tag, TankIdKey) ==> id == randomId
    ensures randomId.Valid() ==> id.Valid()
  {
    if HasKey(tag, TankIdKey) then Parse(GetString(tag, TankIdKey)).GetOr(randomId) else randomId
  }

  /**
   * readFromNBT: each present key replaces its field (XP floored at 0,
   * capacity and tier at 1), the id is re-read or regenerated, and finally
   * stored XP is capped at capacity. A null tag changes nothing.
   */
  function ReadFromNbtState(d: TankData, nbt: Option<Compound>, randomId: Uuid): (r: TankData)
    ensures nbt.None? ==> r == d
    ensures nbt.Some? ==>
      var tag := nbt.value;
      && r.maxCapacity == (if HasKey(tag, MaxCapacityKey) then Max(1, GetInteger(tag, MaxCapacityKey)) else d.maxCapacity)
      && r.tier == (if HasKey(tag, TankTierKey) then Max(1, GetInteger(tag, TankTierKey)) else d.tier)
      && r.stored == Min(if HasKey(tag, StoredXpKey) then Max(0, GetInteger(tag, StoredXpKey)) else d.stored, r.maxCapacity)
      && r.id == ReadId(tag, randomId)
    ensures nbt.Some? && d.Valid() && randomId.Valid() ==> r.Valid()
  {
    match nbt
    case None => d
    case Some(tag) =>
      var stored := if HasKey(tag, StoredXpKey) then Max(0, GetInteger(tag, StoredXpKey)) else d.stored;
      var cap := if HasKey(tag, MaxCapacityKey) then Max(1, GetInteger(tag, MaxCapacityKey)) else d.maxCapacity;
      var tier := if HasKey(tag, TankTierKey) then Max(1, GetInteger(tag, TankTierKey)) else d.tier;
      TankData(Min(stored, cap), cap, tier, ReadId(tag, randomId))
  }

  /** fromNBT: readFromNBT into a default tank. */
  function FromNbt(nbt: Option<Compound>, randomId: Uuid): (d: TankData)
    ensures nbt.None? ==> d == DefaultTank(randomId)
    ensures nbt.Some? && randomId.Valid() ==> d.Valid()
  {
    ReadFromNbtState(DefaultTank(randomId), nbt, randomId)
  }

  /** fromNBT(writeToNBT(d)) equals d, whatever random id is at hand. */
  lemma FromNbtOfWriteToNbt(d: TankData, randomId: Uuid)
    requires d.Valid()
    ensures FromNbt(Some(WriteToNbt(d)), randomId) == d
  {
    ParseToString(d.id);
  }

  /** A tag without any of the keys gives the defaults 0, 1000, 1 and a new id. */
  lemma FromNbtOfEmpty(randomId: Uuid)
    ensures FromNbt(Some(Empty), randomId) == DefaultTank(randomId)
  {
  }

  /** Negative values in the tag are clamped and stored XP is capped at the capacity read. */
  lemma FromNbtClamps(stored: int, cap: int, tier: int, randomId: Uuid)
    ensures var tag := SetInteger(SetInteger(SetInteger(Empty, StoredXpKey, stored), MaxCapacityKey, cap), TankTierKey, tier);
      var d := FromNbt(Some(tag), randomId);
      && d.maxCapacity == Max(1, cap)
      && d.tier == Max(1, tier)
      && d.stored == Min(Max(0, stored), Max(1, cap))
      && d.id == randomId
  {
  }

  class ExperienceTankData {
    var storedExperience: int
    var maxCapacity: int
    var tankTier: int
    var tankId: Uuid

    function State(): TankData
      reads this
    {
      TankData(storedExperience, maxCapacity, tankTier, tankId)
    }

    ghost predicate Valid()
      reads this
    {
      State().Valid()
    }

    /** ExperienceTankData(). */
    constructor (randomId: Uuid)
      ensures State() == DefaultTank(randomId)
    {
      storedExperience := 0;
      maxCapacity := DefaultMaxCapacity;
      tankTier := 1;
      tankId := randomId;
    }

    /** ExperienceTankData(stored, max, tier). */
    constructor WithValues(stored: int, capacity: int, tier: int, randomId: Uuid)
      ensures State() == NewTank(stored, capacity, tier, randomId)
    {
      storedExperience := Max(0, Min(stored, capacity));
      maxCapacity := Max(1, capacity);
      tankTier := Max(1, tier);
      tankId := randomId;
    }

    /** The copy constructor. */
    constructor CopyOf(other: ExperienceTankData)
      ensures State() == other.State()
    {
      storedExperience := other.storedExperience;
      maxCapacity := other.maxCapacity;
      tankTier := other.tankTier;
      tankId := other.tankId;
    }

    method SetStoredExperience(x: int)
      modifies this
      ensures State() == old(State()).WithStored(x)
    {
      storedExperience := Max(0, Min(x, maxCapacity));
    }

    method SetMaxCapacity(m: int)
      modifies this
      ensures State() == old(State()).WithMaxCapacity(m)
    {
      maxCapacity := Max(1, m);
      storedExperience := Min(storedExperience, maxCapacity);
    }

    method SetTankTier(t: int)
      modifies this
      ensures State() == old(State()).WithTier(t)
    {
      tankTier := Max(1, t);
    }

    method SetTankId(newId: Option<Uuid>, randomId: Uuid)
      modifies this
      ensures State() == old(State()).WithId(newId, randomId)
    {
      tankId := if newId.Some? then newId.value else randomId;
    }

    method AddExperience(amount: int) returns (added: int)
      requires Valid()
      modifies this
      ensures added == old(State()).Accepted(amount)
      ensures State() == old(State()).(stored := old(storedExperience) + added)
      ensures Valid()
    {
      if amount <= 0 {
        return 0;
      }
      var canAdd := Min(amount, maxCapacity - storedExperience);
      storedExperience := storedExperience + canAdd;
      added := canAdd;
    }

    method RemoveExperience(amount: int) returns (removed: int)
      requires Valid()
      modifies this
      ensures removed == old(State()).Removed(amount)
      ensures State() == old(State()).(stored := old(storedExperience) - removed)
      ensures Valid()
    {
      if amount <= 0 {
        return 0;
      }
      var canRemove := Min(amount, storedExperience);
      storedExperience := storedExperience - canRemove;
      removed := canRemove;
    }

    method ReadFromNbt(nbt: Option<Compound>, randomId: Uuid)
      modifies this
      ensures State() == ReadFromNbtState(old(State()), nbt, randomId)
    {
      if nbt.None? {
        return;
      }
      var tag := nbt.value;
      if HasKey(tag, StoredXpKey) {
        storedExperience := Max(0, GetInteger(tag, StoredXpKey));
      }
      if HasKey(tag, MaxCapacityKey) {
        maxCapacity := Max(1, GetInteger(tag, MaxCapacityKey));
      }
      if HasKey(tag, TankTierKey) {
        tankTier := Max(1, GetInteger(tag, TankTierKey));
      }
      if HasKey(tag, TankIdKey) {
        var parsed := Parse(GetString(tag, TankIdKey));
        tankId := if parsed.Some? then parsed.value else randomId;
      } else {
        tankId := randomId;
      }
      storedExperience := Min(storedExperience, maxCapacity);
    }
  }

  /** fromNBT as a factory: a fresh object read from the tag. */
  method FromNbtObject(nbt: Option<Compound>, randomId: Uuid) returns (d: ExperienceTankData)
    ensures fresh(d) && d.State() == FromNbt(nbt, randomId)
  {
    d := new ExperienceTankData(randomId);
    d.ReadFromNbt(nbt, randomId);
  }
}
