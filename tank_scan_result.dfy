/**
 * TankScanResult (the com.moremod and com.rsring copies share their logic and
 * differ only in display names and in which pump item's NBT getters they
 * call): the tanks found by a scan, grouped by inventory location, with their
 * total capacity and stored XP. Each stack is reduced to the values the
 * pump item's getMaxXpFromNBT and getXpStoredFromNBT read from it.
 */
module TankScan {
  import opened Wrappers

  datatype InventoryType = PlayerInventory | Hotbar | Baubles | Offhand

  /** InventoryType.values(), in declaration order. */
  const InventoryTypes: seq<InventoryType> := [PlayerInventory, Hotbar, Baubles, Offhand]

  /** getDisplayName in the com.moremod tree. */
  function MoremodDisplayName(t: InventoryType): string
  {
    match t
    case PlayerInventory => "Player Inventory"
    case Hotbar => "Hotbar"
    case Baubles => "Baubles Slots"
    case Offhand => "Off Hand"
  }

  /** getDisplayName in the com.rsring tree. */
  function RsringDisplayName(t: InventoryType): string
  {
    match t
    case PlayerInventory => "玩家物品栏"
    case Hotbar => "快捷栏"
    case Baubles => "Baubles 槽位"
    case Offhand => "副手"
  }

  /** A scanned stack: empty or not, a pump item or not, and its NBT capacity and XP. */
  datatype TankStack = TankStack(isEmpty: bool, isPump: bool, maxXpFromNbt: int, xpStoredFromNbt: int)

  /** getTankCapacity: 0 for an empty stack or a non-pump item. */
  function TankCapacity(t: TankStack): int
  {
    if t.isEmpty || !t.isPump then 0 else t.maxXpFromNbt
  }

  /** getTankStoredXP: 0 for an empty stack or a non-pump item. */
  function TankStored(t: TankStack): int
  {
    if t.isEmpty || !t.isPump then 0 else t.xpStoredFromNbt
  }

  /** The sum of f over the tanks. */
  function Sum(tanks: seq<TankStack>, f: TankStack -> int): int
  {
    if tanks == [] then 0 else Sum(tanks[..|tanks| - 1], f) + f(tanks[|tanks| - 1])
  }

  lemma {:induction false} SumOfAppend(a: seq<TankStack>, b: seq<TankStack>, f: TankStack -> int)
    ensures Sum(a + b, f) == Sum(a, f) + Sum(b, f)
  {
    if b == [] {
      assert a + b == a;
    } else {
      assert (a + b)[..|a + b| - 1] == a + b[..|b| - 1];
      SumOfAppend(a, b[..|b| - 1], f);
    }
  }

  /** calculateTotalCapacity / calculateTotalStored: the running total over all tanks. */
  method CalculateTotal(tanks: seq<TankStack>, f: TankStack -> int) returns (total: int)
    requires forall t: TankStack :: t.isEmpty ==> f(t) == 0
    ensures total == Sum(tanks, f)
  {
    total := 0;
    var i := 0;
    while i < |tanks|
      invariant 0 <= i <= |tanks|
      invariant total == Sum(tanks[..i], f)
    {
      assert tanks[..i + 1][..i] == tanks[..i];
      if !tanks[i].isEmpty {
        total := total + f(tanks[i]);
      }
      i := i + 1;
    }
    assert tanks[..i] == tanks;
  }

  /** The number of tanks a location map holds for one location. */
  function CountAt(byLocation: map<InventoryType, seq<TankStack>>, loc: InventoryType): (r: nat)
    ensures loc !in byLocation ==> r == 0
  {
    if loc in byLocation then |byLocation[loc]| else 0
  }

  /** The per-location counts added up over all four locations. */
  function CountAllLocations(byLocation: map<InventoryType, seq<TankStack>>): nat
  {
    CountAt(byLocation, PlayerInventory) + CountAt(byLocation, Hotbar) + CountAt(byLocation, Baubles) + CountAt(byLocation, Offhand)
  }

  /** A built scan: the tanks, the tanks by location, and the two totals. */
  datatype TankScanResult = TankScanResult(
    allTanks: seq<TankStack>,
    tanksByLocation: map<InventoryType, seq<TankStack>>,
    totalCapacity: int,
    totalStored: int)
  {
    function TankCount(): nat { |allTanks| }

    /** getTankCount(location): 0 for a location without tanks. */
    function TankCountAt(loc: InventoryType): nat { CountAt(tanksByLocation, loc) }

    predicate HasTanks() { |allTanks| > 0 }

    /** hasTanksInLocation: getTankCount(location) > 0. */
    predicate HasTanksInLocation(loc: InventoryType) { TankCountAt(loc) > 0 }

    /** getTotalRemainingCapacity: capacity minus stored, not clamped. */
    function TotalRemainingCapacity(): int { totalCapacity - totalStored }

    /** The totals are the ones the constructor computes from the tanks. */
    predicate TotalsAgree()
    {
      totalCapacity == Sum(allTanks, TankCapacity) && totalStored == Sum(allTanks, TankStored)
    }
  }

  /** The constructor: copies the tanks and computes both totals. */
  method NewTankScanResult(allTanks: seq<TankStack>, tanksByLocation: map<InventoryType, seq<TankStack>>) returns (r: TankScanResult)
    ensures r.allTanks == allTanks && r.tanksByLocation == tanksByLocation
    ensures r.TotalsAgree()
  {
    var capacity := CalculateTotal(allTanks, TankCapacity);
    var stored := CalculateTotal(allTanks, TankStored);
    r := TankScanResult(allTanks, tanksByLocation, capacity, stored);
  }

  /** empty(): no tanks, no locations, zero totals. */
  function Empty(): (r: TankScanResult)
    ensures r.TankCount() == 0 && !r.HasTanks() && r.TotalsAgree()
    ensures r.totalCapacity == 0 && r.totalStored == 0 && r.TotalRemainingCapacity() == 0
    ensures forall loc :: !r.HasTanksInLocation(loc)
  {
    TankScanResult([], map[], 0, 0)
  }

  /**
   * The remaining capacity of a result whose totals agree with its tanks is
   * the sum over the tanks of capacity minus stored; it is negative when the
   * stacks' NBT holds more XP than capacity.
   */
  lemma {:induction false} RemainingIsSumOfFreeSpace(r: TankScanResult)
    requires r.TotalsAgree()
    ensures r.TotalRemainingCapacity() == Sum(r.allTanks, (t: TankStack) => TankCapacity(t) - TankStored(t))
  {
    SumOfDifference(r.allTanks);
  }

  lemma {:induction false} SumOfDifference(tanks: seq<TankStack>)
    ensures Sum(tanks, TankCapacity) - Sum(tanks, TankStored) == Sum(tanks, (t: TankStack) => TankCapacity(t) - TankStored(t))
  {
    if tanks != [] {
      SumOfDifference(tanks[..|tanks| - 1]);
    }
  }

  /** The location summary getLocationSummary builds: the non-zero counts, in enum order. */
  function Summary(types: seq<InventoryType>, byLocation: map<InventoryType, seq<TankStack>>, name: InventoryType -> string): (r: seq<(string, int)>)
    ensures |r| <= |types|
    ensures forall e :: e in r ==> e.1 > 0
    ensures forall loc :: loc in types && CountAt(byLocation, loc) > 0 ==> (name(loc), CountAt(byLocation, loc)) in r
    ensures forall e :: e in r ==> exists loc :: loc in types && e == (name(loc), CountAt(byLocation, loc))
  {
    if types == [] then []
    else
      var last := types[|types| - 1];
      var earlier := Summary(types[..|types| - 1], byLocation, name);
      var count := CountAt(byLocation, last);
      assert forall loc :: loc in types[..|types| - 1] ==> loc in types;
      assert forall loc :: loc in types ==> loc in types[..|types| - 1] || loc == last;
      if count > 0 then earlier + [(name(last), count)] else earlier
  }

  lemma SummaryStep(types: seq<InventoryType>, i: nat, byLocation: map<InventoryType, seq<TankStack>>, name: InventoryType -> string)
    requires i < |types|
    ensures Summary(types[..i + 1], byLocation, name)
      == Summary(types[..i], byLocation, name)
         + (if CountAt(byLocation, types[i]) > 0 then [(name(types[i]), CountAt(byLocation, types[i]))] else [])
  {
    assert types[..i + 1][..i] == types[..i];
  }

  /** getLocationSummary: walks the four locations in order, keeping the non-zero counts. */
  method LocationSummary(r: TankScanResult, name: InventoryType -> string) returns (summary: seq<(string, int)>)
    ensures summary == Summary(InventoryTypes, r.tanksByLocation, name)
  {
    summary := [];
    var i := 0;
    while i < |InventoryTypes|
      invariant 0 <= i <= |InventoryTypes|
      invariant summary == Summary(InventoryTypes[..i], r.tanksByLocation, name)
    {
      SummaryStep(InventoryTypes, i, r.tanksByLocation, name);
      var count := r.TankCountAt(InventoryTypes[i]);
      if count > 0 {
        summary := summary + [(name(InventoryTypes[i]), count)];
      }
      i := i + 1;
    }
    assert InventoryTypes[..i] == InventoryTypes;
  }

  /** TankScanResult.Builder: appends each non-empty tank to the list and to its location's list. */
  class Builder {
    var allTanks: seq<TankStack>
    var tanksByLocation: map<InventoryType, seq<TankStack>>

    /** No empty stack is kept, and the list holds exactly the tanks the location lists hold. */
    ghost predicate Valid()
      reads this
    {
      && (forall t :: t in allTanks ==> !t.isEmpty)
      && |allTanks| == CountAllLocations(tanksByLocation)
    }

    constructor ()
      ensures allTanks == [] && tanksByLocation == map[] && Valid()
    {
      allTanks := [];
      tanksByLocation := map[];
    }

    /** addTank: a null or empty stack is ignored. */
    method AddTank(tank: Option<TankStack>, location: InventoryType)
      requires Valid()
      modifies this
      ensures Valid()
      ensures tank.Some? && !tank.value.isEmpty ==>
        && allTanks == old(allTanks) + [tank.value]
        && tanksByLocation == old(tanksByLocation)[location := old(if location in tanksByLocation then tanksByLocation[location] else []) + [tank.value]]
      ensures tank.None? || tank.value.isEmpty ==> allTanks == old(allTanks) && tanksByLocation == old(tanksByLocation)
    {
      if tank.Some? && !tank.value.isEmpty {
        allTanks := allTanks + [tank.value];
        var existing := if location in tanksByLocation then tanksByLocation[location] else [];
        tanksByLocation := tanksByLocation[location := existing + [tank.value]];
      }
    }

    /** addTanks: addTank for each element, in order; a null list adds nothing. */
    method AddTanks(tanks: Option<seq<Option<TankStack>>>, location: InventoryType)
      requires Valid()
      modifies this
      ensures Valid()
      ensures tanks.None? ==> allTanks == old(allTanks) && tanksByLocation == old(tanksByLocation)
      ensures tanks.Some? ==> allTanks == old(allTanks) + NonEmpty(tanks.value)
    {
      if tanks.None? {
        return;
      }
      var i := 0;
      while i < |tanks.value|
        invariant 0 <= i <= |tanks.value|
        invariant Valid()
        invariant allTanks == old(allTanks) + NonEmpty(tanks.value[..i])
      {
        assert tanks.value[..i + 1][..i] == tanks.value[..i];
        AddTank(tanks.value[i], location);
        i := i + 1;
      }
      assert tanks.value[..i] == tanks.value;
    }

    /** build(): a result over the collected tanks. */
    method Build() returns (r: TankScanResult)
      requires Valid()
      ensures r.allTanks == allTanks && r.tanksByLocation == tanksByLocation && r.TotalsAgree()
      ensures r.TankCount() == r.TankCountAt(PlayerInventory) + r.TankCountAt(Hotbar) + r.TankCountAt(Baubles) + r.TankCountAt(Offhand)
    {
      r := NewTankScanResult(allTanks, tanksByLocation);
    }
  }

  /** The stacks addTank keeps from a list: the present, non-empty ones, in order. */
  function NonEmpty(tanks: seq<Option<TankStack>>): (r: seq<TankStack>)
    ensures |r| <= |tanks|
    ensures forall t :: t in r ==> !t.isEmpty && Some(t) in tanks
  {
    if tanks == [] then []
    else
      var t := tanks[|tanks| - 1];
      var rest := NonEmpty(tanks[..|tanks| - 1]);
      if t.Some? && !t.value.isEmpty then rest + [t.value] else rest
  }
}
