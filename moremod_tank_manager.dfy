/**
 * com.moremod.experience.ExperienceTankManager: capacity validation, the
 * tier/capacity table, overflow handling when filling a tank, and the
 * recognition of an upgrade recipe in a crafting grid.
 */
module MoremodTankManager {
  import opened JavaInt

  const BaseCapacity: int := 1000
  const CapacityPerTier: int := 1000
  const MaxTier: int := 10

  /**
   * validateCapacity: negative XP becomes 0, a capacity <= 0 is replaced by
   * the base capacity, and XP above the capacity is capped.
   */
  function ValidateCapacity(storedXp: int, maxCapacity: int): (r: int)
    ensures storedXp < 0 ==> r == 0
    ensures storedXp >= 0 ==> r == Min(storedXp, if maxCapacity <= 0 then BaseCapacity else maxCapacity)
    ensures 0 <= r
    ensures maxCapacity > 0 ==> r <= maxCapacity
  {
    if storedXp < 0 then 0
    else
      var cap := if maxCapacity <= 0 then BaseCapacity else maxCapacity;
      if storedXp > cap then cap else storedXp
  }

  /** validateCapacity is idempotent: a validated amount validates to itself. */
  lemma ValidateCapacityIdempotent(storedXp: int, maxCapacity: int)
    ensures ValidateCapacity(ValidateCapacity(storedXp, maxCapacity), maxCapacity) == ValidateCapacity(storedXp, maxCapacity)
  {
  }

  /** calculateCapacityForTier: 1000 per tier, the tier clamped to 1..10. */
  function CapacityForTier(tier: int): (r: int)
    ensures r == BaseCapacity * Clamp(tier, 1, MaxTier)
    ensures BaseCapacity <= r <= BaseCapacity * MaxTier
  {
    var t := Max(1, Min(tier, MaxTier));
    BaseCapacity + (t - 1) * CapacityPerTier
  }

  /**
   * calculateTierFromCapacity: 1 up to the base capacity, then one tier per
   * further 1000 (rounded down), capped at 10.
   */
  function TierFromCapacity(capacity: int): (r: int)
    ensures 1 <= r <= MaxTier
    ensures capacity <= BaseCapacity ==> r == 1
    ensures capacity > BaseCapacity ==> r == Min(1 + (capacity - BaseCapacity) / CapacityPerTier, MaxTier)
  {
    if capacity <= BaseCapacity then 1
    else
      var tier := 1 + (capacity - BaseCapacity) / CapacityPerTier;
      Max(1, Min(tier, MaxTier))
  }

  /** The tier read back from a tier's capacity is that tier. */
  lemma TierFromCapacityForTier(tier: int)
    requires 1 <= tier <= MaxTier
    ensures TierFromCapacity(CapacityForTier(tier)) == tier
  {
    var c := CapacityForTier(tier);
    assert c - BaseCapacity == (tier - 1) * CapacityPerTier;
  }

  /** Any capacity lies between its tier's capacity and the next tier's, below tier 10. */
  lemma CapacityForTierFromCapacity(capacity: int)
    requires capacity >= BaseCapacity
    ensures CapacityForTier(TierFromCapacity(capacity)) <= capacity
    ensures TierFromCapacity(capacity) < MaxTier ==> capacity < CapacityForTier(TierFromCapacity(capacity) + 1)
  {
  }

  /** The stored XP and capacity handleExperienceOverflow sees; None when the stack is not a pump. */
  datatype TankView = TankView(stored: int, capacity: int)

  /**
   * handleExperienceOverflow: the amount that does not fit and the tank's new
   * stored XP. A non-pump stack or a non-positive amount is returned
   * untouched; otherwise the tank takes what fits (written through
   * setStoredExperience, which validates it against the capacity).
   */
  function HandleExperienceOverflow(tank: TankView, isPump: bool, amount: int): (r: (int, int))
    ensures !isPump || amount <= 0 ==> r == (amount, tank.stored)
    ensures isPump && amount > 0 && 0 <= tank.stored <= tank.capacity ==>
      && 0 <= r.0 <= amount
      && r.1 == tank.stored + (amount - r.0)
      && tank.stored <= r.1 <= tank.capacity
      && (r.0 > 0 ==> r.1 == tank.capacity)
  {
    if !isPump || amount <= 0 then (amount, tank.stored)
    else
      var space := tank.capacity - tank.stored;
      if space <= 0 then (amount, tank.stored)
      else if amount <= space then (0, ValidateCapacity(tank.stored + amount, tank.capacity))
      else (amount - space, ValidateCapacity(tank.capacity, tank.capacity))
  }

  /** What can sit in a crafting-grid slot, as far as the upgrade check cares. */
  datatype GridItem = EmptySlot | Pump | EnderPearl | ExperienceBottle | OtherItem

  function CountPumps(grid: seq<GridItem>): (n: nat)
    ensures n <= |grid|
  {
    if grid == [] then 0 else CountPumps(grid[..|grid| - 1]) + (if grid[|grid| - 1] == Pump then 1 else 0)
  }

  predicate IsUpgradeItem(item: GridItem) { item == EnderPearl || item == ExperienceBottle }

  /** isUpgradeCrafting: exactly one pump and at least one pearl or bottle, other items ignored. */
  method IsUpgradeCrafting(grid: seq<GridItem>) returns (r: bool)
    ensures r <==> CountPumps(grid) == 1 && exists i :: 0 <= i < |grid| && IsUpgradeItem(grid[i])
  {
    var tankCount := 0;
    var hasUpgradeItems := false;
    var i := 0;
    while i < |grid|
      invariant 0 <= i <= |grid|
      invariant tankCount == CountPumps(grid[..i])
      invariant hasUpgradeItems <==> exists j :: 0 <= j < i && IsUpgradeItem(grid[j])
    {
      assert grid[..i + 1][..i] == grid[..i];
      var stack := grid[i];
      if stack == EmptySlot {
        i := i + 1;
        continue;
      }
      if stack == Pump {
        tankCount := tankCount + 1;
      } else if stack == EnderPearl || stack == ExperienceBottle {
        hasUpgradeItems := true;
      }
      i := i + 1;
    }
    assert grid[..i] == grid;
    r := tankCount == 1 && hasUpgradeItems;
  }
}
