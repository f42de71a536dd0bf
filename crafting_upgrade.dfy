/**
 * com.rsring.event.CraftingUpgradeHandler.UpgradeExperiencePumpRecipe: a
 * basic pump, an ender pearl and an XP bottle craft the same pump one
 * capacity level higher, keeping its XP and settings. The special fixed
 * capacity tanks cannot be upgraded.
 */
module RsringCraftingUpgrade {
  import opened Wrappers
  import opened JavaInt
  import opened Nbt
  import opened PumpCapacity
  import Pump = RsringItemPump
  import Cap = RsringPumpCapability

  /** One slot of the crafting grid. */
  datatype GridStack =
    | EmptySlot
    | PumpItem(kind: Pump.PumpKind, tag: Option<Compound>, capability: Option<Cap.PumpState>)
    | EnderPearl
    | ExperienceBottle
    | OtherItem

  predicate IsPump(g: GridStack) { g.PumpItem? }
  predicate IsPearl(g: GridStack) { g.EnderPearl? }
  predicate IsBottle(g: GridStack) { g.ExperienceBottle? }
  predicate IsOther(g: GridStack) { g.OtherItem? }

  /** The number of slots satisfying p. */
  function Count(grid: seq<GridStack>, p: GridStack -> bool): nat
  {
    if grid == [] then 0
    else Count(grid[..|grid| - 1], p) + (if p(grid[|grid| - 1]) then 1 else 0)
  }

  lemma {:induction false} CountPrefix(grid: seq<GridStack>, k: int, p: GridStack -> bool)
    requires 0 <= k <= |grid|
    ensures Count(grid[..k], p) <= Count(grid, p)
  {
    if k < |grid| {
      CountPrefix(grid[..|grid| - 1], k, p);
      assert grid[..|grid| - 1][..k] == grid[..k];
    } else {
      assert grid[..k] == grid;
    }
  }

  /** The first pump in the grid. */
  function FirstPump(grid: seq<GridStack>): (r: Option<GridStack>)
    ensures r.Some? ==> r.value.PumpItem? && r.value in grid
    ensures r.None? <==> Count(grid, IsPump) == 0
  {
    if grid == [] then None
    else
      var earlier := FirstPump(grid[..|grid| - 1]);
      if earlier.Some? then earlier
      else if grid[|grid| - 1].PumpItem? then Some(grid[|grid| - 1])
      else None
  }

  lemma {:induction false} FirstPumpPrefix(grid: seq<GridStack>, k: int)
    requires 0 <= k <= |grid| && FirstPump(grid[..k]).Some?
    ensures FirstPump(grid) == FirstPump(grid[..k])
  {
    if k < |grid| {
      assert grid[..|grid| - 1][..k] == grid[..k];
      FirstPumpPrefix(grid[..|grid| - 1], k);
    } else {
      assert grid[..k] == grid;
    }
  }

  /** The grid the recipe accepts: one basic pump, one pearl, one bottle, nothing else. */
  predicate IsUpgradeGrid(grid: seq<GridStack>)
  {
    && Count(grid, IsPump) == 1 && Count(grid, IsPearl) == 1 && Count(grid, IsBottle) == 1
    && Count(grid, IsOther) == 0
    && forall g :: g in grid && g.PumpItem? ==> g.kind == Pump.BasicPump
  }

  /**
   * matches: scans the grid keeping the first pump and flags for the pearl and
   * bottle; a special tank, a second ingredient of any kind or a foreign item
   * rejects the grid at once.
   */
  method Matches(grid: seq<GridStack>) returns (r: bool)
    ensures r <==> IsUpgradeGrid(grid)
  {
    var hasPump := false;
    var hasPearl := false;
    var hasBottle := false;
    var i := 0;
    while i < |grid|
      invariant 0 <= i <= |grid|
      invariant hasPump <==> Count(grid[..i], IsPump) == 1
      invariant hasPearl <==> Count(grid[..i], IsPearl) == 1
      invariant hasBottle <==> Count(grid[..i], IsBottle) == 1
      invariant Count(grid[..i], IsPump) <= 1 && Count(grid[..i], IsPearl) <= 1 && Count(grid[..i], IsBottle) <= 1
      invariant Count(grid[..i], IsOther) == 0
      invariant forall g :: g in grid[..i] && g.PumpItem? ==> g.kind == Pump.BasicPump
    {
      var stack := grid[i];
      assert grid[..i + 1][..i] == grid[..i];
      assert grid[..i + 1] == grid[..i] + [stack];
      if stack.EmptySlot? {
        i := i + 1;
        continue;
      }
      if stack.PumpItem? && !hasPump {
        hasPump := true;
        if stack.kind != Pump.BasicPump {
          assert stack in grid;
          return false;
        }
      } else if stack.EnderPearl? && !hasPearl {
        hasPearl := true;
      } else if stack.ExperienceBottle? && !hasBottle {
        hasBottle := true;
      } else {
        CountPrefix(grid, i + 1, IsPump);
        CountPrefix(grid, i + 1, IsPearl);
        CountPrefix(grid, i + 1, IsBottle);
        CountPrefix(grid, i + 1, IsOther);
        return false;
      }
      i := i + 1;
    }
    assert grid[..i] == grid;
    r := hasPump && hasPearl && hasBottle;
  }

  /**
   * The capability of the crafted pump: a new capability given the new
   * capacity level first, then the original XP (read from the stack's NBT),
   * mode, retain level and mending flag (read from the original capability,
   * with defaults 0, 10 and false when it has none).
   */
  function UpgradedState(cfg: Cap.TankConfig, pump: GridStack): (r: Cap.PumpState)
    requires pump.PumpItem?
    ensures r.Valid(cfg)
    ensures r.fixedMaxXp == 0
    ensures r.capacityLevels == Clamp(Max(1, Pump.GetCapacityLevelsFromNbt(Some(Pump.PumpStack(pump.kind, false, pump.tag)))) + 1,
                                      Cap.MinCapacityLevels, cfg.MaxLevels())
    ensures r.xpStored == Clamp(Pump.GetXpStoredFromNbt(Some(Pump.PumpStack(pump.kind, false, pump.tag))), 0, r.MaxXp())
    ensures pump.capability.Some? ==>
      && r.mode == (if Cap.ModeFromPlayer <= pump.capability.value.mode <= Cap.ModeOff then pump.capability.value.mode else Cap.ModeOff)
      && r.retainLevel == Max(Cap.MinRetainLevel, pump.capability.value.retainLevel)
      && r.useForMending == pump.capability.value.useForMending
    ensures pump.capability.None? ==> r.mode == 0 && r.retainLevel == 10 && !r.useForMending
  {
    var stack := Some(Pump.PumpStack(pump.kind, false, pump.tag));
    var originalLevels := Max(1, Pump.GetCapacityLevelsFromNbt(stack));
    var originalXp := Pump.GetXpStoredFromNbt(stack);
    var originalMode := if pump.capability.Some? then pump.capability.value.mode else 0;
    var originalRetain := if pump.capability.Some? then pump.capability.value.retainLevel else 10;
    var originalMending := if pump.capability.Some? then pump.capability.value.useForMending else false;
    var initial := Cap.InitialState(cfg);
    var s1 := initial.WithCapacityLevels(cfg, originalLevels + 1);
    var s2 := s1.WithXpStored(originalXp);
    var s3 := s2.WithMode(originalMode);
    var s4 := s3.WithRetainLevel(originalRetain);
    Cap.LevelsSetterValid(cfg, initial, originalLevels + 1);
    Cap.XpSetterValid(cfg, s1, originalXp);
    Cap.ModeSetterValid(cfg, s2, originalMode);
    Cap.RetainSetterValid(cfg, s3, originalRetain);
    s4.(useForMending := originalMending)
  }

  /**
   * Upgrading a pump below the configured level limit keeps all of its XP
   * whenever that XP fitted the original capacity.
   */
  lemma UpgradeKeepsXp(cfg: Cap.TankConfig, pump: GridStack)
    requires pump.PumpItem?
    requires var stack := Some(Pump.PumpStack(pump.kind, false, pump.tag));
      var levels := Max(1, Pump.GetCapacityLevelsFromNbt(stack));
      var xp := Pump.GetXpStoredFromNbt(stack);
      levels < cfg.MaxLevels() && 0 <= xp <= CappedCapacity(levels)
    ensures UpgradedState(cfg, pump).xpStored == Pump.GetXpStoredFromNbt(Some(Pump.PumpStack(pump.kind, false, pump.tag)))
    ensures UpgradedState(cfg, pump).capacityLevels == Max(1, Pump.GetCapacityLevelsFromNbt(Some(Pump.PumpStack(pump.kind, false, pump.tag)))) + 1
  {
    var stack := Some(Pump.PumpStack(pump.kind, false, pump.tag));
    var levels := Max(1, Pump.GetCapacityLevelsFromNbt(stack));
    var r := UpgradedState(cfg, pump);
    assert r.capacityLevels == levels + 1;
    CappedCapacityMonotone(levels, levels + 1);
    assert r.MaxXp() == CappedCapacity(levels + 1);
  }

  /**
   * getCraftingResult: the first pump found decides; a special tank gives
   * EMPTY, and so does a grid without a pump. Otherwise the result is a basic
   * pump carrying UpgradedState.
   */
  method GetCraftingResult(cfg: Cap.TankConfig, grid: seq<GridStack>) returns (r: Option<Cap.PumpState>)
    ensures r.None? <==> FirstPump(grid).None? || FirstPump(grid).value.kind != Pump.BasicPump
    ensures r.Some? ==> r.value == UpgradedState(cfg, FirstPump(grid).value)
  {
    var pump: Option<GridStack> := None;
    var i := 0;
    while i < |grid|
      invariant 0 <= i <= |grid|
      invariant pump == FirstPump(grid[..i])
      invariant pump.Some? ==> pump.value.kind == Pump.BasicPump
    {
      var stack := grid[i];
      assert grid[..i + 1][..i] == grid[..i];
      if stack.PumpItem? && pump.None? {
        pump := Some(stack);
        if stack.kind != Pump.BasicPump {
          FirstPumpPrefix(grid, i + 1);
          return None;
        }
      }
      i := i + 1;
    }
    assert grid[..i] == grid;
    if pump.None? {
      return None;
    }
    r := Some(UpgradedState(cfg, pump.value));
  }
}
