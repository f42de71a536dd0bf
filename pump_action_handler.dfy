/**
 * PacketPumpAction.Handler on the server: it finds the controller in the
 * chosen hand, orders the player's tanks, updates the controller's own
 * settings and then runs the button's loop over the tanks' capabilities,
 * moving XP to or from the player.
 */
module PumpActionHandler {
  import opened Wrappers
  import opened JavaInt
  import opened XpHelper
  import opened PacketPumpAction
  import opened PumpActionPriority
  import opened PumpActionTransfer
  import Cap = RsringPumpCapability
  import Ctrl = RsringControllerItem

  /**
   * The player's experience: the level and the points earned into it (the
   * game keeps the latter as a fraction of the level's bar; here it is the
   * whole number of points that fraction stands for).
   */
  class Player {
    var experienceLevel: int
    var progress: int

    /** getPlayerTotalExperience. */
    function Total(): int
      reads this
    {
      ExperienceForLevel(experienceLevel) + progress
    }

    ghost predicate Valid()
      reads this
    {
      experienceLevel >= 0 && 0 <= progress < ExperienceLimitOnLevel(experienceLevel)
    }

    /** setPlayerTotalExperience: negative totals become 0; the level is the floor level of the total. */
    method SetTotal(experience: int)
      modifies this
      ensures Valid() && Total() == Max(0, experience)
      ensures experienceLevel == FloorLevel(Max(0, experience))
    {
      var xp := Max(0, experience);
      experienceLevel := LevelForExperience(xp);
      progress := xp - ExperienceForLevel(experienceLevel);
    }

    /** addExperienceToPlayer: amounts <= 0 are ignored. */
    method AddExperience(amount: int)
      requires Valid()
      modifies this
      ensures Valid() && Total() == AfterAddition(old(Total()), amount)
      ensures amount <= 0 ==> experienceLevel == old(experienceLevel) && progress == old(progress)
    {
      if amount <= 0 {
        return;
      }
      var xp := Total() + amount;
      experienceLevel := LevelForExperience(xp);
      progress := xp - ExperienceForLevel(experienceLevel);
    }

    /** removeExperienceFromPlayer: removes min(amount, total) and returns it. */
    method RemoveExperience(amount: int) returns (removed: int)
      requires Valid()
      modifies this
      ensures removed == Removal(old(Total()), amount)
      ensures Valid() && Total() == AfterRemoval(old(Total()), amount)
    {
      if amount <= 0 {
        return 0;
      }
      var current := Total();
      removed := Min(amount, current);
      if removed > 0 {
        SetTotal(current - removed);
      }
    }
  }

  // -----------------------------------------------------------------------
  // The tanks' capabilities
  // -----------------------------------------------------------------------

  /** One capability per tank stack (null for a stack without one); no two stacks share one. */
  predicate Distinct(caps: seq<Cap.ExperiencePumpCapability?>)
  {
    forall i, j :: 0 <= i < j < |caps| && caps[i] != null ==> caps[i] != caps[j]
  }

  ghost function Footprint(caps: seq<Cap.ExperiencePumpCapability?>): set<Cap.ExperiencePumpCapability>
  {
    set c: Cap.ExperiencePumpCapability | c in caps
  }

  /** The capability of one stack is in the state the model lists for it. */
  ghost predicate Matches(cap: Cap.ExperiencePumpCapability?, t: Option<Cap.PumpState>)
    reads cap
  {
    (cap == null <==> t.None?) && (cap != null ==> cap.Valid() && cap.State() == t.value)
  }

  /** The capabilities are in the states `tanks` lists, and each keeps its invariant. */
  ghost predicate Holds(caps: seq<Cap.ExperiencePumpCapability?>, tanks: Tanks)
    reads Footprint(caps)
  {
    && |caps| == |tanks|
    && AllSane(tanks)
    && forall i {:trigger caps[i], tanks[i]} :: 0 <= i < |caps| ==> Matches(caps[i], tanks[i])
  }

  /** Distinct stacks have distinct capabilities, so updating one leaves the others alone. */
  lemma DistinctAt(caps: seq<Cap.ExperiencePumpCapability?>, j: nat, k: nat)
    requires Distinct(caps) && j < |caps| && k < |caps| && j != k && caps[j] != null
    ensures caps[j] != caps[k]
  {
    if k < j {
      assert caps[k] != caps[j];
    }
  }

  /** The stack indices of the ordered entries: the order the loops visit the tanks in. */
  function Stacks(entries: seq<Entry>): (r: seq<nat>)
    ensures |r| == |entries| && forall i :: 0 <= i < |r| ==> r[i] == entries[i].stack
  {
    seq(|entries|, i requires 0 <= i < |entries| => entries[i].stack)
  }

  // -----------------------------------------------------------------------
  // ItemExperiencePump's helpers the handler calls
  // -----------------------------------------------------------------------

  /** extractAllExperience: empties the tank into the player and returns the amount. */
  method ExtractAllExperience(cap: Cap.ExperiencePumpCapability?, player: Player) returns (extracted: int)
    requires cap != null ==> cap.Valid()
    requires player.Valid()
    modifies cap, player
    ensures player.Valid() && (cap != null ==> cap.Valid())
    ensures cap == null ==> extracted == 0
    ensures cap != null ==> extracted == old(Max(0, cap.xpStored)) && cap.State() == old(cap.State()).(xpStored := old(cap.xpStored) - extracted)
    ensures player.Total() == old(player.Total()) + extracted
  {
    if cap == null {
      return 0;
    }
    var storedXp := cap.xpStored;
    if storedXp <= 0 {
      return 0;
    }
    extracted := cap.TakeXp(storedXp);
    if extracted > 0 {
      player.AddExperience(extracted);
    }
  }

  /** storeAllExperience: offers the tank the player's whole total and takes what addXp accepts. */
  method StoreAllExperience(cap: Cap.ExperiencePumpCapability?, player: Player) returns (stored: int)
    requires cap != null ==> cap.Valid()
    requires player.Valid()
    modifies cap, player
    ensures player.Valid() && (cap != null ==> cap.Valid())
    ensures cap == null ==> stored == 0
    ensures cap != null ==> (stored == old(cap.State()).XpAccepted(old(player.Total())) &&
      cap.State() == old(cap.State()).(xpStored := old(cap.xpStored) + stored))
    ensures player.Total() == old(player.Total()) - stored
  {
    if cap == null {
      return 0;
    }
    var playerTotal := player.Total();
    if playerTotal <= 0 {
      return 0;
    }
    stored := cap.AddXp(playerTotal);
    if stored > 0 {
      var removed := player.RemoveExperience(stored);
    }
  }

  /** pumpExperienceBetweenPlayerAndTank, run on each tank after a MODE press. */
  method PumpBetween(player: Player, cap: Cap.ExperiencePumpCapability)
    requires player.Valid() && cap.Valid()
    modifies player, cap
    ensures player.Valid() && cap.Valid()
    ensures Pumped(cap.State(), player.Total()) == Pump(old(cap.State()), old(player.Total()))
  {
    ghost var s0 := cap.State();
    var retain := cap.retainLevel;
    var playerTotal := player.Total();
    var targetXp := ExperienceForLevel(retain);
    ghost var expected := Pump(s0, playerTotal);
    if cap.mode == Cap.ModeFromPlayer {
      if playerTotal > targetXp {
        var take := Min(playerTotal - targetXp, cap.State().MaxXp() - cap.xpStored);
        if take > 0 {
          var removed := player.RemoveExperience(take);
          var added := cap.AddXp(take);
          assert cap.State() == expected.tank && player.Total() == expected.playerXp;
        }
      }
    } else if cap.mode == Cap.ModeToPlayer {
      if playerTotal < targetXp && cap.xpStored > 0 {
        var need := targetXp - playerTotal;
        var give := cap.TakeXp(Min(need, PumpToPlayerLimit));
        if give > 0 {
          player.AddExperience(give);
        }
        assert cap.State() == expected.tank && player.Total() == expected.playerXp;
      }
    }
  }

  // -----------------------------------------------------------------------
  // One pass of each loop: one stack's capability and the player
  // -----------------------------------------------------------------------

  /** A TAKE_ONE pass over stack k while XP is still needed. */
  method DrainTank(caps: seq<Cap.ExperiencePumpCapability?>, k: nat, player: Player, need: int, ghost before: Transfer)
    returns (left: int)
    requires Distinct(caps) && k < |caps| && Holds(caps, before.tanks) && player.Valid()
    requires need == before.remaining > 0
    modifies caps[k], player
    ensures player.Valid()
    ensures Holds(caps, DrainStep(before, k).tanks) && left == DrainStep(before, k).remaining
    ensures player.Total() == old(player.Total()) + (before.remaining - left)
  {
    assert Matches(caps[k], before.tanks[k]);
    left := need;
    var cap := caps[k];
    if cap != null {
      var available := cap.xpStored;
      if available > 0 {
        var extracted := cap.TakeXp(Min(available, left));
        if extracted > 0 {
          left := left - extracted;
          player.AddExperience(extracted);
        }
      }
    }
    forall j | 0 <= j < |caps|
      ensures Matches(caps[j], DrainStep(before, k).tanks[j])
    {
      if j != k && caps[j] != null {
        DistinctAt(caps, j, k);
      }
    }
  }

  /** A STORE_ONE pass over stack k while XP is still to be stored. */
  method FillTank(caps: seq<Cap.ExperiencePumpCapability?>, k: nat, player: Player, budget: int, ghost before: Transfer)
    returns (left: int)
    requires Distinct(caps) && k < |caps| && Holds(caps, before.tanks) && player.Valid()
    requires budget == before.remaining && 0 < budget <= player.Total()
    modifies caps[k], player
    ensures player.Valid()
    ensures Holds(caps, FillStep(before, k).tanks) && left == FillStep(before, k).remaining
    ensures player.Total() == old(player.Total()) - (before.remaining - left) && left <= player.Total()
  {
    assert Matches(caps[k], before.tanks[k]);
    left := budget;
    var cap := caps[k];
    if cap != null {
      var availableSpace := cap.State().MaxXp() - cap.xpStored;
      if availableSpace > 0 {
        var stored := cap.AddXp(Min(availableSpace, left));
        if stored > 0 {
          left := left - stored;
          var removed := player.RemoveExperience(stored);
        }
      }
    }
    forall j | 0 <= j < |caps|
      ensures Matches(caps[j], FillStep(before, k).tanks[j])
    {
      if j != k && caps[j] != null {
        DistinctAt(caps, j, k);
      }
    }
  }

  /** A TAKE_ALL pass over stack k. */
  method EmptyTank(caps: seq<Cap.ExperiencePumpCapability?>, k: nat, player: Player, ghost before: Tanks)
    requires Distinct(caps) && k < |caps| && Holds(caps, before) && player.Valid()
    modifies caps[k], player
    ensures player.Valid() && Holds(caps, EmptyStep(before, k))
    ensures player.Total() == old(player.Total()) + (Stored(before) - Stored(EmptyStep(before, k)))
  {
    assert Matches(caps[k], before[k]);
    var extracted := ExtractAllExperience(caps[k], player);
    if caps[k] != null {
      StoredUpdate(before, k, Some(caps[k].State()));
    }
    forall j | 0 <= j < |caps|
      ensures Matches(caps[j], EmptyStep(before, k)[j])
    {
      if j != k && caps[j] != null {
        DistinctAt(caps, j, k);
      }
    }
  }

  /** A STORE_ALL pass over stack k: the budget is whatever the player has left. */
  method StoreAllTank(caps: seq<Cap.ExperiencePumpCapability?>, k: nat, player: Player, ghost before: Transfer)
    requires Distinct(caps) && k < |caps| && Holds(caps, before.tanks) && player.Valid()
    requires player.Total() == before.remaining
    modifies caps[k], player
    ensures player.Valid()
    ensures Holds(caps, FillStep(before, k).tanks) && player.Total() == FillStep(before, k).remaining
  {
    assert Matches(caps[k], before.tanks[k]);
    if caps[k] != null {
      FillStepIsStoreAll(before, k);
    }
    var stored := StoreAllExperience(caps[k], player);
    forall j | 0 <= j < |caps|
      ensures Matches(caps[j], FillStep(before, k).tanks[j])
    {
      if j != k && caps[j] != null {
        DistinctAt(caps, j, k);
      }
    }
  }

  /** A MODE, RETAIN_UP, RETAIN_DOWN or MENDING pass over stack k. */
  method SettingsTank(caps: seq<Cap.ExperiencePumpCapability?>, k: nat, player: Player, action: int, step: int, ghost before: Outcome)
    requires Distinct(caps) && k < |caps| && Holds(caps, before.tanks) && player.Valid()
    requires player.Total() == before.playerXp
    modifies caps[k], player
    ensures player.Valid()
    ensures Holds(caps, SettingsStep(before, k, action, step).tanks)
    ensures player.Total() == SettingsStep(before, k, action, step).playerXp
  {
    assert Matches(caps[k], before.tanks[k]);
    var cap := caps[k];
    if cap != null {
      UpdateOneTank(cap, player, action, step);
    }
    forall j | 0 <= j < |caps|
      ensures Matches(caps[j], SettingsStep(before, k, action, step).tanks[j])
    {
      if j != k && caps[j] != null {
        DistinctAt(caps, j, k);
      }
    }
  }

  /** The settings loop's inner switch on the action, for one capability. */
  method UpdateOneTank(cap: Cap.ExperiencePumpCapability, player: Player, action: int, step: int)
    requires cap.Valid() && Sane(cap.State()) && player.Valid()
    modifies cap, player
    ensures cap.Valid() && player.Valid()
    ensures Pumped(cap.State(), player.Total()) == Adjusted(old(cap.State()), old(player.Total()), action, step)
  {
    ghost var s := cap.State();
    if action == ActionMode {
      cap.SetMode(NextMode(cap.mode));
      Cap.ModeSetterValid(cap.config, s, NextMode(s.mode));
      PumpBetween(player, cap);
    } else if action == ActionRetainUp {
      cap.SetRetainLevel(Wrap32(cap.retainLevel + step));
      Cap.RetainSetterValid(cap.config, s, Wrap32(s.retainLevel + step));
    } else if action == ActionRetainDown {
      cap.SetRetainLevel(Max(0, Wrap32(cap.retainLevel - step)));
      Cap.RetainSetterValid(cap.config, s, Max(0, Wrap32(s.retainLevel - step)));
    } else if action == ActionMending {
      cap.SetUseForMending(!cap.useForMending);
    }
  }

  // -----------------------------------------------------------------------
  // The loops over the ordered tanks
  // -----------------------------------------------------------------------

  /** TAKE_ONE's loop: drains the tanks in order until `need` XP has reached the player. */
  method DrainTanks(caps: seq<Cap.ExperiencePumpCapability?>, order: seq<nat>, player: Player, need: int, ghost tanks: Tanks)
    requires Distinct(caps) && Holds(caps, tanks) && Indexes(order, tanks) && player.Valid() && need > 0
    modifies Footprint(caps), player
    ensures player.Valid()
    ensures var r := DrainRun(tanks, order, need, |order|);
      Holds(caps, r.tanks) && player.Total() == old(player.Total()) + (need - r.remaining)
  {
    var totalXpNeeded := need;
    var i := 0;
    while i < |order|
      invariant 0 <= i <= |order|
      invariant Holds(caps, DrainRun(tanks, order, need, i).tanks) && totalXpNeeded == DrainRun(tanks, order, need, i).remaining
      invariant player.Valid() && player.Total() == old(player.Total()) + (need - totalXpNeeded)
    {
      if totalXpNeeded <= 0 {
        break;
      }
      ghost var before := DrainRun(tanks, order, need, i);
      totalXpNeeded := DrainTank(caps, order[i], player, totalXpNeeded, before);
      assert DrainRun(tanks, order, need, i + 1) == DrainStep(before, order[i]);
      i := i + 1;
    }
    if totalXpNeeded <= 0 {
      DrainSettled(tanks, order, need, i, |order|);
    }
  }

  /** TAKE_ONE: takes the XP of `value` levels (at least one) above the player's level from the tanks in order. */
  method TakeLevels(caps: seq<Cap.ExperiencePumpCapability?>, order: seq<nat>, player: Player, value: int, ghost tanks: Tanks)
    requires Distinct(caps) && Holds(caps, tanks) && Indexes(order, tanks) && player.Valid()
    modifies Footprint(caps), player
    ensures player.Valid()
    ensures var need := TakeNeed(old(player.experienceLevel), StepOf(value));
      var r := DrainRun(tanks, order, need, |order|);
      Holds(caps, r.tanks) && player.Total() == old(player.Total()) + (need - r.remaining)
  {
    var levelsToTake := StepOf(value);
    var currentLevel := player.experienceLevel;
    var need := ExperienceBetweenLevels(currentLevel, Wrap32(currentLevel + levelsToTake));
    if need <= 0 {
      DrainSettled(tanks, order, need, 0, |order|);
      return;
    }
    DrainTanks(caps, order, player, need, tanks);
  }

  /** STORE_ONE's loop: fills the tanks in order until `budget` XP has left the player. */
  method FillTanks(caps: seq<Cap.ExperiencePumpCapability?>, order: seq<nat>, player: Player, budget: int, ghost tanks: Tanks)
    requires Distinct(caps) && Holds(caps, tanks) && Indexes(order, tanks) && player.Valid()
    requires 0 < budget <= player.Total()
    modifies Footprint(caps), player
    ensures player.Valid()
    ensures var r := FillRun(tanks, order, budget, |order|);
      Holds(caps, r.tanks) && player.Total() == old(player.Total()) - (budget - r.remaining)
  {
    var totalXpToStore := budget;
    var i := 0;
    while i < |order|
      invariant 0 <= i <= |order|
      invariant Holds(caps, FillRun(tanks, order, budget, i).tanks) && totalXpToStore == FillRun(tanks, order, budget, i).remaining
      invariant player.Valid() && player.Total() == old(player.Total()) - (budget - totalXpToStore)
      invariant totalXpToStore <= player.Total()
    {
      if totalXpToStore <= 0 {
        break;
      }
      ghost var before := FillRun(tanks, order, budget, i);
      totalXpToStore := FillTank(caps, order[i], player, totalXpToStore, before);
      assert FillRun(tanks, order, budget, i + 1) == FillStep(before, order[i]);
      i := i + 1;
    }
    if totalXpToStore <= 0 {
      FillSettled(tanks, order, budget, i, |order|);
    }
  }

  /**
   * STORE_ONE: stores the XP of `value` levels (at least one) below the
   * player's level, never taking the player below that level's start.
   */
  method StoreLevels(caps: seq<Cap.ExperiencePumpCapability?>, order: seq<nat>, player: Player, value: int, ghost tanks: Tanks)
    requires Distinct(caps) && Holds(caps, tanks) && Indexes(order, tanks) && player.Valid()
    modifies Footprint(caps), player
    ensures player.Valid()
    ensures var budget := StoreBudget(old(player.experienceLevel), old(player.Total()), StepOf(value));
      var r := FillRun(tanks, order, budget, |order|);
      Holds(caps, r.tanks) && player.Total() == old(player.Total()) - (budget - r.remaining)
  {
    var levelsToStore := StepOf(value);
    var currentLevel := player.experienceLevel;
    var targetLevel := Max(0, Wrap32(currentLevel - levelsToStore));
    var budget := ExperienceBetweenLevels(targetLevel, currentLevel);
    ghost var budget0 := StoreBudget(currentLevel, player.Total(), levelsToStore);
    if budget <= 0 {
      FillSettled(tanks, order, budget0, 0, |order|);
      return;
    }
    var playerTotal := player.Total();
    var targetTotal := ExperienceForLevel(targetLevel);
    if playerTotal <= targetTotal {
      FillSettled(tanks, order, budget0, 0, |order|);
      return;
    }
    budget := Min(budget, playerTotal - targetTotal);
    FillTanks(caps, order, player, budget, tanks);
  }

  /** TAKE_ALL: empties every tank into the player, in order. */
  method TakeAll(caps: seq<Cap.ExperiencePumpCapability?>, order: seq<nat>, player: Player, ghost tanks: Tanks)
    requires Distinct(caps) && Holds(caps, tanks) && Indexes(order, tanks) && player.Valid()
    modifies Footprint(caps), player
    ensures player.Valid()
    ensures var r := EmptyRun(tanks, order, |order|);
      Holds(caps, r) && player.Total() == old(player.Total()) + (Stored(tanks) - Stored(r))
  {
    var i := 0;
    while i < |order|
      invariant 0 <= i <= |order| && Holds(caps, EmptyRun(tanks, order, i))
      invariant player.Valid() && player.Total() == old(player.Total()) + (Stored(tanks) - Stored(EmptyRun(tanks, order, i)))
    {
      ghost var before := EmptyRun(tanks, order, i);
      EmptyTank(caps, order[i], player, before);
      assert EmptyRun(tanks, order, i + 1) == EmptyStep(before, order[i]);
      i := i + 1;
    }
  }

  /** STORE_ALL: offers each tank in order everything the player has left. */
  method StoreAll(caps: seq<Cap.ExperiencePumpCapability?>, order: seq<nat>, player: Player, ghost tanks: Tanks)
    requires Distinct(caps) && Holds(caps, tanks) && Indexes(order, tanks) && player.Valid()
    modifies Footprint(caps), player
    ensures player.Valid()
    ensures var r := FillRun(tanks, order, old(player.Total()), |order|);
      Holds(caps, r.tanks) && player.Total() == r.remaining
  {
    ghost var total0 := player.Total();
    var i := 0;
    while i < |order|
      invariant 0 <= i <= |order|
      invariant Holds(caps, FillRun(tanks, order, total0, i).tanks)
      invariant player.Valid() && player.Total() == FillRun(tanks, order, total0, i).remaining
    {
      ghost var before := FillRun(tanks, order, total0, i);
      StoreAllTank(caps, order[i], player, before);
      assert FillRun(tanks, order, total0, i + 1) == FillStep(before, order[i]);
      i := i + 1;
    }
  }

  /** MODE, RETAIN_UP, RETAIN_DOWN and MENDING applied to every tank in order. */
  method UpdateTankSettings(caps: seq<Cap.ExperiencePumpCapability?>, order: seq<nat>, player: Player, action: int, value: int, ghost tanks: Tanks)
    requires Distinct(caps) && Holds(caps, tanks) && Indexes(order, tanks) && player.Valid()
    requires IsSettingsAction(action)
    modifies Footprint(caps), player
    ensures player.Valid()
    ensures var r := SettingsRun(tanks, order, old(player.Total()), action, StepOf(value), |order|);
      Holds(caps, r.tanks) && player.Total() == r.playerXp
  {
    var step := StepOf(value);
    ghost var total0 := player.Total();
    var i := 0;
    while i < |order|
      invariant 0 <= i <= |order|
      invariant Holds(caps, SettingsRun(tanks, order, total0, action, step, i).tanks)
      invariant player.Valid() && player.Total() == SettingsRun(tanks, order, total0, action, step, i).playerXp
    {
      ghost var before := SettingsRun(tanks, order, total0, action, step, i);
      SettingsTank(caps, order[i], player, action, step, before);
      assert SettingsRun(tanks, order, total0, action, step, i + 1) == SettingsStep(before, order[i], action, step);
      i := i + 1;
    }
  }

  // -----------------------------------------------------------------------
  // The controller and the whole handler
  // -----------------------------------------------------------------------

  /** The controller item's settings after a MODE, RETAIN_UP, RETAIN_DOWN or MENDING press. */
  function ControllerAfter(view: Ctrl.StackView, action: int, value: int): (r: Ctrl.StackView)
    ensures !view.isEmpty ==>
      && Ctrl.GetMode(r) == (if action == ActionMode then ControllerNextMode(Ctrl.GetMode(view)) else Ctrl.GetMode(view))
      && Ctrl.GetRetainLevel(r) == (if action == ActionRetainUp then RetainRaised(Ctrl.GetRetainLevel(view), StepOf(value))
           else if action == ActionRetainDown then RetainLowered(Ctrl.GetRetainLevel(view), StepOf(value))
           else Ctrl.GetRetainLevel(view))
      && Ctrl.IsUseForMending(r) == (Ctrl.IsUseForMending(view) != (action == ActionMending))
  {
    var mode := Ctrl.GetMode(view);
    var retain := Ctrl.GetRetainLevel(view);
    var mending := Ctrl.IsUseForMending(view);
    var step := StepOf(value);
    Ctrl.WithControllerData(view,
      if action == ActionMode then ControllerNextMode(mode) else mode,
      if action == ActionRetainUp then RetainRaised(retain, step)
      else if action == ActionRetainDown then RetainLowered(retain, step)
      else retain,
      if action == ActionMending then !mending else mending)
  }

  method UpdateController(held: Ctrl.ControllerStack, action: int, value: int)
    modifies held
    ensures held.View() == ControllerAfter(old(held.View()), action, value)
  {
    ghost var view := held.View();
    var ctrlMode := Ctrl.GetMode(held.View());
    var ctrlRetain := Ctrl.GetRetainLevel(held.View());
    var ctrlMend := Ctrl.IsUseForMending(held.View());
    var step := StepOf(value);
    if action == ActionMode {
      ctrlMode := ControllerNextMode(ctrlMode);
    } else if action == ActionRetainUp {
      ctrlRetain := RetainRaised(ctrlRetain, step);
    } else if action == ActionRetainDown {
      ctrlRetain := RetainLowered(ctrlRetain, step);
    } else if action == ActionMending {
      ctrlMend := !ctrlMend;
    }
    assert Ctrl.WithControllerData(view, ctrlMode, ctrlRetain, ctrlMend) == ControllerAfter(view, action, value);
    held.SetControllerData(ctrlMode, ctrlRetain, ctrlMend);
  }

  /** The prioritized order only names stacks that were found. */
  lemma OrderIndexes(found: seq<Entry>, action: int, n: nat)
    requires forall i :: 0 <= i < |found| ==> found[i].stack < n
    ensures forall j :: 0 <= j < |Prioritized(found, action)| ==> Prioritized(found, action)[j].stack < n
  {
    PrioritizedPermutation(found, action);
    forall j | 0 <= j < |Prioritized(found, action)|
      ensures Prioritized(found, action)[j].stack < n
    {
      assert Prioritized(found, action)[j] in multiset(found);
    }
  }

  /** What the handler does to the tanks and the player once it has found tanks. */
  function Handled(found: seq<Entry>, action: int, value: int, tanks: Tanks, level: int, playerXp: int): (r: Outcome)
    requires forall i :: 0 <= i < |found| ==> found[i].stack < |tanks|
    requires AllSane(tanks) && playerXp >= 0
    ensures Stored(r.tanks) + r.playerXp == Stored(tanks) + playerXp && r.playerXp >= 0
  {
    OrderIndexes(found, action, |tanks|);
    var order := Stacks(Prioritized(found, action));
    EffectConserves(action, value, tanks, order, level, playerXp);
    Effect(action, value, tanks, order, level, playerXp)
  }

  /** The switch on the action once the order is known. */
  method RunAction(action: int, value: int, caps: seq<Cap.ExperiencePumpCapability?>, order: seq<nat>, player: Player, ghost tanks: Tanks)
    requires Distinct(caps) && Holds(caps, tanks) && Indexes(order, tanks) && player.Valid()
    modifies Footprint(caps), player
    ensures player.Valid()
    ensures var r := Effect(action, value, tanks, order, old(player.experienceLevel), old(player.Total()));
      Holds(caps, r.tanks) && player.Total() == r.playerXp
  {
    if IsSettingsAction(action) {
      UpdateTankSettings(caps, order, player, action, value, tanks);
    } else if action == ActionTakeAll {
      TakeAll(caps, order, player, tanks);
    } else if action == ActionTakeOne {
      TakeLevels(caps, order, player, value, tanks);
    } else if action == ActionStoreAll {
      StoreAll(caps, order, player, tanks);
    } else if action == ActionStoreOne {
      StoreLevels(caps, order, player, value, tanks);
    }
  }

  /**
   * The handler. `mainHand` and `offHand` are the player's held stacks when
   * they are pump controllers and null otherwise; `found` lists the tanks
   * the player carries, in the order they were found; `caps` holds each
   * stack's capability. The result says whether the "no tanks" message is
   * sent.
   */
  method Handle(handOrdinal: int, action: int, value: int,
                mainHand: Ctrl.ControllerStack?, offHand: Ctrl.ControllerStack?,
                found: seq<Entry>, caps: seq<Cap.ExperiencePumpCapability?>, player: Player, ghost tanks: Tanks)
    returns (noTanksMessage: bool)
    requires Distinct(caps) && Holds(caps, tanks) && player.Valid()
    requires forall i :: 0 <= i < |found| ==> found[i].stack < |caps|
    modifies Footprint(caps), player, mainHand, offHand
    ensures player.Valid()
    ensures var held := if HandOf(handOrdinal) == MainHand then mainHand else offHand;
      var other := if HandOf(handOrdinal) == MainHand then offHand else mainHand;
      && (other != null && other != held ==> unchanged(other))
      && if held == null || held.isEmpty || found == [] then
        && noTanksMessage == (held != null && !held.isEmpty && action == ActionMending)
        && Holds(caps, tanks) && player.Total() == old(player.Total())
        && (held != null ==> unchanged(held))
      else
        var r := Handled(found, action, value, tanks, old(player.experienceLevel), old(player.Total()));
        && !noTanksMessage
        && Holds(caps, r.tanks) && player.Total() == r.playerXp
        && (IsSettingsAction(action) ==> held.View() == ControllerAfter(old(held.View()), action, value))
        && (!IsSettingsAction(action) ==> unchanged(held))
  {
    var held := if HandOf(handOrdinal) == MainHand then mainHand else offHand;
    if held == null || held.isEmpty {
      return false;
    }
    if found == [] {
      return action == ActionMending;
    }
    ghost var level0, total0, view0 := player.experienceLevel, player.Total(), held.View();
    var prioritized := Prioritize(found, action);
    OrderIndexes(found, action, |caps|);
    var order := Stacks(prioritized);
    ghost var r := Handled(found, action, value, tanks, level0, total0);
    assert r == Effect(action, value, tanks, order, level0, total0);
    if IsSettingsAction(action) {
      UpdateController(held, action, value);
    }
    ghost var view1 := held.View();
    RunAction(action, value, caps, order, player, tanks);
    assert Holds(caps, r.tanks) && player.Total() == r.playerXp && held.View() == view1;
    noTanksMessage := false;
  }
}
