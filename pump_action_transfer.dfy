/**
 * What PacketPumpAction's handler does to the tanks and to the player's
 * experience, stated on values: the tanks as a sequence of capability states
 * (None for a stack without the capability), the order the handler visits
 * them in as indices into that sequence (a tank may appear twice), and the
 * player's experience as one integer total.
 */
module PumpActionTransfer {
  import opened Wrappers
  import opened JavaInt
  import opened XpHelper
  import opened PacketPumpAction
  import Cap = RsringPumpCapability

  type Tanks = seq<Option<Cap.PumpState>>

  /** What every capability keeps true of itself (see RsringPumpCapability.PumpState.Valid). */
  predicate Sane(s: Cap.PumpState)
  {
    0 <= s.xpStored <= s.MaxXp() && Cap.ModeFromPlayer <= s.mode <= Cap.ModeOff && s.retainLevel >= 0
  }

  predicate AllSane(ts: Tanks)
  {
    forall i :: 0 <= i < |ts| && ts[i].Some? ==> Sane(ts[i].value)
  }

  /** Every entry of the visiting order names one of the tanks. */
  predicate Indexes(order: seq<nat>, ts: Tanks)
  {
    forall j :: 0 <= j < |order| ==> order[j] < |ts|
  }

  function XpIn(t: Option<Cap.PumpState>): int
  {
    if t.Some? then t.value.xpStored else 0
  }

  /** The XP held by all tanks together. */
  function Stored(ts: Tanks): int
  {
    if ts == [] then 0 else Stored(ts[..|ts| - 1]) + XpIn(ts[|ts| - 1])
  }

  /** Replacing one tank changes the total by the difference. */
  lemma {:induction false} StoredUpdate(ts: Tanks, i: nat, t: Option<Cap.PumpState>)
    requires i < |ts|
    ensures Stored(ts[i := t]) == Stored(ts) - XpIn(ts[i]) + XpIn(t)
  {
    var n := |ts|;
    if i == n - 1 {
      assert ts[i := t][..n - 1] == ts[..n - 1];
    } else {
      assert ts[i := t][..n - 1] == ts[..n - 1][i := t];
      StoredUpdate(ts[..n - 1], i, t);
    }
  }

  /** The same tank with only its XP changed, and not upwards. */
  predicate Lowered(before: Option<Cap.PumpState>, after: Option<Cap.PumpState>)
  {
    after.Some? == before.Some? &&
    (after.Some? ==> after.value == before.value.(xpStored := after.value.xpStored) && after.value.xpStored <= before.value.xpStored)
  }

  /** The same tank with only its XP changed, and not downwards. */
  predicate Raised(before: Option<Cap.PumpState>, after: Option<Cap.PumpState>)
  {
    after.Some? == before.Some? &&
    (after.Some? ==> after.value == before.value.(xpStored := after.value.xpStored) && after.value.xpStored >= before.value.xpStored)
  }

  // -----------------------------------------------------------------------
  // The player's experience (XpHelper's player methods)
  // -----------------------------------------------------------------------

  /** The value removeExperienceFromPlayer returns: 0 for amount <= 0, else min(amount, total). */
  function Removal(total: int, amount: int): (r: int)
    ensures total >= 0 ==> 0 <= r <= total
    ensures amount > 0 && amount <= total ==> r == amount
  {
    if amount <= 0 then 0 else Min(amount, total)
  }

  /** The player's total after removeExperienceFromPlayer: lowered only when something is removed. */
  function AfterRemoval(total: int, amount: int): (r: int)
    ensures total >= 0 ==> r == total - Removal(total, amount) && r >= 0
  {
    var actual := Removal(total, amount);
    if actual > 0 then Max(0, total - actual) else total
  }

  /** The player's total after addExperienceToPlayer: amounts <= 0 are ignored. */
  function AfterAddition(total: int, amount: int): (r: int)
    ensures r == total + Max(0, amount)
  {
    if amount <= 0 then total else total + amount
  }

  // -----------------------------------------------------------------------
  // TAKE_ONE: drain the tanks in order until `need` XP has been taken
  // -----------------------------------------------------------------------

  /** The tanks and the XP still to move. */
  datatype Transfer = Transfer(tanks: Tanks, remaining: int)

  /** One pass of the TAKE_ONE loop. */
  function DrainStep(t: Transfer, stack: nat): (r: Transfer)
    requires stack < |t.tanks| && AllSane(t.tanks)
    ensures |r.tanks| == |t.tanks| && AllSane(r.tanks)
  {
    if t.remaining <= 0 then t
    else match t.tanks[stack]
      case None => t
      case Some(s) =>
        if s.xpStored <= 0 then t
        else
          var taken := s.XpTaken(Min(s.xpStored, t.remaining));
          if taken > 0 then Transfer(t.tanks[stack := Some(s.(xpStored := s.xpStored - taken))], t.remaining - taken)
          else t
  }

  /** The TAKE_ONE loop after its first k passes. */
  function DrainRun(tanks: Tanks, order: seq<nat>, need: int, k: nat): (r: Transfer)
    requires k <= |order| && Indexes(order, tanks) && AllSane(tanks)
    ensures |r.tanks| == |tanks| && AllSane(r.tanks)
  {
    if k == 0 then Transfer(tanks, need)
    else DrainStep(DrainRun(tanks, order, need, k - 1), order[k - 1])
  }

  /** One pass moves XP from one tank to the player: the tanks lose exactly what the need shrinks by. */
  lemma DrainStepConserves(t: Transfer, stack: nat)
    requires stack < |t.tanks| && AllSane(t.tanks)
    ensures var r := DrainStep(t, stack);
      Stored(r.tanks) + (t.remaining - r.remaining) == Stored(t.tanks)
  {
    var r := DrainStep(t, stack);
    if r != t {
      StoredUpdate(t.tanks, stack, r.tanks[stack]);
    }
  }

  /** One pass never takes more than is still needed, and does nothing once the need is met. */
  lemma DrainStepBounds(t: Transfer, stack: nat)
    requires stack < |t.tanks| && AllSane(t.tanks)
    ensures var r := DrainStep(t, stack);
      && r.remaining <= t.remaining
      && (t.remaining > 0 ==> r.remaining >= 0)
      && (t.remaining <= 0 ==> r == t)
  {
  }

  /** What one pass does to tank `i`: the visited tank only loses XP, and is emptied unless the need is met; the others are untouched. */
  lemma DrainStepAt(t: Transfer, stack: nat, i: nat)
    requires stack < |t.tanks| && i < |t.tanks| && AllSane(t.tanks)
    ensures var r := DrainStep(t, stack);
      && (i != stack ==> r.tanks[i] == t.tanks[i])
      && (i == stack ==> Lowered(t.tanks[i], r.tanks[i]))
      && (i == stack && r.remaining > 0 && r.tanks[i].Some? ==> r.tanks[i].value.xpStored == 0)
  {
  }

  /** Every point taken from the tanks reaches the player; none is created or lost. */
  lemma {:induction false} DrainConserves(tanks: Tanks, order: seq<nat>, need: int, k: nat)
    requires k <= |order| && Indexes(order, tanks) && AllSane(tanks)
    ensures var r := DrainRun(tanks, order, need, k);
      Stored(r.tanks) + (need - r.remaining) == Stored(tanks)
  {
    if k > 0 {
      DrainConserves(tanks, order, need, k - 1);
      DrainStepConserves(DrainRun(tanks, order, need, k - 1), order[k - 1]);
    }
  }

  /** The XP taken never exceeds what was asked for, and nothing moves when nothing is asked for. */
  lemma {:induction false} DrainBounded(tanks: Tanks, order: seq<nat>, need: int, k: nat)
    requires k <= |order| && Indexes(order, tanks) && AllSane(tanks)
    ensures var r := DrainRun(tanks, order, need, k);
      && (need > 0 ==> 0 <= r.remaining <= need)
      && (need <= 0 ==> r == Transfer(tanks, need))
  {
    if k > 0 {
      DrainBounded(tanks, order, need, k - 1);
      DrainStepBounds(DrainRun(tanks, order, need, k - 1), order[k - 1]);
    }
  }

  /** Each tank only loses XP, never below zero, and nothing else about it changes; tanks not visited are untouched. */
  lemma {:induction false} DrainLowers(tanks: Tanks, order: seq<nat>, need: int, k: nat)
    requires k <= |order| && Indexes(order, tanks) && AllSane(tanks)
    ensures var r := DrainRun(tanks, order, need, k);
      && (forall i :: 0 <= i < |tanks| ==> Lowered(tanks[i], r.tanks[i]))
      && (forall i :: 0 <= i < |tanks| && i !in order[..k] ==> r.tanks[i] == tanks[i])
  {
    if k > 0 {
      DrainLowers(tanks, order, need, k - 1);
      var o := DrainRun(tanks, order, need, k - 1);
      assert order[..k] == order[..k - 1] + [order[k - 1]];
      forall i | 0 <= i < |tanks|
        ensures Lowered(tanks[i], DrainRun(tanks, order, need, k).tanks[i])
        ensures i !in order[..k] ==> DrainRun(tanks, order, need, k).tanks[i] == tanks[i]
      {
        DrainStepAt(o, order[k - 1], i);
      }
    }
  }

  /** When the need is not met, every visited tank has been emptied. */
  lemma {:induction false} DrainExhausts(tanks: Tanks, order: seq<nat>, need: int, k: nat)
    requires k <= |order| && Indexes(order, tanks) && AllSane(tanks)
    ensures var r := DrainRun(tanks, order, need, k);
      r.remaining > 0 ==> forall j :: 0 <= j < k && r.tanks[order[j]].Some? ==> r.tanks[order[j]].value.xpStored == 0
  {
    if k > 0 {
      DrainExhausts(tanks, order, need, k - 1);
      var o := DrainRun(tanks, order, need, k - 1);
      var r := DrainRun(tanks, order, need, k);
      DrainStepBounds(o, order[k - 1]);
      if r.remaining > 0 {
        forall j | 0 <= j < k && r.tanks[order[j]].Some?
          ensures r.tanks[order[j]].value.xpStored == 0
        {
          DrainStepAt(o, order[k - 1], order[j]);
        }
      }
    }
  }

  /** Once the need is met, later passes change nothing (the loop's early break). */
  lemma {:induction false} DrainSettled(tanks: Tanks, order: seq<nat>, need: int, i: nat, k: nat)
    requires i <= k <= |order| && Indexes(order, tanks) && AllSane(tanks)
    requires DrainRun(tanks, order, need, i).remaining <= 0
    ensures DrainRun(tanks, order, need, k) == DrainRun(tanks, order, need, i)
  {
    if k > i {
      DrainSettled(tanks, order, need, i, k - 1);
    }
  }

  // -----------------------------------------------------------------------
  // STORE_ONE and STORE_ALL: fill the tanks in order from a budget
  // -----------------------------------------------------------------------

  /**
   * One pass of the STORE_ONE loop. STORE_ALL's storeAllExperience moves
   * the same amount when the budget is the player's whole total.
   */
  function FillStep(t: Transfer, stack: nat): (r: Transfer)
    requires stack < |t.tanks| && AllSane(t.tanks)
    ensures |r.tanks| == |t.tanks| && AllSane(r.tanks)
  {
    if t.remaining <= 0 then t
    else match t.tanks[stack]
      case None => t
      case Some(s) =>
        var space := s.MaxXp() - s.xpStored;
        if space <= 0 then t
        else
          var stored := s.XpAccepted(Min(space, t.remaining));
          if stored > 0 then Transfer(t.tanks[stack := Some(s.(xpStored := s.xpStored + stored))], t.remaining - stored)
          else t
  }

  /** The STORE_ONE loop after its first k passes. */
  function FillRun(tanks: Tanks, order: seq<nat>, budget: int, k: nat): (r: Transfer)
    requires k <= |order| && Indexes(order, tanks) && AllSane(tanks)
    ensures |r.tanks| == |tanks| && AllSane(r.tanks)
  {
    if k == 0 then Transfer(tanks, budget)
    else FillStep(FillRun(tanks, order, budget, k - 1), order[k - 1])
  }

  /** One pass moves XP from the budget into one tank: the tanks gain exactly what the budget shrinks by. */
  lemma FillStepConserves(t: Transfer, stack: nat)
    requires stack < |t.tanks| && AllSane(t.tanks)
    ensures var r := FillStep(t, stack);
      Stored(r.tanks) == Stored(t.tanks) + (t.remaining - r.remaining)
  {
    var r := FillStep(t, stack);
    if r != t {
      StoredUpdate(t.tanks, stack, r.tanks[stack]);
    }
  }

  /** One pass never stores more than the budget left, and does nothing once it is spent. */
  lemma FillStepBounds(t: Transfer, stack: nat)
    requires stack < |t.tanks| && AllSane(t.tanks)
    ensures var r := FillStep(t, stack);
      && r.remaining <= t.remaining
      && (t.remaining > 0 ==> r.remaining >= 0)
      && (t.remaining <= 0 ==> r == t)
  {
  }

  /** What one pass does to tank `i`: the visited tank only gains XP, and is full unless the budget is spent; the others are untouched. */
  lemma FillStepAt(t: Transfer, stack: nat, i: nat)
    requires stack < |t.tanks| && i < |t.tanks| && AllSane(t.tanks)
    ensures var r := FillStep(t, stack);
      && (i != stack ==> r.tanks[i] == t.tanks[i])
      && (i == stack ==> Raised(t.tanks[i], r.tanks[i]))
      && (i == stack && r.remaining > 0 && r.tanks[i].Some? ==> r.tanks[i].value.xpStored == r.tanks[i].value.MaxXp())
  {
  }

  /** Every point taken from the budget lands in a tank. */
  lemma {:induction false} FillConserves(tanks: Tanks, order: seq<nat>, budget: int, k: nat)
    requires k <= |order| && Indexes(order, tanks) && AllSane(tanks)
    ensures var r := FillRun(tanks, order, budget, k);
      Stored(r.tanks) == Stored(tanks) + (budget - r.remaining)
  {
    if k > 0 {
      FillConserves(tanks, order, budget, k - 1);
      FillStepConserves(FillRun(tanks, order, budget, k - 1), order[k - 1]);
    }
  }

  /** The XP stored never exceeds the budget, and nothing moves without one. */
  lemma {:induction false} FillBounded(tanks: Tanks, order: seq<nat>, budget: int, k: nat)
    requires k <= |order| && Indexes(order, tanks) && AllSane(tanks)
    ensures var r := FillRun(tanks, order, budget, k);
      && (budget > 0 ==> 0 <= r.remaining <= budget)
      && (budget <= 0 ==> r == Transfer(tanks, budget))
  {
    if k > 0 {
      FillBounded(tanks, order, budget, k - 1);
      FillStepBounds(FillRun(tanks, order, budget, k - 1), order[k - 1]);
    }
  }

  /** Each tank only gains XP, never past its capacity, and nothing else about it changes; tanks not visited are untouched. */
  lemma {:induction false} FillRaises(tanks: Tanks, order: seq<nat>, budget: int, k: nat)
    requires k <= |order| && Indexes(order, tanks) && AllSane(tanks)
    ensures var r := FillRun(tanks, order, budget, k);
      && (forall i :: 0 <= i < |tanks| ==> Raised(tanks[i], r.tanks[i]))
      && (forall i :: 0 <= i < |tanks| && i !in order[..k] ==> r.tanks[i] == tanks[i])
  {
    if k > 0 {
      FillRaises(tanks, order, budget, k - 1);
      var o := FillRun(tanks, order, budget, k - 1);
      assert order[..k] == order[..k - 1] + [order[k - 1]];
      forall i | 0 <= i < |tanks|
        ensures Raised(tanks[i], FillRun(tanks, order, budget, k).tanks[i])
        ensures i !in order[..k] ==> FillRun(tanks, order, budget, k).tanks[i] == tanks[i]
      {
        FillStepAt(o, order[k - 1], i);
      }
    }
  }

  /** When budget is left over, every visited tank is full. */
  lemma {:induction false} FillExhausts(tanks: Tanks, order: seq<nat>, budget: int, k: nat)
    requires k <= |order| && Indexes(order, tanks) && AllSane(tanks)
    ensures var r := FillRun(tanks, order, budget, k);
      r.remaining > 0 ==> forall j :: 0 <= j < k && r.tanks[order[j]].Some? ==>
        r.tanks[order[j]].value.xpStored == r.tanks[order[j]].value.MaxXp()
  {
    if k > 0 {
      FillExhausts(tanks, order, budget, k - 1);
      var o := FillRun(tanks, order, budget, k - 1);
      var r := FillRun(tanks, order, budget, k);
      FillStepBounds(o, order[k - 1]);
      if r.remaining > 0 {
        forall j | 0 <= j < k && r.tanks[order[j]].Some?
          ensures r.tanks[order[j]].value.xpStored == r.tanks[order[j]].value.MaxXp()
        {
          FillStepAt(o, order[k - 1], order[j]);
        }
      }
    }
  }

  /** Once the budget is spent, later passes change nothing (the loop's early break). */
  lemma {:induction false} FillSettled(tanks: Tanks, order: seq<nat>, budget: int, i: nat, k: nat)
    requires i <= k <= |order| && Indexes(order, tanks) && AllSane(tanks)
    requires FillRun(tanks, order, budget, i).remaining <= 0
    ensures FillRun(tanks, order, budget, k) == FillRun(tanks, order, budget, i)
  {
    if k > i {
      FillSettled(tanks, order, budget, i, k - 1);
    }
  }

  /**
   * storeAllExperience offers the tank the player's whole total and moves
   * what addXp accepts: the same as one fill pass whose budget is that total.
   */
  lemma FillStepIsStoreAll(t: Transfer, stack: nat)
    requires stack < |t.tanks| && AllSane(t.tanks) && t.tanks[stack].Some?
    ensures var s := t.tanks[stack].value;
      var accepted := s.XpAccepted(t.remaining);
      FillStep(t, stack) ==
        if accepted > 0 then Transfer(t.tanks[stack := Some(s.(xpStored := s.xpStored + accepted))], t.remaining - accepted)
        else t
  {
  }

  // -----------------------------------------------------------------------
  // TAKE_ALL: empty every tank in order
  // -----------------------------------------------------------------------

  /** One pass of the TAKE_ALL loop (extractAllExperience): the tank is emptied. */
  function EmptyStep(ts: Tanks, stack: nat): (r: Tanks)
    requires stack < |ts| && AllSane(ts)
    ensures |r| == |ts| && AllSane(r)
  {
    match ts[stack]
    case None => ts
    case Some(s) =>
      if s.xpStored <= 0 then ts
      else
        var taken := s.XpTaken(s.xpStored);
        if taken > 0 then ts[stack := Some(s.(xpStored := s.xpStored - taken))] else ts
  }

  function EmptyRun(tanks: Tanks, order: seq<nat>, k: nat): (r: Tanks)
    requires k <= |order| && Indexes(order, tanks) && AllSane(tanks)
    ensures |r| == |tanks| && AllSane(r)
  {
    if k == 0 then tanks else EmptyStep(EmptyRun(tanks, order, k - 1), order[k - 1])
  }

  /** TAKE_ALL empties exactly the visited tanks and changes nothing else about them. */
  lemma {:induction false} EmptyRunEffect(tanks: Tanks, order: seq<nat>, k: nat)
    requires k <= |order| && Indexes(order, tanks) && AllSane(tanks)
    ensures var r := EmptyRun(tanks, order, k);
      && (forall i :: 0 <= i < |tanks| ==> Lowered(tanks[i], r[i]))
      && (forall i :: 0 <= i < |tanks| && i in order[..k] && r[i].Some? ==> r[i].value.xpStored == 0)
      && (forall i :: 0 <= i < |tanks| && i !in order[..k] ==> r[i] == tanks[i])
  {
    if k > 0 {
      EmptyRunEffect(tanks, order, k - 1);
      assert order[..k] == order[..k - 1] + [order[k - 1]];
    }
  }

  // -----------------------------------------------------------------------
  // MODE, RETAIN_UP, RETAIN_DOWN, MENDING on every tank
  // -----------------------------------------------------------------------

  /** The player's experience beside the tanks. */
  datatype Outcome = Outcome(tanks: Tanks, playerXp: int)

  /** A tank and the player's total after pumpExperienceBetweenPlayerAndTank. */
  datatype Pumped = Pumped(tank: Cap.PumpState, playerXp: int)

  /** The most a single MODE press hands back to the player from one tank. */
  const PumpToPlayerLimit: int := 100

  /**
   * pumpExperienceBetweenPlayerAndTank: in FROM mode the XP above the
   * retain level's total moves into the tank, as much as fits; in TO mode a
   * player below it gets up to 100 points back.
   */
  function Pump(s: Cap.PumpState, playerXp: int): (r: Pumped)
    requires Sane(s) && playerXp >= 0
    ensures Sane(r.tank) && r.playerXp >= 0
    ensures r.tank == s.(xpStored := r.tank.xpStored)
  {
    var target := ExperienceForLevel(s.retainLevel);
    if s.mode == Cap.ModeFromPlayer then
      if playerXp > target then
        var take := Min(playerXp - target, s.MaxXp() - s.xpStored);
        if take > 0 then
          var after := AfterRemoval(playerXp, take);
          Pumped(s.(xpStored := s.xpStored + s.XpAccepted(take)), after)
        else Pumped(s, playerXp)
      else Pumped(s, playerXp)
    else if s.mode == Cap.ModeToPlayer then
      if playerXp < target && s.xpStored > 0 then
        var give := s.XpTaken(Min(target - playerXp, PumpToPlayerLimit));
        Pumped(s.(xpStored := s.xpStored - give), AfterAddition(playerXp, give))
      else Pumped(s, playerXp)
    else Pumped(s, playerXp)
  }

  /**
   * The pump moves XP, never creates it: FROM mode never takes the player
   * below the retain level's total, TO mode never lifts them above it and
   * gives at most 100 points.
   */
  lemma PumpFacts(s: Cap.PumpState, playerXp: int)
    requires Sane(s) && playerXp >= 0
    ensures var r := Pump(s, playerXp);
      && r.tank.xpStored + r.playerXp == s.xpStored + playerXp
      && (s.mode == Cap.ModeOff ==> r == Pumped(s, playerXp))
      && (s.mode == Cap.ModeFromPlayer ==>
            r.playerXp <= playerXp && (r.playerXp < playerXp ==> r.playerXp >= ExperienceForLevel(s.retainLevel)))
      && (s.mode == Cap.ModeToPlayer ==>
            playerXp <= r.playerXp <= playerXp + PumpToPlayerLimit && (r.playerXp > playerXp ==> r.playerXp <= ExperienceForLevel(s.retainLevel)))
  {
  }

  /** The level count a button applies: the message's value when positive, otherwise 1. */
  function StepOf(value: int): (r: int)
    ensures r >= 1
    ensures value > 0 ==> r == value
  {
    if value > 0 then value else 1
  }

  /** The MODE button's next mode: 0 -> 1 -> 2 -> 0. */
  function NextMode(mode: int): (r: int)
    requires Cap.ModeFromPlayer <= mode <= Cap.ModeOff
    ensures Cap.ModeFromPlayer <= r <= Cap.ModeOff && r != mode
  {
    (mode + 1) % 3
  }

  /** What one settings button does to one tank (and, for MODE, to the player). */
  function Adjusted(s: Cap.PumpState, playerXp: int, action: int, step: int): (r: Pumped)
    requires Sane(s) && playerXp >= 0
    ensures Sane(r.tank) && r.playerXp >= 0
    ensures action != ActionMode ==> r.playerXp == playerXp
  {
    if action == ActionMode then
      Pump(s.WithMode(NextMode(s.mode)), playerXp)
    else if action == ActionRetainUp then
      Pumped(s.WithRetainLevel(Wrap32(s.retainLevel + step)), playerXp)
    else if action == ActionRetainDown then
      Pumped(s.WithRetainLevel(Max(0, Wrap32(s.retainLevel - step))), playerXp)
    else if action == ActionMending then
      Pumped(s.(useForMending := !s.useForMending), playerXp)
    else
      Pumped(s, playerXp)
  }

  /** One pass of the settings loop over the tanks. */
  function SettingsStep(o: Outcome, stack: nat, action: int, step: int): (r: Outcome)
    requires stack < |o.tanks| && AllSane(o.tanks) && o.playerXp >= 0
    ensures |r.tanks| == |o.tanks| && AllSane(r.tanks) && r.playerXp >= 0
  {
    match o.tanks[stack]
    case None => o
    case Some(s) =>
      var p := Adjusted(s, o.playerXp, action, step);
      Outcome(o.tanks[stack := Some(p.tank)], p.playerXp)
  }

  function SettingsRun(tanks: Tanks, order: seq<nat>, playerXp: int, action: int, step: int, k: nat): (r: Outcome)
    requires k <= |order| && Indexes(order, tanks) && AllSane(tanks) && playerXp >= 0
    ensures |r.tanks| == |tanks| && AllSane(r.tanks) && r.playerXp >= 0
  {
    if k == 0 then Outcome(tanks, playerXp)
    else SettingsStep(SettingsRun(tanks, order, playerXp, action, step, k - 1), order[k - 1], action, step)
  }

  /** How often the stack occurs among the first k entries of the order. */
  function Visits(order: seq<nat>, stack: nat, k: nat): (r: nat)
    requires k <= |order|
    ensures r <= k
  {
    if k == 0 then 0
    else Visits(order, stack, k - 1) + (if order[k - 1] == stack then 1 else 0)
  }

  /** A stack is visited at least once exactly when the order lists it. */
  lemma {:induction false} VisitsListed(order: seq<nat>, stack: nat, k: nat)
    requires k <= |order|
    ensures Visits(order, stack, k) == 0 <==> stack !in order[..k]
  {
    if k > 0 {
      VisitsListed(order, stack, k - 1);
      assert order[..k] == order[..k - 1] + [order[k - 1]];
    }
  }

  /** One pass changes only the visited tank, and only the setting the button is for (MODE may also move XP). */
  lemma SettingsStepFacts(o: Outcome, stack: nat, action: int, step: int)
    requires stack < |o.tanks| && AllSane(o.tanks) && o.playerXp >= 0
    ensures var r := SettingsStep(o, stack, action, step);
      && (forall i :: 0 <= i < |o.tanks| && i != stack ==> r.tanks[i] == o.tanks[i])
      && r.tanks[stack].Some? == o.tanks[stack].Some?
      && (o.tanks[stack].None? ==> r == o)
      && (o.tanks[stack].Some? ==> var s, s' := o.tanks[stack].value, r.tanks[stack].value;
            && (action == ActionMode ==> s' == s.(mode := NextMode(s.mode), xpStored := s'.xpStored))
            && (action == ActionRetainDown ==> s' == s.(retainLevel := Max(0, Wrap32(s.retainLevel - step))))
            && (action == ActionMending ==> s' == s.(useForMending := !s.useForMending)))
  {
  }

  /** The XP the settings loop moves between tanks and player adds up; only MODE moves any. */
  lemma {:induction false} SettingsConserve(tanks: Tanks, order: seq<nat>, playerXp: int, action: int, step: int, k: nat)
    requires k <= |order| && Indexes(order, tanks) && AllSane(tanks) && playerXp >= 0
    ensures var r := SettingsRun(tanks, order, playerXp, action, step, k);
      && Stored(r.tanks) + r.playerXp == Stored(tanks) + playerXp
      && (action != ActionMode ==> r.playerXp == playerXp)
  {
    if k > 0 {
      SettingsConserve(tanks, order, playerXp, action, step, k - 1);
      var o := SettingsRun(tanks, order, playerXp, action, step, k - 1);
      var stack := order[k - 1];
      if o.tanks[stack].Some? {
        var s := o.tanks[stack].value;
        var r := SettingsStep(o, stack, action, step);
        StoredUpdate(o.tanks, stack, r.tanks[stack]);
        if action == ActionMode {
          PumpFacts(s.WithMode(NextMode(s.mode)), o.playerXp);
        }
      }
    }
  }

  /**
   * MENDING flips a tank's flag once per visit: a tank visited twice (one
   * held in a hand is listed twice) ends where it started.
   */
  lemma {:induction false} MendingFlipsPerVisit(tanks: Tanks, order: seq<nat>, playerXp: int, step: int, k: nat)
    requires k <= |order| && Indexes(order, tanks) && AllSane(tanks) && playerXp >= 0
    ensures var r := SettingsRun(tanks, order, playerXp, ActionMending, step, k);
      forall i :: 0 <= i < |tanks| && tanks[i].Some? ==>
        r.tanks[i] == Some(tanks[i].value.(useForMending := tanks[i].value.useForMending != (Visits(order, i, k) % 2 == 1)))
  {
    if k > 0 {
      MendingFlipsPerVisit(tanks, order, playerXp, step, k - 1);
    }
  }

  /** MODE advances a tank's mode once per visit, modulo 3. */
  lemma {:induction false} ModeAdvancesPerVisit(tanks: Tanks, order: seq<nat>, playerXp: int, step: int, k: nat, i: nat)
    requires k <= |order| && Indexes(order, tanks) && AllSane(tanks) && playerXp >= 0
    requires i < |tanks| && tanks[i].Some?
    ensures var r := SettingsRun(tanks, order, playerXp, ActionMode, step, k);
      r.tanks[i].Some? && r.tanks[i].value.mode == (tanks[i].value.mode + Visits(order, i, k)) % 3
  {
    if k > 0 {
      ModeAdvancesPerVisit(tanks, order, playerXp, step, k - 1, i);
      var o := SettingsRun(tanks, order, playerXp, ActionMode, step, k - 1);
      ModeStep(o, order[k - 1], step, i);
      var v := Visits(order, i, k - 1);
      if i == order[k - 1] {
        var m := tanks[i].value.mode;
        ModeSum(m, v);
        assert Visits(order, i, k) == v + 1;
      } else {
        assert Visits(order, i, k) == v;
      }
    }
  }

  /** One MODE pass advances the visited tank's mode and no other's. */
  lemma ModeStep(o: Outcome, stack: nat, step: int, i: nat)
    requires stack < |o.tanks| && AllSane(o.tanks) && o.playerXp >= 0 && i < |o.tanks| && o.tanks[i].Some?
    ensures var r := SettingsStep(o, stack, ActionMode, step);
      r.tanks[i].Some? && r.tanks[i].value.mode == if i == stack then NextMode(o.tanks[i].value.mode) else o.tanks[i].value.mode
  {
  }

  lemma ModeSum(m: int, v: nat)
    requires 0 <= m <= 2
    ensures NextMode((m + v) % 3) == (m + v + 1) % 3
  {
  }

  /** RETAIN_DOWN never leaves a retain level below 0 and never raises one. */
  lemma {:induction false} RetainDownStaysInRange(tanks: Tanks, order: seq<nat>, playerXp: int, step: int, k: nat)
    requires k <= |order| && Indexes(order, tanks) && AllSane(tanks) && playerXp >= 0 && 1 <= step <= IntMax
    ensures var r := SettingsRun(tanks, order, playerXp, ActionRetainDown, step, k);
      forall i :: 0 <= i < |tanks| && tanks[i].Some? ==>
        r.tanks[i].Some? && 0 <= r.tanks[i].value.retainLevel <= tanks[i].value.retainLevel &&
        r.tanks[i].value == tanks[i].value.(retainLevel := r.tanks[i].value.retainLevel)
  {
    if k > 0 {
      RetainDownStaysInRange(tanks, order, playerXp, step, k - 1);
      var o := SettingsRun(tanks, order, playerXp, ActionRetainDown, step, k - 1);
      var stack := order[k - 1];
      SettingsStepFacts(o, stack, ActionRetainDown, step);
      if o.tanks[stack].Some? {
        var s := o.tanks[stack].value;
        if s.retainLevel <= IntMax {
          assert IsInt(s.retainLevel - step);
        }
      }
    }
  }

  // -----------------------------------------------------------------------
  // The controller item's own settings
  // -----------------------------------------------------------------------

  /** (mode + 1) % 3 on the controller's stored mode, which may be any int. */
  function ControllerNextMode(mode: int): (r: int)
    ensures -3 < r < 3
    ensures Cap.ModeFromPlayer <= mode <= Cap.ModeOff ==> r == NextMode(mode)
  {
    JavaRem(Wrap32(mode + 1), 3)
  }

  /** Three MODE presses bring a controller in a valid mode back to where it started. */
  lemma ControllerModeCycles(mode: int)
    requires Cap.ModeFromPlayer <= mode <= Cap.ModeOff
    ensures ControllerNextMode(ControllerNextMode(ControllerNextMode(mode))) == mode
    ensures ControllerNextMode(mode) != mode
  {
  }

  function RetainRaised(retain: int, step: int): int
  {
    Wrap32(retain + step)
  }

  function RetainLowered(retain: int, step: int): (r: int)
    ensures r >= 0
  {
    Max(0, Wrap32(retain - step))
  }

  /** Without overflow, RETAIN_UP adds the step and RETAIN_DOWN subtracts it down to 0. */
  lemma RetainArithmetic(retain: int, step: int)
    requires IsInt(retain) && 1 <= step <= IntMax
    ensures retain + step <= IntMax ==> RetainRaised(retain, step) == retain + step
    ensures retain >= 0 ==> RetainLowered(retain, step) == Max(0, retain - step)
  {
  }

  // -----------------------------------------------------------------------
  // The amounts TAKE_ONE and STORE_ONE aim for
  // -----------------------------------------------------------------------

  /** TAKE_ONE's totalXPNeeded: the XP between the current level and `step` levels higher. */
  function TakeNeed(level: int, step: int): int
  {
    ExperienceBetweenLevels(level, Wrap32(level + step))
  }

  /** STORE_ONE's target level: `step` levels lower, but not below 0. */
  function StoreTarget(level: int, step: int): (r: int)
    ensures r >= 0
  {
    Max(0, Wrap32(level - step))
  }

  /**
   * STORE_ONE's totalXPToStore: the XP between the target and the current
   * level, cut down to what the player has above the target's total
   * (0 when they have nothing above it).
   */
  function StoreBudget(level: int, playerXp: int, step: int): int
  {
    var target := StoreTarget(level, step);
    var between := ExperienceBetweenLevels(target, level);
    if between <= 0 then 0
    else if playerXp <= ExperienceForLevel(target) then 0
    else Min(between, playerXp - ExperienceForLevel(target))
  }

  /** The need is exactly the XP of the levels asked for, when nothing overflows. */
  lemma TakeNeedExact(level: int, step: int)
    requires 0 <= level && step >= 1 && IsInt(level + step)
    ensures TakeNeed(level, step) == ExperienceForLevel(level + step) - ExperienceForLevel(level)
    ensures TakeNeed(level, step) > 0
  {
    ExperienceStrictlyIncreasing(level, level + step);
  }

  /** The budget never exceeds the XP of the levels asked for nor what the player has above the target. */
  lemma StoreBudgetBounds(level: int, playerXp: int, step: int)
    requires 0 <= level && step >= 1 && IsInt(level) && IsInt(step)
    ensures var target := Max(0, level - step);
      && 0 <= StoreBudget(level, playerXp, step) <= ExperienceForLevel(level) - ExperienceForLevel(target)
      && StoreBudget(level, playerXp, step) <= Max(0, playerXp - ExperienceForLevel(target))
      && (level > 0 && playerXp > ExperienceForLevel(target) ==> StoreBudget(level, playerXp, step) > 0)
  {
    var target := Max(0, level - step);
    assert StoreTarget(level, step) == target;
    ExperienceMonotone(target, level);
    if level > 0 {
      ExperienceStrictlyIncreasing(target, level);
    }
  }

  // -----------------------------------------------------------------------
  // The whole handler
  // -----------------------------------------------------------------------

  predicate IsSettingsAction(action: int)
  {
    action == ActionMode || action == ActionRetainUp || action == ActionRetainDown || action == ActionMending
  }

  /**
   * The tanks and the player's total after the handler has run the action's
   * loop over the tanks in the given order, starting from a player at
   * `level` with `playerXp` points in all.
   */
  function Effect(action: int, value: int, tanks: Tanks, order: seq<nat>, level: int, playerXp: int): (r: Outcome)
    requires Indexes(order, tanks) && AllSane(tanks) && playerXp >= 0
    ensures |r.tanks| == |tanks| && AllSane(r.tanks)
  {
    var step := StepOf(value);
    if IsSettingsAction(action) then
      SettingsRun(tanks, order, playerXp, action, step, |order|)
    else if action == ActionTakeAll then
      var ts := EmptyRun(tanks, order, |order|);
      Outcome(ts, playerXp + (Stored(tanks) - Stored(ts)))
    else if action == ActionTakeOne then
      var need := TakeNeed(level, step);
      var r := DrainRun(tanks, order, need, |order|);
      Outcome(r.tanks, playerXp + (need - r.remaining))
    else if action == ActionStoreAll then
      var r := FillRun(tanks, order, playerXp, |order|);
      Outcome(r.tanks, r.remaining)
    else if action == ActionStoreOne then
      var budget := StoreBudget(level, playerXp, step);
      var r := FillRun(tanks, order, budget, |order|);
      Outcome(r.tanks, playerXp - (budget - r.remaining))
    else
      Outcome(tanks, playerXp)
  }

  /**
   * Whatever the button, XP only moves between the player and the tanks:
   * their sum is unchanged, and the player never ends below zero.
   */
  lemma EffectConserves(action: int, value: int, tanks: Tanks, order: seq<nat>, level: int, playerXp: int)
    requires Indexes(order, tanks) && AllSane(tanks) && playerXp >= 0
    ensures var r := Effect(action, value, tanks, order, level, playerXp);
      Stored(r.tanks) + r.playerXp == Stored(tanks) + playerXp && r.playerXp >= 0
  {
    var step := StepOf(value);
    if IsSettingsAction(action) {
      SettingsConserve(tanks, order, playerXp, action, step, |order|);
    } else if action == ActionTakeAll {
      EmptyRunEffect(tanks, order, |order|);
      assert Stored(EmptyRun(tanks, order, |order|)) <= Stored(tanks) by {
        StoredLowered(tanks, EmptyRun(tanks, order, |order|));
      }
    } else if action == ActionTakeOne {
      var need := TakeNeed(level, step);
      DrainConserves(tanks, order, need, |order|);
      DrainBounded(tanks, order, need, |order|);
    } else if action == ActionStoreAll {
      FillConserves(tanks, order, playerXp, |order|);
      FillBounded(tanks, order, playerXp, |order|);
    } else if action == ActionStoreOne {
      var budget := StoreBudget(level, playerXp, step);
      FillConserves(tanks, order, budget, |order|);
      FillBounded(tanks, order, budget, |order|);
      StoreBudgetAffordable(level, playerXp, step);
    }
  }

  /** Tanks that only lost XP hold no more than before. */
  lemma {:induction false} StoredLowered(before: Tanks, after: Tanks)
    requires |before| == |after| && forall i :: 0 <= i < |before| ==> Lowered(before[i], after[i])
    ensures Stored(after) <= Stored(before)
  {
    if before != [] {
      var n := |before|;
      StoredLowered(before[..n - 1], after[..n - 1]);
    }
  }

  /** The player always has the STORE_ONE budget to give. */
  lemma StoreBudgetAffordable(level: int, playerXp: int, step: int)
    requires playerXp >= 0
    ensures 0 <= StoreBudget(level, playerXp, step) <= playerXp
  {
  }
}
