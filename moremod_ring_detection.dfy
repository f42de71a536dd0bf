/**
 * com.moremod.experience.RingDetectionResult: the rings found in a player's
 * inventory, grouped by location and by ring type, with the primary ring
 * taken from the location of highest priority (lowest priority number).
 */
module MoremodRingDetection {
  import opened Wrappers
  import opened RingStacks

  datatype InventoryLocation = MainHand | OffHand | BaublesRing | BaublesOther | Hotbar | PlayerInventory
  {
    /** getPriority: a lower number is preferred. */
    function Priority(): (r: int)
      ensures 1 <= r <= |Locations| && Locations[r - 1] == this
    {
      match this
      case MainHand => 1
      case OffHand => 2
      case BaublesRing => 3
      case BaublesOther => 4
      case Hotbar => 5
      case PlayerInventory => 6
    }

    function DisplayName(): string
    {
      match this
      case MainHand => "Main Hand"
      case OffHand => "Off Hand"
      case BaublesRing => "Baubles Ring Slot"
      case BaublesOther => "Baubles Other Slot"
      case Hotbar => "Hotbar"
      case PlayerInventory => "Player Inventory"
    }
  }

  /** InventoryLocation.values(): declaration order, which is also the order an EnumMap iterates in. */
  const Locations: seq<InventoryLocation> := [MainHand, OffHand, BaublesRing, BaublesOther, Hotbar, PlayerInventory]

  /** Declaration order is priority order: the location at index i has priority i + 1. */
  lemma PriorityIsPosition(i: int)
    requires 0 <= i < |Locations|
    ensures Locations[i].Priority() == i + 1
  {
    var l := Locations[i];
    assert Locations[l.Priority() - 1] == l;
    assert forall a, b :: 0 <= a < b < |Locations| ==> Locations[a] != Locations[b];
  }

  type RingMap = map<InventoryLocation, seq<RingStack>>

  /** getRingCount(location): 0 for a location without an entry. */
  function CountAt(byLocation: RingMap, loc: InventoryLocation): (r: nat)
    ensures loc !in byLocation ==> r == 0
  {
    if loc in byLocation then |byLocation[loc]| else 0
  }

  /** getRingType: "Unknown" for an empty stack, else the class name without a leading "Item". */
  function RingType(ring: RingStack): (r: string)
    ensures ring.isEmpty ==> r == "Unknown"
    ensures !ring.isEmpty && |ring.className| >= 4 && ring.className[..4] == "Item" ==> ring.className == "Item" + r
    ensures !ring.isEmpty && !(|ring.className| >= 4 && ring.className[..4] == "Item") ==> r == ring.className
  {
    if ring.isEmpty then "Unknown"
    else if |ring.className| >= 4 && ring.className[..4] == "Item" then
      assert ring.className == ring.className[..4] + ring.className[4..];
      ring.className[4..]
    else ring.className
  }

  /** The first location, in the given order, that holds at least one ring. */
  function FirstNonEmpty(locs: seq<InventoryLocation>, byLocation: RingMap): (r: Option<InventoryLocation>)
    ensures r.Some? ==> r.value in locs && CountAt(byLocation, r.value) > 0
    ensures r.None? <==> forall l :: l in locs ==> CountAt(byLocation, l) == 0
  {
    if locs == [] then None
    else
      var earlier := FirstNonEmpty(locs[..|locs| - 1], byLocation);
      assert forall l :: l in locs ==> l in locs[..|locs| - 1] || l == locs[|locs| - 1];
      if earlier.Some? then earlier
      else if CountAt(byLocation, locs[|locs| - 1]) > 0 then Some(locs[|locs| - 1])
      else None
  }

  /** The first non-empty location has the smallest priority number among the non-empty ones. */
  lemma {:induction false} FirstNonEmptyHasBestPriority(byLocation: RingMap, k: int, l: InventoryLocation)
    requires 0 <= k <= |Locations| && l in Locations[..k] && CountAt(byLocation, l) > 0
    ensures FirstNonEmpty(Locations[..k], byLocation).Some?
    ensures FirstNonEmpty(Locations[..k], byLocation).value.Priority() <= l.Priority()
  {
    var prefix := Locations[..k];
    assert prefix[..k - 1] == Locations[..k - 1];
    if l in Locations[..k - 1] {
      FirstNonEmptyHasBestPriority(byLocation, k - 1, l);
    } else {
      assert l == Locations[k - 1];
      PriorityIsPosition(k - 1);
      var e := FirstNonEmpty(Locations[..k - 1], byLocation);
      if e.Some? {
        var j :| 0 <= j < k - 1 && Locations[j] == e.value;
        PriorityIsPosition(j);
      }
    }
  }

  /** The primary ring the constructor selects: the first ring of the best non-empty location. */
  function PrimaryRingOf(foundRings: seq<RingStack>, byLocation: RingMap): RingStack
  {
    if foundRings == [] then EmptyStack
    else
      match FirstNonEmpty(Locations, byLocation)
      case None => EmptyStack
      case Some(l) => byLocation[l][0]
  }

  /** A location's list contains the ring (rings are compared as values). */
  predicate Holds(byLocation: RingMap, loc: InventoryLocation, ring: RingStack)
  {
    loc in byLocation && ring in byLocation[loc]
  }

  /** The first ring of each type, in list order, and the number of rings of a type. */
  function CountType(rings: seq<RingStack>, t: string): (r: nat)
    ensures r <= |rings|
  {
    if rings == [] then 0
    else CountType(rings[..|rings| - 1], t) + (if RingType(rings[|rings| - 1]) == t then 1 else 0)
  }

  lemma {:induction false} CountTypePositive(rings: seq<RingStack>, i: int)
    requires 0 <= i < |rings|
    ensures CountType(rings, RingType(rings[i])) >= 1
  {
    if i < |rings| - 1 {
      CountTypePositive(rings[..|rings| - 1], i);
    }
  }

  /** Position i holds the first found ring of type t. */
  predicate FirstOfTypeAt(foundRings: seq<RingStack>, t: string, i: int)
  {
    0 <= i < |foundRings| && RingType(foundRings[i]) == t && forall j :: 0 <= j < i ==> RingType(foundRings[j]) != t
  }

  /** ringsByType holds exactly the types of the found rings, each mapped to its first ring. */
  ghost predicate FirstOfEachType(foundRings: seq<RingStack>, byType: map<string, RingStack>)
  {
    && (forall k :: 0 <= k < |foundRings| ==> RingType(foundRings[k]) in byType)
    && (forall t :: t in byType ==> exists i :: FirstOfTypeAt(foundRings, t, i) && foundRings[i] == byType[t])
  }

  /** The map the constructor's loop builds: a ring is put in only when its type is not there yet. */
  function ByType(foundRings: seq<RingStack>): map<string, RingStack>
  {
    if foundRings == [] then map[]
    else
      var m := ByType(foundRings[..|foundRings| - 1]);
      var ring := foundRings[|foundRings| - 1];
      if RingType(ring) in m then m else m[RingType(ring) := ring]
  }

  /** That map has every found type, each mapped to the first ring of it. */
  lemma ByTypeKeepsFirst(foundRings: seq<RingStack>)
    ensures FirstOfEachType(foundRings, ByType(foundRings))
  {
    forall k | 0 <= k < |foundRings|
      ensures RingType(foundRings[k]) in ByType(foundRings)
    {
      ByTypeHas(foundRings, k);
    }
    forall t | t in ByType(foundRings)
      ensures exists i :: FirstOfTypeAt(foundRings, t, i) && foundRings[i] == ByType(foundRings)[t]
    {
      var i := ByTypeFirst(foundRings, t);
    }
  }

  /** Every found ring's type is a key. */
  lemma {:induction false} ByTypeHas(foundRings: seq<RingStack>, k: nat)
    requires k < |foundRings|
    ensures RingType(foundRings[k]) in ByType(foundRings)
  {
    var n := |foundRings| - 1;
    if k < n {
      ByTypeHas(foundRings[..n], k);
    }
  }

  /** Every key maps to the first ring of that type; `i` is its position. */
  lemma {:induction false} ByTypeFirst(foundRings: seq<RingStack>, t: string) returns (i: nat)
    requires t in ByType(foundRings)
    ensures FirstOfTypeAt(foundRings, t, i) && foundRings[i] == ByType(foundRings)[t]
  {
    var n := |foundRings| - 1;
    var p := foundRings[..n];
    if t in ByType(p) {
      i := ByTypeFirst(p, t);
    } else {
      i := n;
      forall j | 0 <= j < n
        ensures RingType(foundRings[j]) != t
      {
        ByTypeHas(p, j);
      }
    }
  }

  /** A constructed result. */
  datatype RingDetectionResult = RingDetectionResult(
    foundRings: seq<RingStack>,
    ringsByType: map<string, RingStack>,
    primaryRing: RingStack,
    primaryLocation: Option<InventoryLocation>,
    ringsByLocation: RingMap)
  {
    predicate HasRings() { |foundRings| > 0 }
    function RingCount(): nat { |foundRings| }
    function RingCountAt(loc: InventoryLocation): nat { CountAt(ringsByLocation, loc) }
    predicate HasRingsInLocation(loc: InventoryLocation) { RingCountAt(loc) > 0 }
    predicate HasRingType(t: string) { t in ringsByType }
  }

  /** buildRingsByType: keeps the first ring met of each type. */
  method BuildRingsByType(foundRings: seq<RingStack>) returns (byType: map<string, RingStack>)
    ensures byType == ByType(foundRings)
    ensures FirstOfEachType(foundRings, byType)
  {
    byType := map[];
    var i := 0;
    while i < |foundRings|
      invariant 0 <= i <= |foundRings|
      invariant byType == ByType(foundRings[..i])
    {
      var ring := foundRings[i];
      var t := RingType(ring);
      assert foundRings[..i + 1][..i] == foundRings[..i];
      if t !in byType {
        byType := byType[t := ring];
      }
      i := i + 1;
    }
    assert foundRings[..i] == foundRings;
    ByTypeKeepsFirst(foundRings);
  }


  /**
   * determinePrimaryRing: walks the locations keeping the ring of the lowest
   * priority number seen so far; EMPTY when there are no rings.
   */
  method DeterminePrimaryRing(foundRings: seq<RingStack>, byLocation: RingMap) returns (primary: RingStack)
    ensures primary == PrimaryRingOf(foundRings, byLocation)
  {
    if foundRings == [] {
      return EmptyStack;
    }
    primary := EmptyStack;
    var highestPriority := 0x7fff_ffff;
    var i := 0;
    while i < |Locations|
      invariant 0 <= i <= |Locations|
      invariant FirstNonEmpty(Locations[..i], byLocation).None? ==> primary == EmptyStack && highestPriority == 0x7fff_ffff
      invariant FirstNonEmpty(Locations[..i], byLocation).Some? ==>
        var l := FirstNonEmpty(Locations[..i], byLocation).value;
        primary == byLocation[l][0] && highestPriority == l.Priority() && highestPriority <= i
    {
      var location := Locations[i];
      assert Locations[..i + 1][..i] == Locations[..i];
      PriorityIsPosition(i);
      var e := FirstNonEmpty(Locations[..i], byLocation);
      if e.Some? {
        var j :| 0 <= j < i && Locations[j] == e.value;
        PriorityIsPosition(j);
      }
      if location in byLocation && |byLocation[location]| > 0 && location.Priority() < highestPriority {
        highestPriority := location.Priority();
        primary := byLocation[location][0];
      }
      i := i + 1;
    }
    assert Locations[..i] == Locations;
  }

  /** determinePrimaryLocation: null for an empty primary, else the first location whose list holds it. */
  method DeterminePrimaryLocation(primary: RingStack, byLocation: RingMap) returns (location: Option<InventoryLocation>)
    ensures primary.isEmpty ==> location.None?
    ensures location.Some? ==> Holds(byLocation, location.value, primary)
    ensures location.Some? ==> forall j :: 0 <= j < location.value.Priority() - 1 ==> !Holds(byLocation, Locations[j], primary)
    ensures location.None? && !primary.isEmpty ==> forall l :: !Holds(byLocation, l, primary)
  {
    if primary.isEmpty {
      return None;
    }
    var i := 0;
    while i < |Locations|
      invariant 0 <= i <= |Locations|
      invariant forall j :: 0 <= j < i ==> !Holds(byLocation, Locations[j], primary)
    {
      if Holds(byLocation, Locations[i], primary) {
        PriorityIsPosition(i);
        return Some(Locations[i]);
      }
      i := i + 1;
    }
    forall l | true
      ensures !Holds(byLocation, l, primary)
    {
      assert Locations[l.Priority() - 1] == l;
    }
    location := None;
  }

  /** The constructor: copies the lists, then derives ringsByType, the primary ring and its location. */
  method NewRingDetectionResult(foundRings: seq<RingStack>, ringsByLocation: RingMap) returns (r: RingDetectionResult)
    ensures r.foundRings == foundRings && r.ringsByLocation == ringsByLocation
    ensures FirstOfEachType(foundRings, r.ringsByType)
    ensures r.primaryRing == PrimaryRingOf(foundRings, ringsByLocation)
    ensures r.primaryLocation.None? <==> r.primaryRing.isEmpty
    ensures r.primaryLocation.Some? ==> r.primaryLocation == FirstNonEmpty(Locations, ringsByLocation)
  {
    var byType := BuildRingsByType(foundRings);
    var primary := DeterminePrimaryRing(foundRings, ringsByLocation);
    var location := DeterminePrimaryLocation(primary, ringsByLocation);
    if !primary.isEmpty {
      var best := FirstNonEmpty(Locations, ringsByLocation);
      assert best.Some? && primary == ringsByLocation[best.value][0];
      assert Holds(ringsByLocation, best.value, primary);
      assert location.Some?;
      var l := location.value;
      assert Locations[l.Priority() - 1] == l;
      assert Locations[best.value.Priority() - 1] == best.value;
      assert Locations[..|Locations|] == Locations;
      FirstNonEmptyHasBestPriority(ringsByLocation, |Locations|, l);
    }
    r := RingDetectionResult(foundRings, byType, primary, location, ringsByLocation);
  }

  /** empty(): no rings, EMPTY primary ring, no primary location. */
  method Empty() returns (r: RingDetectionResult)
    ensures !r.HasRings() && r.RingCount() == 0 && r.primaryRing == EmptyStack && r.primaryLocation.None?
    ensures forall loc :: !r.HasRingsInLocation(loc)
  {
    r := NewRingDetectionResult([], map[]);
  }

  /** The location summary: the non-zero counts, in priority order. */
  function Summary(locs: seq<InventoryLocation>, byLocation: RingMap): (r: seq<(string, int)>)
    ensures |r| <= |locs|
    ensures forall e :: e in r ==> e.1 > 0
    ensures forall loc :: loc in locs && CountAt(byLocation, loc) > 0 ==> (loc.DisplayName(), CountAt(byLocation, loc)) in r
    ensures forall e :: e in r ==> exists loc :: loc in locs && e == (loc.DisplayName(), CountAt(byLocation, loc))
  {
    if locs == [] then []
    else
      var last := locs[|locs| - 1];
      var earlier := Summary(locs[..|locs| - 1], byLocation);
      var count := CountAt(byLocation, last);
      assert forall loc :: loc in locs[..|locs| - 1] ==> loc in locs;
      assert forall loc :: loc in locs ==> loc in locs[..|locs| - 1] || loc == last;
      if count > 0 then earlier + [(last.DisplayName(), count)] else earlier
  }

  /**
   * getLocationSummary: the map's locations sorted by priority. An EnumMap
   * yields its keys in declaration order, which already is priority order,
   * so the walk below visits them in the order the sort produces.
   */
  method LocationSummary(r: RingDetectionResult) returns (summary: seq<(string, int)>)
    ensures summary == Summary(Locations, r.ringsByLocation)
  {
    summary := [];
    var i := 0;
    while i < |Locations|
      invariant 0 <= i <= |Locations|
      invariant summary == Summary(Locations[..i], r.ringsByLocation)
    {
      assert Locations[..i + 1][..i] == Locations[..i];
      var location := Locations[i];
      if location in r.ringsByLocation {
        var count := r.RingCountAt(location);
        if count > 0 {
          summary := summary + [(location.DisplayName(), count)];
        }
      }
      i := i + 1;
    }
    assert Locations[..i] == Locations;
  }

  /** getTypeSummary: for every type in ringsByType, the number of found rings of that type. */
  method TypeSummary(r: RingDetectionResult) returns (summary: map<string, int>)
    requires FirstOfEachType(r.foundRings, r.ringsByType)
    ensures summary.Keys == r.ringsByType.Keys
    ensures forall t :: t in summary ==> summary[t] == CountType(r.foundRings, t) && summary[t] >= 1
  {
    summary := map[];
    var remaining := r.ringsByType.Keys;
    while remaining != {}
      invariant remaining <= r.ringsByType.Keys
      invariant summary.Keys == r.ringsByType.Keys - remaining
      invariant forall t :: t in summary ==> summary[t] == CountType(r.foundRings, t) && summary[t] >= 1
      decreases remaining
    {
      var t :| t in remaining;
      var count := CountOfType(r.foundRings, t);
      ghost var i :| FirstOfTypeAt(r.foundRings, t, i) && r.foundRings[i] == r.ringsByType[t];
      CountTypePositive(r.foundRings, i);
      summary := summary[t := count];
      remaining := remaining - {t};
    }
  }

  /** The inner loop of getTypeSummary: the found rings of type t, counted. */
  method CountOfType(foundRings: seq<RingStack>, t: string) returns (count: int)
    ensures count == CountType(foundRings, t)
  {
    count := 0;
    var j := 0;
    while j < |foundRings|
      invariant 0 <= j <= |foundRings|
      invariant count == CountType(foundRings[..j], t)
    {
      assert foundRings[..j + 1][..j] == foundRings[..j];
      if RingType(foundRings[j]) == t {
        count := count + 1;
      }
      j := j + 1;
    }
    assert foundRings[..j] == foundRings;
  }


  predicate AllNonEmpty(rings: seq<RingStack>)
  {
    forall ring :: ring in rings ==> !ring.isEmpty
  }

  /** Replacing one location's list changes the total by the difference in length. */
  lemma CountAllLocationsUpdate(byLocation: RingMap, loc: InventoryLocation, rings: seq<RingStack>)
    ensures CountAllLocations(byLocation[loc := rings]) == CountAllLocations(byLocation) - CountAt(byLocation, loc) + |rings|
  {
  }

  /** The per-location counts added up over all six locations. */
  function CountAllLocations(byLocation: RingMap): nat
  {
    CountAt(byLocation, MainHand) + CountAt(byLocation, OffHand) + CountAt(byLocation, BaublesRing) +
    CountAt(byLocation, BaublesOther) + CountAt(byLocation, Hotbar) + CountAt(byLocation, PlayerInventory)
  }

  /** The rings addRing keeps from a list: the present, non-empty ones, in order. */
  function NonEmpty(rings: seq<Option<RingStack>>): (r: seq<RingStack>)
    ensures |r| <= |rings|
    ensures forall t :: t in r ==> !t.isEmpty && Some(t) in rings
  {
    if rings == [] then []
    else
      var t := rings[|rings| - 1];
      var rest := NonEmpty(rings[..|rings| - 1]);
      if t.Some? && !t.value.isEmpty then rest + [t.value] else rest
  }

  /**
   * The location lists after appending `added` to the list at `loc`; the
   * location gets a list (computeIfAbsent) only when something is added.
   */
  function Appended(byLocation: RingMap, loc: InventoryLocation, added: seq<RingStack>): (r: RingMap)
    ensures added == [] ==> r == byLocation
    ensures added != [] ==> loc in r && r[loc] == (if loc in byLocation then byLocation[loc] else []) + added
    ensures forall l :: l != loc ==> (l in r <==> l in byLocation) && (l in r ==> r[l] == byLocation[l])
  {
    if added == [] then byLocation
    else byLocation[loc := (if loc in byLocation then byLocation[loc] else []) + added]
  }

  /** The ring an element holds, if it holds a non-empty one. */
  function Kept(ring: Option<RingStack>): seq<RingStack>
  {
    if ring.Some? && !ring.value.isEmpty then [ring.value] else []
  }

  /** One more element of the list adds its ring, if it holds one, at the end. */
  lemma NonEmptyStep(rings: seq<Option<RingStack>>, i: nat)
    requires i < |rings|
    ensures NonEmpty(rings[..i + 1]) == NonEmpty(rings[..i]) + Kept(rings[i])
  {
    assert rings[..i + 1][..i] == rings[..i];
  }

  /** One addRing after `before` was added to the list is adding `before` and the ring it keeps. */
  lemma FoundStep(found: seq<RingStack>, before: seq<RingStack>, ring: Option<RingStack>, f: seq<RingStack>, f2: seq<RingStack>)
    requires f == found + before
    requires ring.Some? && !ring.value.isEmpty ==> f2 == f + [ring.value]
    requires ring.None? || ring.value.isEmpty ==> f2 == f
    ensures f2 == found + (before + Kept(ring))
  {
    assert found + before + Kept(ring) == found + (before + Kept(ring));
  }

  /** One addRing after appending `before` at `loc` is appending `before` and the ring it keeps. */
  lemma AppendedStep(byLocation: RingMap, loc: InventoryLocation, before: seq<RingStack>, ring: Option<RingStack>, m: RingMap, m2: RingMap)
    requires m == Appended(byLocation, loc, before)
    requires ring.Some? && !ring.value.isEmpty ==> m2 == m[loc := (if loc in m then m[loc] else []) + [ring.value]]
    requires ring.None? || ring.value.isEmpty ==> m2 == m
    ensures m2 == Appended(byLocation, loc, before + Kept(ring))
  {
    if ring.Some? && !ring.value.isEmpty {
      AppendedTwice(byLocation, loc, before, [ring.value]);
    } else {
      assert before + Kept(ring) == before;
    }
  }

  lemma AppendedTwice(byLocation: RingMap, loc: InventoryLocation, a: seq<RingStack>, b: seq<RingStack>)
    requires b != []
    ensures Appended(Appended(byLocation, loc, a), loc, b) == Appended(byLocation, loc, a + b)
  {
    var existing := if loc in byLocation then byLocation[loc] else [];
    assert existing + a + b == existing + (a + b);
    if a == [] {
      assert a + b == b;
    } else {
      var mid := byLocation[loc := existing + a];
      assert mid[loc] == existing + a;
      assert mid[loc := existing + a + b] == byLocation[loc := existing + (a + b)];
    }
  }

  /** RingDetectionResult.Builder. */
  class Builder {
    var foundRings: seq<RingStack>
    var ringsByLocation: RingMap

    /** No empty ring is kept, and the list holds exactly as many rings as the location lists. */
    ghost predicate Valid()
      reads this
    {
      && AllNonEmpty(foundRings)
      && (forall l :: l in ringsByLocation ==> AllNonEmpty(ringsByLocation[l]))
      && |foundRings| == CountAllLocations(ringsByLocation)
    }

    constructor ()
      ensures foundRings == [] && ringsByLocation == map[] && Valid()
    {
      foundRings := [];
      ringsByLocation := map[];
    }

    /** addRing: a null or empty ring is ignored. */
    method AddRing(ring: Option<RingStack>, location: InventoryLocation)
      requires Valid()
      modifies this
      ensures Valid()
      ensures ring.Some? && !ring.value.isEmpty ==>
        && foundRings == old(foundRings) + [ring.value]
        && ringsByLocation == old(ringsByLocation)[location := old(if location in ringsByLocation then ringsByLocation[location] else []) + [ring.value]]
      ensures ring.None? || ring.value.isEmpty ==> foundRings == old(foundRings) && ringsByLocation == old(ringsByLocation)
    {
      if ring.Some? && !ring.value.isEmpty {
        foundRings := foundRings + [ring.value];
        var existing := if location in ringsByLocation then ringsByLocation[location] else [];
        CountAllLocationsUpdate(ringsByLocation, location, existing + [ring.value]);
        ringsByLocation := ringsByLocation[location := existing + [ring.value]];
      }
    }

    /** addRings: addRing for each element, in order. */
    method AddRings(rings: Option<seq<Option<RingStack>>>, location: InventoryLocation)
      requires Valid()
      modifies this
      ensures Valid()
      ensures rings.None? ==> foundRings == old(foundRings) && ringsByLocation == old(ringsByLocation)
      ensures rings.Some? ==>
        && foundRings == old(foundRings) + NonEmpty(rings.value)
        && ringsByLocation == Appended(old(ringsByLocation), location, NonEmpty(rings.value))
    {
      if rings.None? {
        return;
      }
      var list := rings.value;
      ghost var found0, byLocation0 := foundRings, ringsByLocation;
      var i := 0;
      while i < |list|
        invariant 0 <= i <= |list|
        invariant Valid()
        invariant foundRings == found0 + NonEmpty(list[..i])
        invariant ringsByLocation == Appended(byLocation0, location, NonEmpty(list[..i]))
      {
        ghost var before, f, m := NonEmpty(list[..i]), foundRings, ringsByLocation;
        NonEmptyStep(list, i);
        AddRing(list[i], location);
        FoundStep(found0, before, list[i], f, foundRings);
        AppendedStep(byLocation0, location, before, list[i], m, ringsByLocation);
        i := i + 1;
      }
      assert list[..i] == list;
    }

    /**
     * build(): for rings collected by the builder, the primary ring is the
     * first ring of the best non-empty location and that is its location.
     */
    method Build() returns (r: RingDetectionResult)
      requires Valid()
      ensures r.foundRings == foundRings && r.ringsByLocation == ringsByLocation
      ensures FirstOfEachType(foundRings, r.ringsByType)
      ensures r.RingCount() == CountAllLocations(r.ringsByLocation)
      ensures r.HasRings() <==> !r.primaryRing.isEmpty
      ensures r.HasRings() ==> r.primaryLocation.Some? && r.primaryLocation == FirstNonEmpty(Locations, ringsByLocation)
      ensures r.HasRings() ==> r.primaryLocation.Some? && r.primaryRing == ringsByLocation[r.primaryLocation.value][0]
      ensures !r.HasRings() ==> r.primaryLocation.None?
    {
      r := NewRingDetectionResult(foundRings, ringsByLocation);
      if |foundRings| > 0 {
        AnyRingGivesFirstLocation(ringsByLocation);
        var e := FirstNonEmpty(Locations, ringsByLocation);
        assert ringsByLocation[e.value][0] in ringsByLocation[e.value];
      }
    }
  }

  /** Some location holds a ring exactly when the walk finds a first non-empty location. */
  lemma AnyRingGivesFirstLocation(byLocation: RingMap)
    requires CountAllLocations(byLocation) > 0
    ensures FirstNonEmpty(Locations, byLocation).Some?
  {
    assert MainHand in Locations && OffHand in Locations && BaublesRing in Locations;
    assert BaublesOther in Locations && Hotbar in Locations && PlayerInventory in Locations;
  }
}
