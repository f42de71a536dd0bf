/**
 * com.rsring.experience.RingDetectionResult: an immutable result of a ring
 * search with a found flag, the ring, its location and slot, and the rings
 * collected per location. Its Builder picks the first ring added as the
 * primary ring, and the first non-empty location in declaration order as
 * the location.
 */
module RsringRingDetection {
  import opened Wrappers
  import opened RingStacks

  datatype InventoryLocation = MainHand | OffHand | Hotbar | PlayerInventory | BaublesRing | Unknown

  /** InventoryLocation.values(), the order an EnumMap iterates in. */
  const Locations: seq<InventoryLocation> := [MainHand, OffHand, Hotbar, PlayerInventory, BaublesRing, Unknown]

  type RingMap = map<InventoryLocation, seq<RingStack>>

  datatype RingDetectionResult = RingDetectionResult(
    found: bool,
    ringStack: RingStack,
    location: InventoryLocation,
    slot: int,
    ringsByLocation: RingMap,
    allRings: seq<RingStack>)
  {
    predicate HasRings() { |allRings| > 0 }
    function RingCount(): nat { |allRings| }

    /** getPrimaryRing: the first ring of the list, EMPTY for none. */
    function PrimaryRing(): RingStack
    {
      if allRings == [] then EmptyStack else allRings[0]
    }

    /** getPrimaryLocation is getLocation. */
    function PrimaryLocation(): InventoryLocation { location }

    /** getRingsFromLocation: an empty list for a location without an entry. */
    function RingsFromLocation(loc: InventoryLocation): seq<RingStack>
    {
      if loc in ringsByLocation then ringsByLocation[loc] else []
    }
  }

  /** The private constructor: a null ring becomes EMPTY, a null location UNKNOWN, null collections empty. */
  function NewResult(found: bool, ring: Option<RingStack>, location: Option<InventoryLocation>, slot: int,
                     ringsByLocation: Option<RingMap>, allRings: Option<seq<RingStack>>): (r: RingDetectionResult)
    ensures r.found == found && r.slot == slot
    ensures r.ringStack == (if ring.None? then EmptyStack else ring.value)
    ensures r.location == (if location.None? then Unknown else location.value)
    ensures ringsByLocation.None? ==> r.ringsByLocation == map[]
    ensures allRings.None? ==> !r.HasRings()
  {
    RingDetectionResult(found, ring.GetOr(EmptyStack), location.GetOr(Unknown), slot,
                        ringsByLocation.GetOr(map[]), allRings.GetOr([]))
  }

  /** found(ring, location, slot): reports found even for an empty ring, which it does not list. */
  function Found(ring: RingStack, location: InventoryLocation, slot: int): (r: RingDetectionResult)
    ensures r.found && r.ringStack == ring && r.location == location && r.slot == slot
    ensures r.HasRings() <==> !ring.isEmpty
    ensures !ring.isEmpty ==> r.PrimaryRing() == ring && r.RingsFromLocation(location) == [ring]
  {
    var byLocation: RingMap := if ring.isEmpty then map[] else map[location := [ring]];
    var list := if ring.isEmpty then [] else [ring];
    NewResult(true, Some(ring), Some(location), slot, Some(byLocation), Some(list))
  }

  /** notFound() and empty(): no rings, location UNKNOWN, slot -1. */
  function NotFound(): (r: RingDetectionResult)
    ensures !r.found && !r.HasRings() && r.RingCount() == 0
    ensures r.ringStack == EmptyStack && r.PrimaryRing() == EmptyStack
    ensures r.location == Unknown && r.slot == -1
  {
    NewResult(false, Some(EmptyStack), Some(Unknown), -1, Some(map[]), Some([]))
  }

  /** The first key of a map in declaration order, UNKNOWN for an empty map. */
  function FirstKey(locs: seq<InventoryLocation>, byLocation: RingMap): (r: InventoryLocation)
    ensures !(exists l :: l in locs && l in byLocation) ==> r == Unknown
    ensures (exists l :: l in locs && l in byLocation) ==>
      r in byLocation && exists i :: 0 <= i < |locs| && locs[i] == r && forall j :: 0 <= j < i ==> locs[j] !in byLocation
  {
    if locs == [] then Unknown
    else if locs[0] in byLocation then locs[0]
    else
      var r := FirstKey(locs[1..], byLocation);
      assert forall l :: l in locs ==> l == locs[0] || l in locs[1..];
      FirstKeyShift(locs, byLocation, r);
      r
  }

  lemma FirstKeyShift(locs: seq<InventoryLocation>, byLocation: RingMap, r: InventoryLocation)
    requires |locs| > 0 && locs[0] !in byLocation
    requires (exists l :: l in locs[1..] && l in byLocation) ==>
      r in byLocation && exists i :: 0 <= i < |locs[1..]| && locs[1..][i] == r && forall j :: 0 <= j < i ==> locs[1..][j] !in byLocation
    ensures (exists l :: l in locs[1..] && l in byLocation) ==>
      exists i :: 0 <= i < |locs| && locs[i] == r && forall j :: 0 <= j < i ==> locs[j] !in byLocation
  {
    if exists l :: l in locs[1..] && l in byLocation {
      var i :| 0 <= i < |locs[1..]| && locs[1..][i] == r && forall j :: 0 <= j < i ==> locs[1..][j] !in byLocation;
      assert locs[i + 1] == r;
      assert forall j :: 0 < j < i + 1 ==> locs[j] == locs[1..][j - 1];
    }
  }

  /** build(): found iff a ring was added; the first ring added; the first key in declaration order. */
  function BuildResult(allRings: seq<RingStack>, ringsByLocation: RingMap): (r: RingDetectionResult)
    ensures r.found <==> |allRings| > 0
    ensures r.ringStack == r.PrimaryRing() && r.slot == -1
    ensures |allRings| > 0 ==> r.ringStack == allRings[0]
    ensures r.location == (if ringsByLocation == map[] then Unknown else FirstKey(Locations, ringsByLocation))
    ensures r.allRings == allRings && r.ringsByLocation == ringsByLocation
  {
    var primary := if allRings == [] then EmptyStack else allRings[0];
    var primaryLocation := if ringsByLocation == map[] then Unknown else FirstKey(Locations, ringsByLocation);
    NewResult(|allRings| > 0, Some(primary), Some(primaryLocation), -1, Some(ringsByLocation), Some(allRings))
  }

  /**
   * The location build() reports need not be the primary ring's: a ring added
   * in the hotbar and then one in the main hand gives the hotbar ring as
   * primary but MAIN_HAND as the location.
   */
  lemma PrimaryLocationMayDiffer()
    ensures var a := RingStack(false, "ItemAbsorbRing", 1);
      var b := RingStack(false, "ItemAbsorbRing", 2);
      var r := BuildResult([a, b], map[Hotbar := [a], MainHand := [b]]);
      r.PrimaryRing() == a && r.location == MainHand && a !in r.RingsFromLocation(MainHand)
  {
    var a := RingStack(false, "ItemAbsorbRing", 1);
    var b := RingStack(false, "ItemAbsorbRing", 2);
    assert FirstKey(Locations, map[Hotbar := [a], MainHand := [b]]) == MainHand;
  }

  /** The builder: appends each non-empty ring to the list and to its location's list. */
  class Builder {
    var ringsByLocation: RingMap
    var allRings: seq<RingStack>

    /** Every location entry is non-empty and every ring listed is non-empty. */
    ghost predicate Valid()
      reads this
    {
      && (forall ring :: ring in allRings ==> !ring.isEmpty)
      && (forall l :: l in ringsByLocation ==> |ringsByLocation[l]| > 0)
      && (ringsByLocation == map[] <==> allRings == [])
    }

    constructor ()
      ensures ringsByLocation == map[] && allRings == [] && Valid()
    {
      ringsByLocation := map[];
      allRings := [];
    }

    /** addRing: an empty ring is ignored. */
    method AddRing(ring: RingStack, location: InventoryLocation)
      requires Valid()
      modifies this
      ensures Valid()
      ensures ring.isEmpty ==> allRings == old(allRings) && ringsByLocation == old(ringsByLocation)
      ensures !ring.isEmpty ==>
        && allRings == old(allRings) + [ring]
        && ringsByLocation == old(ringsByLocation)[location := old(if location in ringsByLocation then ringsByLocation[location] else []) + [ring]]
    {
      if !ring.isEmpty {
        var existing := if location in ringsByLocation then ringsByLocation[location] else [];
        ringsByLocation := ringsByLocation[location := existing + [ring]];
        allRings := allRings + [ring];
      }
    }

    /** build(). */
    method Build() returns (r: RingDetectionResult)
      requires Valid()
      ensures r == BuildResult(allRings, ringsByLocation)
      ensures r.found <==> r.HasRings()
      ensures r.found ==> !r.PrimaryRing().isEmpty
      ensures r.found ==> r.location in ringsByLocation && |r.RingsFromLocation(r.location)| > 0
    {
      r := BuildResult(allRings, ringsByLocation);
      if r.found {
        var l :| l in ringsByLocation;
        assert l in Locations by {
          match l
          case MainHand => assert Locations[0] == l;
          case OffHand => assert Locations[1] == l;
          case Hotbar => assert Locations[2] == l;
          case PlayerInventory => assert Locations[3] == l;
          case BaublesRing => assert Locations[4] == l;
          case Unknown => assert Locations[5] == l;
        }
      }
    }
  }
}
