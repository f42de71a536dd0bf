/**
 * The order in which PacketPumpAction's handler visits the player's tanks:
 * storing prefers empty tanks, taking prefers filled ones, and tanks the
 * controller manages go before the rest. Each pass is a stable partition.
 */
module PumpActionPriority {
  import opened PacketPumpAction

  /**
   * One entry of the tank list: which stack it is (a stack held in a hand is
   * listed twice, once from the inventory scan and once from the hand scan),
   * the XP its NBT records and whether the controller manages it.
   */
  datatype Entry = Entry(stack: nat, nbtXp: int, managed: bool)

  datatype Group = EmptyTanks | FilledTanks | ManagedTanks | UnmanagedTanks

  predicate InGroup(e: Entry, g: Group)
  {
    match g
    case EmptyTanks => e.nbtXp == 0
    case FilledTanks => e.nbtXp > 0
    case ManagedTanks => e.managed
    case UnmanagedTanks => !e.managed
  }

  predicate IsStore(action: int) { action == ActionStoreOne || action == ActionStoreAll }
  predicate IsTake(action: int) { action == ActionTakeOne || action == ActionTakeAll }

  /** The entries among the first k that belong to g, in their original order. */
  function KeepPrefix(s: seq<Entry>, g: Group, k: nat): (r: seq<Entry>)
    requires k <= |s|
    ensures |r| <= k
    ensures forall i :: 0 <= i < |r| ==> InGroup(r[i], g)
  {
    if k == 0 then []
    else KeepPrefix(s, g, k - 1) + (if InGroup(s[k - 1], g) then [s[k - 1]] else [])
  }

  /** The entries of s that belong to g, in their original order. */
  function Kept(s: seq<Entry>, g: Group): (r: seq<Entry>)
    ensures |r| <= |s|
    ensures forall i :: 0 <= i < |r| ==> InGroup(r[i], g)
  {
    KeepPrefix(s, g, |s|)
  }

  /** The first pass: empty tanks then filled ones to store, the reverse to take, the list itself otherwise. */
  function FirstPass(tanks: seq<Entry>, action: int): seq<Entry>
  {
    if IsStore(action) then Kept(tanks, EmptyTanks) + Kept(tanks, FilledTanks)
    else if IsTake(action) then Kept(tanks, FilledTanks) + Kept(tanks, EmptyTanks)
    else tanks
  }

  /** The list the handler walks: the first pass with managed tanks moved ahead of the others. */
  function Prioritized(tanks: seq<Entry>, action: int): seq<Entry>
  {
    var p := FirstPass(tanks, action);
    Kept(p, ManagedTanks) + Kept(p, UnmanagedTanks)
  }

  // ---- building the list ----

  /** One filtering loop: appends the entries of s that belong to g. */
  method AppendKept(r: seq<Entry>, s: seq<Entry>, g: Group) returns (out: seq<Entry>)
    ensures out == r + Kept(s, g)
  {
    out := r;
    for i := 0 to |s|
      invariant out == r + KeepPrefix(s, g, i)
    {
      if InGroup(s[i], g) {
        out := out + [s[i]];
      }
    }
  }

  /** The loop that sends each entry to the managed or the unmanaged list. */
  method SplitManaged(p: seq<Entry>) returns (managed: seq<Entry>, unmanaged: seq<Entry>)
    ensures managed == Kept(p, ManagedTanks) && unmanaged == Kept(p, UnmanagedTanks)
  {
    managed, unmanaged := [], [];
    for i := 0 to |p|
      invariant managed == KeepPrefix(p, ManagedTanks, i)
      invariant unmanaged == KeepPrefix(p, UnmanagedTanks, i)
    {
      if p[i].managed {
        managed := managed + [p[i]];
      } else {
        unmanaged := unmanaged + [p[i]];
      }
    }
  }

  method Prioritize(tanks: seq<Entry>, action: int) returns (prioritized: seq<Entry>)
    ensures prioritized == Prioritized(tanks, action)
  {
    if IsStore(action) {
      prioritized := AppendKept([], tanks, EmptyTanks);
      prioritized := AppendKept(prioritized, tanks, FilledTanks);
      assert prioritized == Kept(tanks, EmptyTanks) + Kept(tanks, FilledTanks);
    } else if IsTake(action) {
      prioritized := AppendKept([], tanks, FilledTanks);
      prioritized := AppendKept(prioritized, tanks, EmptyTanks);
      assert prioritized == Kept(tanks, FilledTanks) + Kept(tanks, EmptyTanks);
    } else {
      prioritized := tanks;
    }
    var managed, unmanaged := SplitManaged(prioritized);
    prioritized := managed + unmanaged;
  }

  // ---- what the order guarantees ----

  /** Filtering a concatenation filters each part. */
  lemma {:induction false} KeepPrefixAppend(a: seq<Entry>, b: seq<Entry>, g: Group, k: nat)
    requires k <= |b|
    ensures KeepPrefix(a + b, g, |a| + k) == Kept(a, g) + KeepPrefix(b, g, k)
  {
    if k == 0 {
      KeepPrefixOfPrefix(a, b, g, |a|);
    } else {
      KeepPrefixAppend(a, b, g, k - 1);
      assert (a + b)[|a| + k - 1] == b[k - 1];
    }
  }

  /** Filtering the first k entries of a + b, for k within a, only looks at a. */
  lemma {:induction false} KeepPrefixOfPrefix(a: seq<Entry>, b: seq<Entry>, g: Group, k: nat)
    requires k <= |a|
    ensures KeepPrefix(a + b, g, k) == KeepPrefix(a, g, k)
  {
    if k > 0 {
      KeepPrefixOfPrefix(a, b, g, k - 1);
      assert (a + b)[k - 1] == a[k - 1];
    }
  }

  lemma KeptAppend(a: seq<Entry>, b: seq<Entry>, g: Group)
    ensures Kept(a + b, g) == Kept(a, g) + Kept(b, g)
  {
    KeepPrefixAppend(a, b, g, |b|);
  }

  /** Filtering only ever keeps entries of the list. */
  lemma {:induction false} KeepPrefixElements(s: seq<Entry>, g: Group, k: nat)
    requires k <= |s|
    ensures forall x :: x in KeepPrefix(s, g, k) ==> x in s
  {
    if k > 0 {
      KeepPrefixElements(s, g, k - 1);
    }
  }

  lemma KeptElements(s: seq<Entry>, g: Group)
    ensures forall x :: x in Kept(s, g) ==> x in s
  {
    KeepPrefixElements(s, g, |s|);
  }

  /** The step of the filter: the k-th entry is kept exactly when it belongs to g. */
  lemma KeepPrefixLast(s: seq<Entry>, g: Group, k: nat)
    requires 0 < k <= |s|
    ensures multiset(KeepPrefix(s, g, k)) ==
      multiset(KeepPrefix(s, g, k - 1)) + (if InGroup(s[k - 1], g) then multiset{s[k - 1]} else multiset{})
  {
  }

  lemma PrefixLast(s: seq<Entry>, k: nat)
    requires 0 < k <= |s|
    ensures multiset(s[..k]) == multiset(s[..k - 1]) + multiset{s[k - 1]}
  {
    assert s[..k] == s[..k - 1] + [s[k - 1]];
  }

  /** Multiset bookkeeping for one step of the partition. */
  lemma AddParts(a1: multiset<Entry>, a2: multiset<Entry>, b1: multiset<Entry>, b2: multiset<Entry>, c: multiset<Entry>)
    requires a1 + a2 == c
    ensures (a1 + b1) + (a2 + b2) == c + (b1 + b2)
  {
  }

  /** Two groups that never share an entry take each entry at most once between them. */
  lemma {:induction false} KeepPrefixSplit(s: seq<Entry>, g1: Group, g2: Group, k: nat)
    requires k <= |s|
    requires forall i :: 0 <= i < |s| ==> !(InGroup(s[i], g1) && InGroup(s[i], g2))
    ensures multiset(KeepPrefix(s, g1, k)) + multiset(KeepPrefix(s, g2, k)) <= multiset(s[..k])
  {
    if k == 0 {
      assert s[..0] == [];
    } else {
      KeepPrefixSplit(s, g1, g2, k - 1);
      var x := s[k - 1];
      KeepPrefixLast(s, g1, k);
      KeepPrefixLast(s, g2, k);
      PrefixLast(s, k);
      assert !(InGroup(x, g1) && InGroup(x, g2));
    }
  }

  /** One step of the partition: the k-th entry lands in exactly one of the two groups. */
  lemma PartitionStep(s: seq<Entry>, g1: Group, g2: Group, k: nat)
    requires 0 < k <= |s|
    requires InGroup(s[k - 1], g1) != InGroup(s[k - 1], g2)
    requires multiset(KeepPrefix(s, g1, k - 1)) + multiset(KeepPrefix(s, g2, k - 1)) == multiset(s[..k - 1])
    ensures multiset(KeepPrefix(s, g1, k)) + multiset(KeepPrefix(s, g2, k)) == multiset(s[..k])
  {
    var x := s[k - 1];
    KeepPrefixLast(s, g1, k);
    KeepPrefixLast(s, g2, k);
    PrefixLast(s, k);
    var o1 := if InGroup(x, g1) then multiset{x} else multiset{};
    var o2 := if InGroup(x, g2) then multiset{x} else multiset{};
    AddParts(multiset(KeepPrefix(s, g1, k - 1)), multiset(KeepPrefix(s, g2, k - 1)), o1, o2, multiset(s[..k - 1]));
  }

  /** Two groups that share no entry and cover every entry take each entry exactly once between them. */
  lemma KeepPrefixPartition(s: seq<Entry>, g1: Group, g2: Group, k: nat)
    requires k <= |s|
    requires forall i :: 0 <= i < |s| ==> InGroup(s[i], g1) != InGroup(s[i], g2)
    ensures multiset(KeepPrefix(s, g1, k)) + multiset(KeepPrefix(s, g2, k)) == multiset(s[..k])
  {
    assert s[..0] == [];
    var j := 0;
    while j < k
      invariant j <= k
      invariant multiset(KeepPrefix(s, g1, j)) + multiset(KeepPrefix(s, g2, j)) == multiset(s[..j])
    {
      PartitionStep(s, g1, g2, j + 1);
      j := j + 1;
    }
  }

  lemma KeptSplit(s: seq<Entry>, g1: Group, g2: Group)
    requires forall i :: 0 <= i < |s| ==> !(InGroup(s[i], g1) && InGroup(s[i], g2))
    ensures multiset(Kept(s, g1)) + multiset(Kept(s, g2)) <= multiset(s)
  {
    KeepPrefixSplit(s, g1, g2, |s|);
    assert s[..|s|] == s;
  }

  lemma KeptPartition(s: seq<Entry>, g1: Group, g2: Group)
    requires forall i :: 0 <= i < |s| ==> !(InGroup(s[i], g1) && InGroup(s[i], g2))
    requires forall i :: 0 <= i < |s| ==> InGroup(s[i], g1) || InGroup(s[i], g2)
    ensures multiset(Kept(s, g1)) + multiset(Kept(s, g2)) == multiset(s)
  {
    KeepPrefixPartition(s, g1, g2, |s|);
    assert s[..|s|] == s;
  }

  /** Filtering keeps everything that already belongs to the group. */
  lemma {:induction false} KeepPrefixAll(s: seq<Entry>, g: Group, k: nat)
    requires k <= |s| && forall i :: 0 <= i < |s| ==> InGroup(s[i], g)
    ensures KeepPrefix(s, g, k) == s[..k]
  {
    if k > 0 {
      KeepPrefixAll(s, g, k - 1);
      assert s[..k] == s[..k - 1] + [s[k - 1]];
    }
  }

  /** Filtering drops everything when nothing belongs to the group. */
  lemma {:induction false} KeepPrefixNone(s: seq<Entry>, g: Group, k: nat)
    requires k <= |s| && forall i :: 0 <= i < |s| ==> !InGroup(s[i], g)
    ensures KeepPrefix(s, g, k) == []
  {
    if k > 0 {
      KeepPrefixNone(s, g, k - 1);
    }
  }

  lemma KeptAll(s: seq<Entry>, g: Group)
    requires forall i :: 0 <= i < |s| ==> InGroup(s[i], g)
    ensures Kept(s, g) == s
  {
    KeepPrefixAll(s, g, |s|);
  }

  lemma KeptNone(s: seq<Entry>, g: Group)
    requires forall i :: 0 <= i < |s| ==> !InGroup(s[i], g)
    ensures Kept(s, g) == []
  {
    KeepPrefixNone(s, g, |s|);
  }

  /** When a block of g-entries is followed by a block of others, no g-entry comes after another entry. */
  lemma GroupFirst(a: seq<Entry>, b: seq<Entry>, g: Group)
    requires forall i :: 0 <= i < |a| ==> InGroup(a[i], g)
    requires forall i :: 0 <= i < |b| ==> !InGroup(b[i], g)
    ensures forall i, j :: 0 <= i < j < |a + b| && InGroup((a + b)[j], g) ==> InGroup((a + b)[i], g)
  {
    forall i, j | 0 <= i < j < |a + b| && InGroup((a + b)[j], g)
      ensures InGroup((a + b)[i], g)
    {
      assert i < |a|;
    }
  }

  /** The first pass loses only the tanks that are neither empty nor filled, and keeps no such tank. */
  lemma FirstPassPermutation(tanks: seq<Entry>, action: int)
    ensures multiset(FirstPass(tanks, action)) <= multiset(tanks)
    ensures (!IsStore(action) && !IsTake(action)) || (forall i :: 0 <= i < |tanks| ==> tanks[i].nbtXp >= 0) ==>
      multiset(FirstPass(tanks, action)) == multiset(tanks)
    ensures IsStore(action) || IsTake(action) ==>
      forall x :: x in FirstPass(tanks, action) ==> x.nbtXp >= 0
  {
    if IsStore(action) || IsTake(action) {
      var e, f := Kept(tanks, EmptyTanks), Kept(tanks, FilledTanks);
      KeptSplit(tanks, EmptyTanks, FilledTanks);
      if forall i :: 0 <= i < |tanks| ==> tanks[i].nbtXp >= 0 {
        KeptPartition(tanks, EmptyTanks, FilledTanks);
      }
      assert multiset(FirstPass(tanks, action)) == multiset(e) + multiset(f);
      KeptNonNegative(tanks, EmptyTanks);
      KeptNonNegative(tanks, FilledTanks);
    }
  }

  /** Empty and filled tanks record no negative XP. */
  lemma KeptNonNegative(tanks: seq<Entry>, g: Group)
    requires g == EmptyTanks || g == FilledTanks
    ensures forall x :: x in Kept(tanks, g) ==> x.nbtXp >= 0
  {
    var r := Kept(tanks, g);
    forall x | x in r
      ensures x.nbtXp >= 0
    {
      var i :| 0 <= i < |r| && r[i] == x;
      assert InGroup(r[i], g);
    }
  }

  /**
   * Every tank ends up in the list as often as it was found, except that
   * storing and taking skip tanks whose NBT records negative XP (they are
   * neither empty nor filled).
   */
  lemma PrioritizedPermutation(tanks: seq<Entry>, action: int)
    ensures multiset(Prioritized(tanks, action)) <= multiset(tanks)
    ensures (!IsStore(action) && !IsTake(action)) || (forall i :: 0 <= i < |tanks| ==> tanks[i].nbtXp >= 0) ==>
      multiset(Prioritized(tanks, action)) == multiset(tanks)
    ensures IsStore(action) || IsTake(action) ==>
      forall x :: x in Prioritized(tanks, action) ==> x.nbtXp >= 0
  {
    var p := FirstPass(tanks, action);
    FirstPassPermutation(tanks, action);
    KeptPartition(p, ManagedTanks, UnmanagedTanks);
    assert multiset(Prioritized(tanks, action)) == multiset(p);
    forall x | x in Prioritized(tanks, action)
      ensures x in p
    {
      assert x in multiset(p);
    }
  }

  /** Managed tanks come first. */
  lemma ManagedFirst(tanks: seq<Entry>, action: int)
    ensures var r := Prioritized(tanks, action);
      forall i, j :: 0 <= i < j < |r| && r[j].managed ==> r[i].managed
  {
    var p := FirstPass(tanks, action);
    GroupFirst(Kept(p, ManagedTanks), Kept(p, UnmanagedTanks), ManagedTanks);
  }

  /** Each pass keeps the order within each of its groups. */
  lemma PrioritizedStable(tanks: seq<Entry>, action: int)
    ensures Kept(Prioritized(tanks, action), ManagedTanks) == Kept(FirstPass(tanks, action), ManagedTanks)
    ensures Kept(Prioritized(tanks, action), UnmanagedTanks) == Kept(FirstPass(tanks, action), UnmanagedTanks)
    ensures IsStore(action) || IsTake(action) ==>
      Kept(FirstPass(tanks, action), EmptyTanks) == Kept(tanks, EmptyTanks) &&
      Kept(FirstPass(tanks, action), FilledTanks) == Kept(tanks, FilledTanks)
  {
    var p := FirstPass(tanks, action);
    var m, u := Kept(p, ManagedTanks), Kept(p, UnmanagedTanks);
    KeptAppend(m, u, ManagedTanks);
    KeptAppend(m, u, UnmanagedTanks);
    KeptAll(m, ManagedTanks);
    KeptNone(u, ManagedTanks);
    KeptAll(u, UnmanagedTanks);
    KeptNone(m, UnmanagedTanks);
    assert m + [] == m && [] + u == u;
    if IsStore(action) || IsTake(action) {
      var e, f := Kept(tanks, EmptyTanks), Kept(tanks, FilledTanks);
      KeptAll(e, EmptyTanks);
      KeptNone(f, EmptyTanks);
      KeptAll(f, FilledTanks);
      KeptNone(e, FilledTanks);
      assert e + [] == e && [] + e == e && f + [] == f && [] + f == f;
      if IsStore(action) {
        KeptAppend(e, f, EmptyTanks);
        KeptAppend(e, f, FilledTanks);
      } else {
        KeptAppend(f, e, EmptyTanks);
        KeptAppend(f, e, FilledTanks);
      }
    }
  }

  /** Filtering a + b, where a lies inside g and b outside, still puts every g-entry first. */
  lemma BlockOrder(a: seq<Entry>, b: seq<Entry>, g: Group, h: Group)
    requires forall i :: 0 <= i < |a| ==> InGroup(a[i], g)
    requires forall i :: 0 <= i < |b| ==> !InGroup(b[i], g)
    ensures var r := Kept(a + b, h);
      forall i, j :: 0 <= i < j < |r| && InGroup(r[j], g) ==> InGroup(r[i], g)
  {
    KeptAppend(a, b, h);
    KeptElements(a, h);
    KeptElements(b, h);
    var ka, kb := Kept(a, h), Kept(b, h);
    assert forall i :: 0 <= i < |ka| ==> ka[i] in a;
    assert forall i :: 0 <= i < |kb| ==> kb[i] in b;
    GroupFirst(ka, kb, g);
  }

  /** Within the managed block and within the unmanaged block, the first pass's preference still holds. */
  lemma PreferenceWithinBlocks(tanks: seq<Entry>, action: int)
    requires IsStore(action) || IsTake(action)
    ensures var r := Prioritized(tanks, action);
      forall i, j :: 0 <= i < j < |r| && r[i].managed == r[j].managed ==>
        (IsStore(action) && r[j].nbtXp == 0 ==> r[i].nbtXp == 0) &&
        (IsTake(action) && r[j].nbtXp > 0 ==> r[i].nbtXp > 0)
  {
    var first := if IsStore(action) then EmptyTanks else FilledTanks;
    var a := if IsStore(action) then Kept(tanks, EmptyTanks) else Kept(tanks, FilledTanks);
    var b := if IsStore(action) then Kept(tanks, FilledTanks) else Kept(tanks, EmptyTanks);
    assert FirstPass(tanks, action) == a + b;
    BlockOrder(a, b, first, ManagedTanks);
    BlockOrder(a, b, first, UnmanagedTanks);
    var m, u := Kept(a + b, ManagedTanks), Kept(a + b, UnmanagedTanks);
    var r := Prioritized(tanks, action);
    assert r == m + u;
    forall i, j | 0 <= i < j < |r| && r[i].managed == r[j].managed
      ensures InGroup(r[j], first) ==> InGroup(r[i], first)
    {
      if j < |m| {
        assert r[i] == m[i] && r[j] == m[j];
      } else if i >= |m| {
        assert r[i] == u[i - |m|] && r[j] == u[j - |m|];
      }
    }
  }
}
