/**
 * The distribution loops shared by both pump controllers: tanks are put in
 * a priority order with a stable sort (java.util.List.sort), then drained
 * or filled greedily in that order while a running total is kept.
 */
module TankDistribution {
  import opened JavaInt

  /** One tank as the loops see it: where it sits, what it holds, what it can hold. */
  datatype Tank = Tank(slot: int, stored: int, capacity: int)
  {
    function Free(): int { capacity - stored }
  }

  function PositivePart(x: int): (r: int)
    ensures r >= 0 && r >= x
  {
    if x > 0 then x else 0
  }

  function SumOf(s: seq<Tank>, f: Tank -> int): int
  {
    if s == [] then 0 else f(s[0]) + SumOf(s[1..], f)
  }

  function Stored(t: Tank): int { t.stored }
  function PositiveStored(t: Tank): int { PositivePart(t.stored) }
  function PositiveFree(t: Tank): int { PositivePart(t.Free()) }

  lemma {:induction false} SumOfAppend(a: seq<Tank>, b: seq<Tank>, f: Tank -> int)
    ensures SumOf(a + b, f) == SumOf(a, f) + SumOf(b, f)
  {
    if a != [] {
      assert (a + b)[1..] == a[1..] + b;
      SumOfAppend(a[1..], b, f);
    } else {
      assert a + b == b;
    }
  }

  // ---------------------------------------------------------------------
  // Stable sort by an integer key
  // ---------------------------------------------------------------------

  predicate SortedBy(r: seq<Tank>, key: Tank -> int) {
    forall i, j :: 0 <= i < j < |r| ==> key(r[i]) <= key(r[j])
  }

  /** The tanks whose key is k, in their original order. */
  function WithKey(s: seq<Tank>, key: Tank -> int, k: int): (r: seq<Tank>)
    ensures |r| <= |s|
  {
    if s == [] then []
    else WithKey(s[..|s| - 1], key, k) + (if key(s[|s| - 1]) == k then [s[|s| - 1]] else [])
  }

  lemma {:induction false} WithKeyAppend(a: seq<Tank>, b: seq<Tank>, key: Tank -> int, k: int)
    ensures WithKey(a + b, key, k) == WithKey(a, key, k) + WithKey(b, key, k)
    decreases |b|
  {
    if b != [] {
      assert (a + b)[..|a + b| - 1] == a + b[..|b| - 1];
      WithKeyAppend(a, b[..|b| - 1], key, k);
    } else {
      assert a + b == a;
    }
  }

  /** Inserts x after every element whose key is not above x's (so equal keys keep their order). */
  function Insert(r: seq<Tank>, x: Tank, key: Tank -> int): (res: seq<Tank>)
    ensures |res| == |r| + 1
  {
    if r == [] then [x]
    else if key(r[|r| - 1]) <= key(x) then r + [x]
    else Insert(r[..|r| - 1], x, key) + [r[|r| - 1]]
  }

  lemma {:induction false} InsertElements(r: seq<Tank>, x: Tank, key: Tank -> int)
    ensures multiset(Insert(r, x, key)) == multiset(r) + multiset{x}
  {
    if r != [] {
      var last := r[|r| - 1];
      var init := r[..|r| - 1];
      assert r == init + [last];
      if key(last) > key(x) {
        InsertElements(init, x, key);
      }
    }
  }

  lemma {:induction false} InsertSorted(r: seq<Tank>, x: Tank, key: Tank -> int)
    requires SortedBy(r, key)
    ensures SortedBy(Insert(r, x, key), key)
  {
    if r != [] {
      var last := r[|r| - 1];
      var init := r[..|r| - 1];
      assert r == init + [last];
      if key(last) > key(x) {
        InsertSorted(init, x, key);
        InsertElements(init, x, key);
        var ins := Insert(init, x, key);
        forall y | y in ins
          ensures key(y) <= key(last)
        {
          assert y in multiset(ins);
          assert y == x || y in init;
        }
        forall i, j | 0 <= i < j < |ins| + 1
          ensures key((ins + [last])[i]) <= key((ins + [last])[j])
        {
          if j == |ins| {
            assert ins[i] in ins;
          }
        }
      }
    }
  }

  /** Insertion sort; the order Java's stable List.sort produces. */
  function SortBy(s: seq<Tank>, key: Tank -> int): (r: seq<Tank>)
    ensures |r| == |s|
  {
    if s == [] then [] else Insert(SortBy(s[..|s| - 1], key), s[|s| - 1], key)
  }

  /** The sorted list is a permutation of the input, ordered by key. */
  lemma {:induction false} SortByPermutes(s: seq<Tank>, key: Tank -> int)
    ensures multiset(SortBy(s, key)) == multiset(s)
    ensures SortedBy(SortBy(s, key), key)
  {
    if s != [] {
      var init := s[..|s| - 1];
      assert s == init + [s[|s| - 1]];
      SortByPermutes(init, key);
      InsertElements(SortBy(init, key), s[|s| - 1], key);
      InsertSorted(SortBy(init, key), s[|s| - 1], key);
    }
  }

  lemma {:induction false} InsertStable(r: seq<Tank>, x: Tank, key: Tank -> int, k: int)
    ensures WithKey(Insert(r, x, key), key, k) == WithKey(r, key, k) + (if key(x) == k then [x] else [])
  {
    if r != [] {
      var last := r[|r| - 1];
      var init := r[..|r| - 1];
      assert r == init + [last];
      if key(last) <= key(x) {
        WithKeyAppend(r, [x], key, k);
        assert WithKey([x], key, k) == (if key(x) == k then [x] else []) by {
          assert [x][..0] == [];
        }
      } else {
        InsertStable(init, x, key, k);
        var ins := Insert(init, x, key);
        assert (ins + [last])[..|ins + [last]| - 1] == ins;
        assert (init + [last])[..|init + [last]| - 1] == init;
      }
    }
  }

  /** Stability: for every key value, the tanks with that key keep their relative order. */
  lemma {:induction false} SortByStable(s: seq<Tank>, key: Tank -> int, k: int)
    ensures WithKey(SortBy(s, key), key, k) == WithKey(s, key, k)
  {
    if s != [] {
      SortByStable(s[..|s| - 1], key, k);
      InsertStable(SortBy(s[..|s| - 1], key), s[|s| - 1], key, k);
    }
  }

  lemma {:induction false} SumOfInsert(r: seq<Tank>, x: Tank, key: Tank -> int, f: Tank -> int)
    ensures SumOf(Insert(r, x, key), f) == SumOf(r, f) + f(x)
  {
    if r != [] {
      var last := r[|r| - 1];
      var init := r[..|r| - 1];
      assert r == init + [last];
      SumOfAppend(init, [last], f);
      if key(last) <= key(x) {
        SumOfAppend(r, [x], f);
      } else {
        SumOfInsert(init, x, key, f);
        SumOfAppend(Insert(init, x, key), [last], f);
      }
    }
  }

  /** Sorting does not change any sum over the tanks. */
  lemma {:induction false} SumOfSortBy(s: seq<Tank>, key: Tank -> int, f: Tank -> int)
    ensures SumOf(SortBy(s, key), f) == SumOf(s, f)
  {
    if s != [] {
      var init := s[..|s| - 1];
      assert s == init + [s[|s| - 1]];
      SumOfSortBy(init, key, f);
      SumOfInsert(SortBy(init, key), s[|s| - 1], key, f);
      SumOfAppend(init, [s[|s| - 1]], f);
    }
  }

  // ---------------------------------------------------------------------
  // Greedy drain (extraction) and fill (injection)
  // ---------------------------------------------------------------------

  /** What the extraction loop takes from tank t while `remaining` is still wanted. */
  function TakeFrom(t: Tank, remaining: int): (take: int)
    ensures 0 <= take
    ensures remaining > 0 && t.stored > 0 ==> take == Min(remaining, t.stored)
    ensures remaining <= 0 || t.stored <= 0 ==> take == 0
  {
    if remaining <= 0 || t.stored <= 0 then 0 else Min(remaining, t.stored)
  }

  /** What the injection loop puts into tank t while `remaining` is still to be stored. */
  function PutInto(t: Tank, remaining: int): (put: int)
    ensures 0 <= put
    ensures remaining > 0 && t.Free() > 0 ==> put == Min(remaining, t.Free())
    ensures remaining <= 0 || t.Free() <= 0 ==> put == 0
  {
    if remaining <= 0 || t.Free() <= 0 then 0 else Min(remaining, t.Free())
  }

  /** The tanks after the extraction loop, in the order they were visited. */
  function Drained(order: seq<Tank>, amount: int): (r: seq<Tank>)
    ensures |r| == |order|
  {
    if order == [] then []
    else
      var t := order[0];
      [t.(stored := t.stored - TakeFrom(t, amount))] + Drained(order[1..], amount - TakeFrom(t, amount))
  }

  /** Each tank keeps its slot and capacity and gives at most what it holds. */
  lemma {:induction false} DrainedPerTank(order: seq<Tank>, amount: int)
    ensures var r := Drained(order, amount);
      forall i :: 0 <= i < |order| ==>
        && r[i] == order[i].(stored := r[i].stored)
        && (r[i].stored == order[i].stored || 0 <= r[i].stored < order[i].stored)
  {
    if order != [] {
      var t := order[0];
      DrainedPerTank(order[1..], amount - TakeFrom(t, amount));
      var r := Drained(order, amount);
      assert forall i :: 1 <= i < |order| ==> r[i] == Drained(order[1..], amount - TakeFrom(t, amount))[i - 1] && order[i] == order[1..][i - 1];
    }
  }

  lemma {:induction false} DrainedNothing(order: seq<Tank>, amount: int)
    requires amount <= 0
    ensures Drained(order, amount) == order
  {
    if order != [] {
      DrainedNothing(order[1..], amount);
      assert order == [order[0]] + order[1..];
    }
  }

  /** Extraction takes min(amount, total positive XP), whatever the order. */
  lemma {:induction false} DrainedTotal(order: seq<Tank>, amount: int)
    ensures SumOf(order, Stored) - SumOf(Drained(order, amount), Stored)
      == if amount <= 0 then 0 else Min(amount, SumOf(order, PositiveStored))
  {
    if order != [] {
      var t := order[0];
      var take := TakeFrom(t, amount);
      var r := Drained(order, amount);
      var rest := Drained(order[1..], amount - take);
      assert r == [t.(stored := t.stored - take)] + rest;
      assert r[1..] == rest;
      DrainedTotal(order[1..], amount - take);
      SumOfNonNegative(order[1..], PositiveStored);
      assert SumOf(r, Stored) == t.stored - take + SumOf(rest, Stored);
      assert SumOf(order, Stored) == t.stored + SumOf(order[1..], Stored);
      assert SumOf(order, PositiveStored) == PositivePart(t.stored) + SumOf(order[1..], PositiveStored);
    }
  }

  /** Greedy: a tank is drawn on only after every earlier tank holding XP has been emptied. */
  lemma {:induction false} DrainedGreedy(order: seq<Tank>, amount: int)
    ensures var r := Drained(order, amount);
      forall i, j :: 0 <= i < j < |order| && r[j].stored != order[j].stored && order[i].stored > 0 ==> r[i].stored == 0
  {
    if order != [] {
      var t := order[0];
      var take := TakeFrom(t, amount);
      var r := Drained(order, amount);
      var rest := Drained(order[1..], amount - take);
      assert r == [t.(stored := t.stored - take)] + rest;
      DrainedGreedy(order[1..], amount - take);
      if amount - take <= 0 {
        DrainedNothing(order[1..], amount - take);
      }
      forall i, j | 0 <= i < j < |order| && r[j].stored != order[j].stored && order[i].stored > 0
        ensures r[i].stored == 0
      {
        assert rest[j - 1] == r[j] && order[1..][j - 1] == order[j];
        if i > 0 {
          assert rest[i - 1] == r[i] && order[1..][i - 1] == order[i];
        }
      }
    }
  }

  /** The tanks after the injection loop, in the order they were visited. */
  function Filled(order: seq<Tank>, amount: int): (r: seq<Tank>)
    ensures |r| == |order|
  {
    if order == [] then []
    else
      var t := order[0];
      [t.(stored := t.stored + PutInto(t, amount))] + Filled(order[1..], amount - PutInto(t, amount))
  }

  /** Each tank keeps its slot and capacity and never receives more than its free space. */
  lemma {:induction false} FilledPerTank(order: seq<Tank>, amount: int)
    ensures var r := Filled(order, amount);
      forall i :: 0 <= i < |order| ==>
        && r[i] == order[i].(stored := r[i].stored)
        && (r[i].stored == order[i].stored || order[i].stored < r[i].stored <= order[i].capacity)
  {
    if order != [] {
      var t := order[0];
      FilledPerTank(order[1..], amount - PutInto(t, amount));
      var r := Filled(order, amount);
      assert forall i :: 1 <= i < |order| ==> r[i] == Filled(order[1..], amount - PutInto(t, amount))[i - 1] && order[i] == order[1..][i - 1];
    }
  }

  lemma {:induction false} FilledNothing(order: seq<Tank>, amount: int)
    requires amount <= 0
    ensures Filled(order, amount) == order
  {
    if order != [] {
      FilledNothing(order[1..], amount);
      assert order == [order[0]] + order[1..];
    }
  }

  /** Injection stores min(amount, total free space), whatever the order. */
  lemma {:induction false} FilledTotal(order: seq<Tank>, amount: int)
    ensures SumOf(Filled(order, amount), Stored) - SumOf(order, Stored)
      == if amount <= 0 then 0 else Min(amount, SumOf(order, PositiveFree))
  {
    if order != [] {
      var t := order[0];
      var put := PutInto(t, amount);
      var r := Filled(order, amount);
      var rest := Filled(order[1..], amount - put);
      assert r == [t.(stored := t.stored + put)] + rest;
      assert r[1..] == rest;
      FilledTotal(order[1..], amount - put);
      SumOfNonNegative(order[1..], PositiveFree);
      assert SumOf(r, Stored) == t.stored + put + SumOf(rest, Stored);
      assert SumOf(order, Stored) == t.stored + SumOf(order[1..], Stored);
      assert SumOf(order, PositiveFree) == PositivePart(t.Free()) + SumOf(order[1..], PositiveFree);
    }
  }

  /** Greedy: a tank receives XP only after every earlier tank with room has been filled up. */
  lemma {:induction false} FilledGreedy(order: seq<Tank>, amount: int)
    ensures var r := Filled(order, amount);
      forall i, j :: 0 <= i < j < |order| && r[j].stored != order[j].stored && order[i].Free() > 0 ==> r[i].stored == order[i].capacity
  {
    if order != [] {
      var t := order[0];
      var put := PutInto(t, amount);
      var r := Filled(order, amount);
      var rest := Filled(order[1..], amount - put);
      assert r == [t.(stored := t.stored + put)] + rest;
      FilledGreedy(order[1..], amount - put);
      if amount - put <= 0 {
        FilledNothing(order[1..], amount - put);
      }
      forall i, j | 0 <= i < j < |order| && r[j].stored != order[j].stored && order[i].Free() > 0
        ensures r[i].stored == order[i].capacity
      {
        assert rest[j - 1] == r[j] && order[1..][j - 1] == order[j];
        if i > 0 {
          assert rest[i - 1] == r[i] && order[1..][i - 1] == order[i];
        }
      }
    }
  }

  /** One visited tank: the rest of the drain after it. */
  lemma DrainedStep(order: seq<Tank>, i: int, remaining: int)
    requires 0 <= i < |order|
    ensures Drained(order[i..], remaining)
      == [order[i].(stored := order[i].stored - TakeFrom(order[i], remaining))] + Drained(order[i + 1..], remaining - TakeFrom(order[i], remaining))
  {
    assert order[i..][0] == order[i];
    assert order[i..][1..] == order[i + 1..];
  }

  lemma FilledStep(order: seq<Tank>, i: int, remaining: int)
    requires 0 <= i < |order|
    ensures Filled(order[i..], remaining)
      == [order[i].(stored := order[i].stored + PutInto(order[i], remaining))] + Filled(order[i + 1..], remaining - PutInto(order[i], remaining))
  {
    assert order[i..][0] == order[i];
    assert order[i..][1..] == order[i + 1..];
  }

  lemma {:induction false} SumOfNonNegative(s: seq<Tank>, f: Tank -> int)
    requires forall t :: f(t) >= 0
    ensures SumOf(s, f) >= 0
  {
    if s != [] {
      SumOfNonNegative(s[1..], f);
    }
  }

  /** One iteration of DrainInOrder keeps both of its loop invariants. */
  lemma DrainLoopStep(order: seq<Tank>, amount: int, i: int, remaining: int, after: seq<Tank>, total: int)
    requires 0 <= i < |order| && |after| == i
    requires after + Drained(order[i..], remaining) == Drained(order, amount)
    requires total == SumOf(order[..i], Stored) - SumOf(after, Stored)
    ensures var t := order[i]; var take := TakeFrom(t, remaining);
      && (after + [t.(stored := t.stored - take)]) + Drained(order[i + 1..], remaining - take) == Drained(order, amount)
      && total + take == SumOf(order[..i + 1], Stored) - SumOf(after + [t.(stored := t.stored - take)], Stored)
  {
    var t := order[i];
    var take := TakeFrom(t, remaining);
    var next := t.(stored := t.stored - take);
    DrainedStep(order, i, remaining);
    assert (after + [next]) + Drained(order[i + 1..], remaining - take) == after + Drained(order[i..], remaining);
    assert order[..i + 1] == order[..i] + [t];
    SumOfSnoc(order[..i], t, Stored);
    SumOfSnoc(after, next, Stored);
  }

  /** One iteration of FillInOrder keeps both of its loop invariants. */
  lemma FillLoopStep(order: seq<Tank>, amount: int, i: int, remaining: int, after: seq<Tank>, total: int)
    requires 0 <= i < |order| && |after| == i
    requires after + Filled(order[i..], remaining) == Filled(order, amount)
    requires total == SumOf(after, Stored) - SumOf(order[..i], Stored)
    ensures var t := order[i]; var put := PutInto(t, remaining);
      && (after + [t.(stored := t.stored + put)]) + Filled(order[i + 1..], remaining - put) == Filled(order, amount)
      && total + put == SumOf(after + [t.(stored := t.stored + put)], Stored) - SumOf(order[..i + 1], Stored)
  {
    var t := order[i];
    var put := PutInto(t, remaining);
    var next := t.(stored := t.stored + put);
    FilledStep(order, i, remaining);
    assert (after + [next]) + Filled(order[i + 1..], remaining - put) == after + Filled(order[i..], remaining);
    assert order[..i + 1] == order[..i] + [t];
    SumOfSnoc(order[..i], t, Stored);
    SumOfSnoc(after, next, Stored);
  }

  lemma SumOfSnoc(a: seq<Tank>, x: Tank, f: Tank -> int)
    ensures SumOf(a + [x], f) == SumOf(a, f) + f(x)
  {
    SumOfAppend(a, [x], f);
    assert [x][1..] == [];
  }

  /** Where the loop stops, the unvisited tanks are untouched and the total is the closed form. */
  lemma DrainFinish(order: seq<Tank>, amount: int, i: int, remaining: int, after: seq<Tank>, total: int)
    requires 0 <= i <= |order| && |after| == i
    requires after + Drained(order[i..], remaining) == Drained(order, amount)
    requires total == SumOf(order[..i], Stored) - SumOf(after, Stored)
    requires remaining <= 0 || i == |order|
    ensures after + order[i..] == Drained(order, amount)
    ensures total == if amount <= 0 then 0 else Min(amount, SumOf(order, PositiveStored))
  {
    if remaining <= 0 {
      DrainedNothing(order[i..], remaining);
    } else {
      assert order[i..] == [];
    }
    assert order == order[..i] + order[i..];
    SumOfAppend(order[..i], order[i..], Stored);
    SumOfAppend(after, order[i..], Stored);
    DrainedTotal(order, amount);
  }

  /** Where the loop stops, the unvisited tanks are untouched and the total is the closed form. */
  lemma FillFinish(order: seq<Tank>, amount: int, i: int, remaining: int, after: seq<Tank>, total: int)
    requires 0 <= i <= |order| && |after| == i
    requires after + Filled(order[i..], remaining) == Filled(order, amount)
    requires total == SumOf(after, Stored) - SumOf(order[..i], Stored)
    requires remaining <= 0 || i == |order|
    ensures after + order[i..] == Filled(order, amount)
    ensures total == if amount <= 0 then 0 else Min(amount, SumOf(order, PositiveFree))
  {
    if remaining <= 0 {
      FilledNothing(order[i..], remaining);
    } else {
      assert order[i..] == [];
    }
    assert order == order[..i] + order[i..];
    SumOfAppend(order[..i], order[i..], Stored);
    SumOfAppend(after, order[i..], Stored);
    FilledTotal(order, amount);
  }

  /** The extraction loop over tanks already in priority order. */
  method DrainInOrder(order: seq<Tank>, amount: int) returns (total: int, after: seq<Tank>)
    ensures after == Drained(order, amount)
    ensures total == if amount <= 0 then 0 else Min(amount, SumOf(order, PositiveStored))
  {
    total := 0;
    var remaining := amount;
    after := [];
    var i := 0;
    while i < |order|
      invariant 0 <= i <= |order| && |after| == i
      invariant after + Drained(order[i..], remaining) == Drained(order, amount)
      invariant total == SumOf(order[..i], Stored) - SumOf(after, Stored)
    {
      if remaining <= 0 {
        break;
      }
      var t := order[i];
      var take := 0;
      if t.stored > 0 {
        take := Min(remaining, t.stored);
      }
      assert take == TakeFrom(t, remaining);
      DrainLoopStep(order, amount, i, remaining, after, total);
      after := after + [t.(stored := t.stored - take)];
      total := total + take;
      remaining := remaining - take;
      i := i + 1;
    }
    DrainFinish(order, amount, i, remaining, after, total);
    after := after + order[i..];
  }

  /** The injection loop over tanks already in priority order. */
  method FillInOrder(order: seq<Tank>, amount: int) returns (total: int, after: seq<Tank>)
    ensures after == Filled(order, amount)
    ensures total == if amount <= 0 then 0 else Min(amount, SumOf(order, PositiveFree))
  {
    total := 0;
    var remaining := amount;
    after := [];
    var i := 0;
    while i < |order|
      invariant 0 <= i <= |order| && |after| == i
      invariant after + Filled(order[i..], remaining) == Filled(order, amount)
      invariant total == SumOf(after, Stored) - SumOf(order[..i], Stored)
    {
      if remaining <= 0 {
        break;
      }
      var t := order[i];
      var space := t.Free();
      var put := 0;
      if space > 0 {
        put := Min(remaining, space);
      }
      assert put == PutInto(t, remaining);
      FillLoopStep(order, amount, i, remaining, after, total);
      after := after + [t.(stored := t.stored + put)];
      total := total + put;
      remaining := remaining - put;
      i := i + 1;
    }
    FillFinish(order, amount, i, remaining, after, total);
    after := after + order[i..];
  }
}
