/**
 * Java's fixed-width integer arithmetic on top of Dafny's unbounded `int`.
 * Only the places where the mod relies on wrap-around or shift masking use it.
 */
module JavaInt {
  const IntMin: int := -0x8000_0000
  const IntMax: int := 0x7fff_ffff
  const LongMin: int := -0x8000_0000_0000_0000
  const LongMax: int := 0x7fff_ffff_ffff_ffff
  const TwoTo32: int := 0x1_0000_0000
  const TwoTo64: int := 0x1_0000_0000_0000_0000

  predicate IsInt(x: int) { IntMin <= x <= IntMax }
  predicate IsLong(x: int) { LongMin <= x <= LongMax }

  /** Math.max */
  function Max(a: int, b: int): (r: int)
    ensures r >= a && r >= b && (r == a || r == b)
  {
    if a >= b then a else b
  }

  /** Math.min */
  function Min(a: int, b: int): (r: int)
    ensures r <= a && r <= b && (r == a || r == b)
  {
    if a <= b then a else b
  }

  /** Math.max(lo, Math.min(x, hi)): the source's clamp idiom. */
  function Clamp(x: int, lo: int, hi: int): (r: int)
    requires lo <= hi
    ensures lo <= r <= hi
    ensures lo <= x <= hi ==> r == x
    ensures x < lo ==> r == lo
    ensures x > hi ==> r == hi
  {
    Max(lo, Min(x, hi))
  }

  /**
   * Java's `/` on a positive divisor: the quotient is truncated toward zero,
   * unlike Dafny's Euclidean division on a negative dividend.
   */
  function JavaDiv(a: int, b: int): (q: int)
    requires b > 0
    ensures a >= 0 ==> q == a / b && 0 <= q * b <= a < q * b + b
    ensures a < 0 ==> q <= 0 && q * b - b < a <= q * b
  {
    if a >= 0 then DivBounds(a, b); a / b
    else DivBounds(-a, b); NegMul((-a) / b, b); -((-a) / b)
  }

  /**
   * Java's `%` on a positive divisor: the remainder takes the dividend's sign,
   * so it is Dafny's `%` only for a dividend >= 0.
   */
  function JavaRem(a: int, b: int): (r: int)
    requires b > 0
    ensures a == JavaDiv(a, b) * b + r
    ensures a >= 0 ==> r == a % b
    ensures a < 0 ==> -b < r <= 0
  {
    a - JavaDiv(a, b) * b
  }

  lemma DivBounds(n: int, b: int)
    requires n >= 0 && b > 0
    ensures 0 <= n / b && 0 <= (n / b) * b <= n < (n / b) * b + b
  {
    var q, r := n / b, n % b;
    assert n == q * b + r && 0 <= r < b;
    assert q * b >= 0 by { if q > 0 { MulAtLeast(b, q); } }
  }

  lemma NegMul(p: int, b: int)
    ensures (-p) * b == -(p * b)
  {
  }

  /** The value of `x` after Java keeps its low 32 bits (an `int` overflow or an `(int)` cast). */
  function Wrap32(x: int): (r: int)
    ensures IsInt(r)
    ensures (x - r) % TwoTo32 == 0
    ensures IsInt(x) ==> r == x
  {
    var m := x % TwoTo32;
    if m > IntMax then m - TwoTo32 else m
  }

  /** The value of `x` after Java keeps its low 64 bits (a `long` overflow). */
  function Wrap64(x: int): (r: int)
    ensures IsLong(r)
    ensures (x - r) % TwoTo64 == 0
    ensures IsLong(x) ==> r == x
  {
    var m := x % TwoTo64;
    if m > LongMax then m - TwoTo64 else m
  }

  function Pow2(k: nat): (r: nat)
    ensures r >= 1
    ensures k >= 1 ==> r % 2 == 0
  {
    if k == 0 then 1 else 2 * Pow2(k - 1)
  }

  /**
   * Java's `v << s` on a `long`: the distance is masked to its low six bits,
   * and the bits shifted past bit 63 are lost.
   */
  function ShiftLeftLong(v: int, s: int): (r: int)
    ensures IsLong(r)
  {
    Wrap64(v * Pow2(s % 64))
  }

  lemma {:induction false} Pow2Add(a: nat, b: nat)
    ensures Pow2(a + b) == Pow2(a) * Pow2(b)
  {
    if a > 0 {
      Pow2Add(a - 1, b);
    }
  }

  lemma {:induction false} Pow2Monotone(a: nat, b: nat)
    requires a <= b
    ensures Pow2(a) <= Pow2(b)
  {
    if a < b {
      Pow2Monotone(a, b - 1);
    }
  }

  lemma Pow2Ten()
    ensures Pow2(10) == 1024
  {
    assert Pow2(2) == 4;
    assert Pow2(4) == 16;
    assert Pow2(6) == 64;
    assert Pow2(8) == 256;
  }

  lemma Pow2Twenty()
    ensures Pow2(20) == 1048576
  {
    Pow2Ten();
    Pow2Add(10, 10);
  }

  lemma Pow2Forty()
    ensures Pow2(40) == 1099511627776
  {
    Pow2Twenty();
    Pow2Add(20, 20);
  }

  lemma Pow2Fifty()
    ensures Pow2(50) == 1125899906842624
  {
    Pow2Ten();
    Pow2Forty();
    Pow2Add(40, 10);
  }

  /** The powers of two that bound the mod's capacities. */
  lemma Pow2Landmarks()
    ensures Pow2(21) == 2097152 && Pow2(22) == 4194304
    ensures Pow2(53) == 9007199254740992 && Pow2(54) == 18014398509481984
    ensures Pow2(32) == TwoTo32 && Pow2(64) == TwoTo64
  {
    Pow2Twenty();
    Pow2Fifty();
    assert Pow2(4) == 16;
    Pow2Add(20, 1);
    Pow2Add(20, 2);
    Pow2Add(50, 3);
    Pow2Add(50, 4);
    Pow2Add(20, 10);
    Pow2Add(30, 2);
    Pow2Ten();
    Pow2Add(60, 4);
    Pow2Add(50, 10);
  }

  /** A multiple of 2^32 has all-zero low bits, so it casts to the `int` 0. */
  lemma Wrap32OfMultiple(x: int)
    requires x % TwoTo32 == 0
    ensures Wrap32(x) == 0
  {
  }

  /** An even value stays even when it wraps to a `long` (2^64 is even). */
  lemma Wrap64Even(x: int)
    requires x % 2 == 0
    ensures Wrap64(x) % 2 == 0
  {
    var m, q := x % TwoTo64, x / TwoTo64;
    assert x == q * TwoTo64 + m;
    var h := q * 0x8000_0000_0000_0000;
    assert q * TwoTo64 == 2 * h;
    assert m == x - 2 * h;
    assert m % 2 == 0 by {
      EvenMinusEven(x, h);
    }
    assert Wrap64(x) == m || Wrap64(x) == m - 2 * 0x8000_0000_0000_0000;
    EvenMinusEven(m, 0x8000_0000_0000_0000);
  }

  lemma EvenMinusEven(a: int, h: int)
    requires a % 2 == 0
    ensures (a - 2 * h) % 2 == 0
  {
  }

  /** Two values that agree modulo 2^64 wrap to the same `long`. */
  lemma Wrap64Congruent(x: int, y: int)
    requires (x - y) % TwoTo64 == 0
    ensures Wrap64(x) == Wrap64(y)
  {
    var k := (x - y) / TwoTo64;
    assert x == y + k * TwoTo64;
    assert x % TwoTo64 == y % TwoTo64 by {
      ModAddMultiple(y, k, TwoTo64);
    }
  }

  /** A multiple of n is n times its quotient. */
  lemma DivisibleTimes(d: int, n: int)
    requires n > 0 && d % n == 0
    ensures d == (d / n) * n
  {
  }

  lemma ModAddMultiple(y: int, k: int, n: int)
    requires n > 0
    ensures (y + k * n) % n == y % n
  {
    var q, r := y / n, y % n;
    assert y == q * n + r;
    assert y + k * n == (q + k) * n + r;
    ModUnique(y + k * n, n, q + k, r);
  }

  /** Division with remainder is unique. */
  lemma ModUnique(a: int, n: int, q: int, r: int)
    requires n > 0 && 0 <= r < n && a == q * n + r
    ensures a % n == r
  {
    var q', r' := a / n, a % n;
    assert a == q' * n + r';
    var d := q - q';
    assert d * n == r' - r by {
      assert q * n - q' * n == r' - r;
      MulSubDistrib(q, q', n);
    }
    if d >= 1 {
      MulAtLeast(d, n);
    } else if d <= -1 {
      MulAtLeast(-d, n);
    }
  }

  lemma MulSubDistrib(a: int, b: int, n: int)
    ensures a * n - b * n == (a - b) * n
  {
  }

  lemma MulAtLeast(d: int, n: int)
    requires d >= 1 && n >= 0
    ensures d * n >= n
  {
    assert d * n - n == (d - 1) * n;
  }

  /** Scaling a wrapped `long` and wrapping again equals wrapping the exact product. */
  lemma Wrap64Scale(c: int, x: int)
    ensures Wrap64(c * Wrap64(x)) == Wrap64(c * x)
  {
    var w := Wrap64(x);
    var k := (x - w) / TwoTo64;
    assert x - w == k * TwoTo64;
    assert c * x - c * w == (c * k) * TwoTo64 by {
      assert c * (x - w) == c * (k * TwoTo64);
    }
    Wrap64Congruent(c * x, c * w);
  }

  /** Doubling a wrapped `long` and wrapping again equals wrapping the exact double. */
  lemma Wrap64Double(x: int)
    ensures Wrap64(Wrap64(x) * 2) == Wrap64(x * 2)
  {
    var w := Wrap64(x);
    var k := (x - w) / TwoTo64;
    DivisibleTimes(x - w, TwoTo64);
    assert w * 2 - x * 2 == 0 + (-2 * k) * TwoTo64;
    ModAddMultiple(0, -2 * k, TwoTo64);
    Wrap64Congruent(w * 2, x * 2);
  }
}
