/**
 * java.util.UUID as the tank code uses it: an id of two 64-bit halves,
 * written as its canonical text (toString) and read back with the Java 8
 * UUID.fromString, which accepts any five '-'-separated groups of hex digits.
 */
module UuidText {
  import opened Wrappers
  import opened JavaInt
  import opened SplitText

  const TwoTo16: int := 0x1_0000
  const TwoTo48: int := 0x1_0000_0000_0000

  /**
   * A UUID as Java holds it: the bit patterns of mostSigBits and
   * leastSigBits, each read as a number in [0, 2^64).
   */
  datatype Uuid = Uuid(msb: int, lsb: int)
  {
    predicate Valid() {
      0 <= msb < TwoTo64 && 0 <= lsb < TwoTo64
    }
  }

  function HexChar(n: int): (c: char)
    requires 0 <= n < 16
  {
    if n < 10 then ('0' as int + n) as char else ('a' as int + n - 10) as char
  }

  predicate IsHexChar(c: char) {
    ('0' <= c <= '9') || ('a' <= c <= 'f') || ('A' <= c <= 'F')
  }

  /** Character.digit(c, 16) on ASCII: both letter cases are accepted. */
  function HexValue(c: char): (n: int)
    requires IsHexChar(c)
    ensures 0 <= n < 16
  {
    if '0' <= c <= '9' then c as int - '0' as int
    else if 'a' <= c <= 'f' then c as int - 'a' as int + 10
    else c as int - 'A' as int + 10
  }

  lemma HexValueOfHexChar(n: int)
    requires 0 <= n < 16
    ensures IsHexChar(HexChar(n)) && HexValue(HexChar(n)) == n
  {
  }

  /** Lower-case digits are exactly what HexChar writes. */
  lemma HexCharOfHexValue(c: char)
    requires IsHexChar(c) && !('A' <= c <= 'F')
    ensures HexChar(HexValue(c)) == c
  {
  }

  predicate IsHexText(s: string) { forall i :: 0 <= i < |s| ==> IsHexChar(s[i]) }

  predicate IsLowerHexText(s: string) { forall i :: 0 <= i < |s| ==> IsHexChar(s[i]) && !('A' <= s[i] <= 'F') }

  function Pow16(d: nat): (r: nat)
    ensures r >= 1
  {
    if d == 0 then 1 else 16 * Pow16(d - 1)
  }

  /** UUID.digits(val, d): the low `d` hex digits of `v`, most significant first, zero-padded. */
  function HexDigits(v: int, d: nat): (s: string)
    requires v >= 0
    ensures |s| == d && IsLowerHexText(s)
  {
    if d == 0 then [] else HexDigits(v / 16, d - 1) + [HexChar(v % 16)]
  }

  /** The value of a string of hex digits, most significant first. */
  function HexNumber(s: string): (v: int)
    requires IsHexText(s)
    ensures 0 <= v < Pow16(|s|)
  {
    if s == [] then 0
    else
      var p := HexNumber(s[..|s| - 1]);
      assert p * 16 <= (Pow16(|s| - 1) - 1) * 16;
      p * 16 + HexValue(s[|s| - 1])
  }

  /** Splitting off the last hex digit: the quotient and remainder of a value modulo 16 * m. */
  lemma ModSixteen(v: int, m: int)
    requires v >= 0 && m >= 1
    ensures (v / 16) % m * 16 + v % 16 == v % (16 * m)
    ensures (v % (16 * m)) / 16 == (v / 16) % m && (v % (16 * m)) % 16 == v % 16
  {
    var q, r := v / 16, v % 16;
    var a, b := q / m, q % m;
    assert v == a * (16 * m) + (16 * b + r);
    assert 0 <= 16 * b + r < 16 * m;
    ModUnique(v, 16 * m, a, 16 * b + r);
    ModUnique(16 * b + r, 16, b, r);
  }

  /** Reading back the digits written gives the value modulo 16^d. */
  lemma {:induction false} HexNumberOfDigits(v: int, d: nat)
    requires v >= 0
    ensures HexNumber(HexDigits(v, d)) == v % Pow16(d)
  {
    if d > 0 {
      var p := HexDigits(v / 16, d - 1);
      var s := HexDigits(v, d);
      assert s == p + [HexChar(v % 16)];
      assert s[..d - 1] == p && s[d - 1] == HexChar(v % 16);
      assert HexNumber(s) == HexNumber(p) * 16 + HexValue(HexChar(v % 16));
      HexNumberOfDigits(v / 16, d - 1);
      HexValueOfHexChar(v % 16);
      ModSixteen(v, Pow16(d - 1));
    }
  }

  /** A value with at most d hex digits is read back exactly. */
  lemma HexNumberOfSmall(v: int, d: nat)
    requires 0 <= v < Pow16(d)
    ensures HexNumber(HexDigits(v, d)) == v
  {
    HexNumberOfDigits(v, d);
    ModUnique(v, Pow16(d), 0, v);
  }

  /** The digits written depend only on the value modulo 16^d. */
  lemma {:induction false} HexDigitsMod(v: int, d: nat)
    requires v >= 0
    ensures HexDigits(v, d) == HexDigits(v % Pow16(d), d)
  {
    if d > 0 {
      var w := v % Pow16(d);
      ModSixteen(v, Pow16(d - 1));
      assert w / 16 == (v / 16) % Pow16(d - 1) && w % 16 == v % 16;
      HexDigitsMod(v / 16, d - 1);
      assert HexDigits(w, d) == HexDigits(w / 16, d - 1) + [HexChar(w % 16)];
    }
  }

  /** Writing the digits of a lower-case hex text gives the text back. */
  lemma {:induction false} HexDigitsOfNumber(s: string)
    requires IsLowerHexText(s)
    ensures HexDigits(HexNumber(s), |s|) == s
  {
    if s != [] {
      var p := s[..|s| - 1];
      HexDigitsOfNumber(p);
      var v := HexNumber(s);
      assert v == HexNumber(p) * 16 + HexValue(s[|s| - 1]);
      assert v / 16 == HexNumber(p) && v % 16 == HexValue(s[|s| - 1]);
      HexCharOfHexValue(s[|s| - 1]);
      assert p + [s[|s| - 1]] == s;
    }
  }

  /** Java's `a | b` on non-negative numbers, bit by bit from the lowest. */
  function BitOr(a: nat, b: nat): (r: nat)
    decreases a + b
  {
    if a == 0 then b
    else if b == 0 then a
    else 2 * BitOr(a / 2, b / 2) + (if a % 2 == 1 || b % 2 == 1 then 1 else 0)
  }

  /** The or of two k-bit numbers has k bits. */
  lemma {:induction false} BitOrBound(a: nat, b: nat, k: nat)
    requires a < Pow2(k) && b < Pow2(k)
    ensures BitOr(a, b) < Pow2(k)
    decreases k
  {
    if a != 0 && b != 0 {
      BitOrBound(a / 2, b / 2, k - 1);
    }
  }

  /** Or-ing a number into the free low k bits of another is addition. */
  lemma {:induction false} BitOrShifted(a: nat, b: nat, k: nat)
    requires b < Pow2(k)
    ensures BitOr(a * Pow2(k), b) == a * Pow2(k) + b
    decreases k
  {
    if k > 0 && a != 0 && b != 0 {
      assert a * Pow2(k) == 2 * (a * Pow2(k - 1));
      BitOrShifted(a, b / 2, k - 1);
    }
  }

  lemma Pow2Sixteen()
    ensures Pow2(16) == TwoTo16 && Pow2(48) == TwoTo48
  {
    Pow2Ten();
    Pow2Forty();
    assert Pow2(6) == 64 && Pow2(8) == 256;
    Pow2Add(10, 6);
    Pow2Add(40, 8);
  }

  /** Java's `x <<= s` on a non-negative long, as the unsigned bit pattern. */
  function ShiftLeft(x: int, s: nat): (r: int)
    requires x >= 0
    ensures 0 <= r < TwoTo64
  {
    (x * Pow2(s)) % TwoTo64
  }

  /**
   * Long.decode("0x" + c): a non-empty run of hex digits whose value fits a
   * long; an empty group, a '+' sign or a value above Long.MAX_VALUE throws
   * NumberFormatException.
   */
  function ParseGroup(c: string): (r: Option<int>)
    ensures r.Some? <==> IsGroup(c)
    ensures r.Some? ==> r.value == HexNumber(c) && 0 <= r.value < TwoTo64 / 2
  {
    if IsGroup(c) then Some(HexNumber(c)) else None
  }

  /** A group Long.decode accepts: non-empty hex digits whose value fits a long. */
  predicate IsGroup(c: string) {
    c != [] && IsHexText(c) && HexNumber(c) <= LongMax
  }

  /** Exactly five groups, each of which Long.decode accepts. */
  predicate AllGroupsParse(c: seq<string>) {
    |c| == 5 && forall k :: 0 <= k < 5 ==> ParseGroup(c[k]).Some?
  }

  /**
   * Java 8 UUID.fromString: the text must split at '-' into exactly five
   * groups, each read by ParseGroup, and Combine puts them together.
   */
  function Parse(s: string): (r: Option<Uuid>)
    ensures r.Some? <==> AllGroupsParse(Split(s, '-'))
    ensures r.Some? ==> r.value.Valid()
  {
    var c := Split(s, '-');
    if !AllGroupsParse(c) then None
    else Some(Combine(ParseGroup(c[0]).value, ParseGroup(c[1]).value, ParseGroup(c[2]).value,
                      ParseGroup(c[3]).value, ParseGroup(c[4]).value))
  }

  /**
   * The halves built from the five group values with shifts and `|` and no
   * masking, so a group longer than its slot spills into its neighbour's bits.
   */
  function Combine(v0: nat, v1: nat, v2: nat, v3: nat, v4: nat): (u: Uuid)
    requires v0 < TwoTo64 && v1 < TwoTo64 && v2 < TwoTo64 && v3 < TwoTo64 && v4 < TwoTo64
    ensures u.Valid()
  {
    Pow2Landmarks();
    BitOrBound(ShiftLeft(v0, 16), v1, 64);
    BitOrBound(ShiftLeft(BitOr(ShiftLeft(v0, 16), v1), 16), v2, 64);
    BitOrBound(ShiftLeft(v3, 48), v4, 64);
    Uuid(BitOr(ShiftLeft(BitOr(ShiftLeft(v0, 16), v1), 16), v2), BitOr(ShiftLeft(v3, 48), v4))
  }

  /** Group values that fit their slots do not overlap: the halves are their sums. */
  lemma CombineFits(v0: nat, v1: nat, v2: nat, v3: nat, v4: nat)
    requires v0 < TwoTo32 && v1 < TwoTo16 && v2 < TwoTo16 && v3 < TwoTo16 && v4 < TwoTo48
    ensures Combine(v0, v1, v2, v3, v4) == Uuid((v0 * TwoTo16 + v1) * TwoTo16 + v2, v3 * TwoTo48 + v4)
  {
    var hi := v0 * TwoTo16 + v1;
    assert hi < TwoTo48;
    Pow2Sixteen();
    ShiftLeftFits(v0, 16);
    BitOrShifted(v0, v1, 16);
    ShiftLeftFits(hi, 16);
    BitOrShifted(hi, v2, 16);
    ShiftLeftFits(v3, 48);
    BitOrShifted(v3, v4, 48);
  }

  /** A left shift that keeps every bit inside the 64 is a multiplication. */
  lemma ShiftLeftFits(x: nat, k: nat)
    requires Pow2(k) <= TwoTo48 && x * Pow2(k) < TwoTo64
    ensures ShiftLeft(x, k) == x * Pow2(k)
  {
    ModUnique(x * Pow2(k), TwoTo64, 0, x * Pow2(k));
  }

  /** The five groups UUID.toString writes: 8, 4, 4, 4 and 12 lower-case hex digits. */
  function Groups(u: Uuid): (g: seq<string>)
    requires u.Valid()
    ensures |g| == 5 && |g[0]| == 8 && |g[1]| == 4 && |g[2]| == 4 && |g[3]| == 4 && |g[4]| == 12
  {
    [HexDigits(u.msb / TwoTo32, 8), HexDigits(u.msb / TwoTo16, 4), HexDigits(u.msb, 4),
     HexDigits(u.lsb / TwoTo48, 4), HexDigits(u.lsb, 12)]
  }

  /** UUID.toString: the five groups joined by '-'. */
  function ToString(u: Uuid): (s: string)
    requires u.Valid()
    ensures |s| == 36
  {
    var g := Groups(u);
    JoinFive(g);
    Join(g, '-')
  }

  /** The canonical 36-character layout, letters in either case. */
  predicate IsCanonical(s: string) {
    && |s| == 36
    && s[8] == '-' && s[13] == '-' && s[18] == '-' && s[23] == '-'
    && IsHexText(s[..8]) && IsHexText(s[9..13]) && IsHexText(s[14..18]) && IsHexText(s[19..23]) && IsHexText(s[24..])
  }

  /** The groups of a text are hex digits, so none holds a '-'. */
  lemma HexTextLacksDash(s: string)
    requires IsHexText(s)
    ensures Lacks(s, '-')
  {
  }

  /** A text joined from five non-empty hex groups splits back into them. */
  lemma SplitGroups(g: seq<string>)
    requires |g| == 5 && forall k :: 0 <= k < 5 ==> IsHexText(g[k])
    requires g[4] != []
    ensures Split(Join(g, '-'), '-') == g
  {
    forall k | 0 <= k < 5
      ensures Lacks(g[k], '-')
    {
      HexTextLacksDash(g[k]);
    }
    SplitJoin(g, '-');
  }

  /** Five groups joined by '-', written out. */
  lemma JoinFive(g: seq<string>)
    requires |g| == 5
    ensures Join(g, '-') == g[0] + "-" + g[1] + "-" + g[2] + "-" + g[3] + "-" + g[4]
  {
    var t3 := g[3..];
    assert t3[1..] == [g[4]] && Join(t3, '-') == g[3] + "-" + g[4];
    var t2 := g[2..];
    assert t2[1..] == t3 && Join(t2, '-') == g[2] + "-" + (g[3] + "-" + g[4]);
    var t1 := g[1..];
    assert t1[1..] == t2 && Join(t1, '-') == g[1] + "-" + (g[2] + "-" + (g[3] + "-" + g[4]));
    assert g[1..] == t1;
  }

  /** Five hex groups joined by '-' are read group by group. */
  lemma ParseJoined(g: seq<string>)
    requires |g| == 5 && IsGroup(g[0]) && IsGroup(g[1]) && IsGroup(g[2]) && IsGroup(g[3]) && IsGroup(g[4])
    ensures Parse(Join(g, '-')) ==
      Some(Combine(HexNumber(g[0]), HexNumber(g[1]), HexNumber(g[2]), HexNumber(g[3]), HexNumber(g[4])))
  {
    SplitGroups(g);
    assert AllGroupsParse(g);
  }

  /** The three groups of the high half and the two of the low half put back together. */
  lemma HalvesRecombine(x: int)
    requires 0 <= x < TwoTo64
    ensures ((x / TwoTo32) * TwoTo16 + (x / TwoTo16) % TwoTo16) * TwoTo16 + x % TwoTo16 == x
    ensures (x / TwoTo48) * TwoTo48 + x % TwoTo48 == x
    ensures x / TwoTo32 < TwoTo32 && x / TwoTo48 < TwoTo16
  {
    var a := x / TwoTo16;
    assert x == a * TwoTo16 + x % TwoTo16;
    assert a == (a / TwoTo16) * TwoTo16 + a % TwoTo16;
    assert a / TwoTo16 == x / TwoTo32;
  }

  /** fromString(toString(u)) == u. */
  lemma ParseToString(u: Uuid)
    requires u.Valid()
    ensures Parse(ToString(u)) == Some(u)
  {
    HalvesRecombine(u.msb);
    HalvesRecombine(u.lsb);
    var v0, v1, v2, v3, v4 := u.msb / TwoTo32, (u.msb / TwoTo16) % TwoTo16, u.msb % TwoTo16, u.lsb / TwoTo48, u.lsb % TwoTo48;
    assert FromGroups(v0, v1, v2, v3, v4) == u;
    GroupsOfSums(v0, v1, v2, v3, v4);
    ParseDigits(v0, v1, v2, v3, v4);
  }

  /** A canonical text is its five groups joined by '-'. */
  lemma CanonicalGroups(s: string)
    requires IsCanonical(s)
    ensures s == Join([s[..8], s[9..13], s[14..18], s[19..23], s[24..]], '-')
  {
    var g := [s[..8], s[9..13], s[14..18], s[19..23], s[24..]];
    JoinFive(g);
    assert s == s[..8] + [s[8]] + s[9..13] + [s[13]] + s[14..18] + [s[18]] + s[19..23] + [s[23]] + s[24..];
  }

  /** The converse on lower-case canonical text: toString(fromString(s)) gives s back. */
  lemma ToStringOfParse(s: string)
    requires IsCanonical(s)
    requires IsLowerHexText(s[..8]) && IsLowerHexText(s[9..13]) && IsLowerHexText(s[14..18])
    requires IsLowerHexText(s[19..23]) && IsLowerHexText(s[24..])
    ensures Parse(s).Some? && ToString(Parse(s).value) == s
  {
    var g := [s[..8], s[9..13], s[14..18], s[19..23], s[24..]];
    CanonicalGroups(s);
    assert Pow16(4) == TwoTo16 && Pow16(8) == TwoTo32 && Pow16(12) == TwoTo48;
    var v0, v1, v2, v3, v4 := HexNumber(g[0]), HexNumber(g[1]), HexNumber(g[2]), HexNumber(g[3]), HexNumber(g[4]);
    HexDigitsOfNumber(g[0]);
    HexDigitsOfNumber(g[1]);
    HexDigitsOfNumber(g[2]);
    HexDigitsOfNumber(g[3]);
    HexDigitsOfNumber(g[4]);
    assert g == [HexDigits(v0, 8), HexDigits(v1, 4), HexDigits(v2, 4), HexDigits(v3, 4), HexDigits(v4, 12)];
    ParseDigits(v0, v1, v2, v3, v4);
    GroupsOfSums(v0, v1, v2, v3, v4);
  }

  /** The id built from group values that fit their slots, as toString and fromString see it. */
  function FromGroups(v0: nat, v1: nat, v2: nat, v3: nat, v4: nat): (u: Uuid)
    requires v0 < TwoTo32 && v1 < TwoTo16 && v2 < TwoTo16 && v3 < TwoTo16 && v4 < TwoTo48
    ensures u.Valid()
    ensures u.msb / TwoTo32 == v0 && (u.msb / TwoTo16) % TwoTo16 == v1 && u.msb % TwoTo16 == v2
    ensures u.lsb / TwoTo48 == v3 && u.lsb % TwoTo48 == v4
  {
    var msb := (v0 * TwoTo16 + v1) * TwoTo16 + v2;
    assert msb / TwoTo16 == v0 * TwoTo16 + v1;
    Uuid(msb, v3 * TwoTo48 + v4)
  }

  /** The digits written depend only on the value modulo 16^d. */
  lemma DigitsOfMod(a: int, d: nat, b: int)
    requires a >= 0 && a % Pow16(d) == b
    ensures HexDigits(a, d) == HexDigits(b, d)
  {
    HexDigitsMod(a, d);
  }

  /** toString of an id built from group values writes each group's digits. */
  lemma GroupsOfSums(v0: nat, v1: nat, v2: nat, v3: nat, v4: nat)
    requires v0 < TwoTo32 && v1 < TwoTo16 && v2 < TwoTo16 && v3 < TwoTo16 && v4 < TwoTo48
    ensures Groups(FromGroups(v0, v1, v2, v3, v4)) ==
      [HexDigits(v0, 8), HexDigits(v1, 4), HexDigits(v2, 4), HexDigits(v3, 4), HexDigits(v4, 12)]
  {
    var u := FromGroups(v0, v1, v2, v3, v4);
    assert Pow16(4) == TwoTo16 && Pow16(12) == TwoTo48;
    DigitsOfMod(u.msb / TwoTo16, 4, v1);
    DigitsOfMod(u.msb, 4, v2);
    DigitsOfMod(u.lsb, 12, v4);
  }

  /** Digits of group values that fit their slots, joined by '-', read back as the id they came from. */
  lemma ParseDigits(v0: nat, v1: nat, v2: nat, v3: nat, v4: nat)
    requires v0 < TwoTo32 && v1 < TwoTo16 && v2 < TwoTo16 && v3 < TwoTo16 && v4 < TwoTo48
    ensures Parse(Join([HexDigits(v0, 8), HexDigits(v1, 4), HexDigits(v2, 4), HexDigits(v3, 4), HexDigits(v4, 12)], '-'))
      == Some(FromGroups(v0, v1, v2, v3, v4))
  {
    var g0, g1, g2, g3, g4 := HexDigits(v0, 8), HexDigits(v1, 4), HexDigits(v2, 4), HexDigits(v3, 4), HexDigits(v4, 12);
    Pow16Landmarks();
    DigitsGroup(v0, 8);
    DigitsGroup(v1, 4);
    DigitsGroup(v2, 4);
    DigitsGroup(v3, 4);
    DigitsGroup(v4, 12);
    ParseFive(g0, g1, g2, g3, g4);
    CombineFits(v0, v1, v2, v3, v4);
  }

  /** The written digits of a value below 16^d form a group that reads back as the value. */
  lemma DigitsGroup(v: int, d: nat)
    requires 1 <= d <= 12 && 0 <= v < Pow16(d)
    ensures IsGroup(HexDigits(v, d)) && HexNumber(HexDigits(v, d)) == v
  {
    HexNumberOfSmall(v, d);
    Pow16Monotone(d, 12);
    Pow16Landmarks();
  }

  /** A single hex digit is read as its value. */
  lemma HexNumberOfOne(c: char)
    requires IsHexChar(c)
    ensures IsHexText([c]) && HexNumber([c]) == HexValue(c)
  {
    assert [c][..0] == [];
  }

  lemma {:induction false} Pow16Monotone(d: nat, e: nat)
    requires d <= e
    ensures Pow16(d) <= Pow16(e)
    decreases e
  {
    if d < e {
      Pow16Monotone(d, e - 1);
    }
  }

  /** Five non-empty groups of hex digits, each no longer than its slot of 8-4-4-4-12 digits. */
  predicate ShortHexGroups(a: string, b: string, c: string, d: string, e: string) {
    && a != [] && b != [] && c != [] && d != [] && e != []
    && IsHexText(a) && IsHexText(b) && IsHexText(c) && IsHexText(d) && IsHexText(e)
    && |a| <= 8 && |b| <= 4 && |c| <= 4 && |d| <= 4 && |e| <= 12
  }

  /** Five accepted groups whose values fit their slots of 32-16-16-16-48 bits. */
  predicate FittingGroups(a: string, b: string, c: string, d: string, e: string) {
    && IsGroup(a) && IsGroup(b) && IsGroup(c) && IsGroup(d) && IsGroup(e)
    && HexNumber(a) < TwoTo32 && HexNumber(b) < TwoTo16 && HexNumber(c) < TwoTo16
    && HexNumber(d) < TwoTo16 && HexNumber(e) < TwoTo48
  }

  /**
   * The parse is lenient: groups shorter than their slots, as in "1-2-3-4-5",
   * are read as if zero-padded (00000001-0002-0003-0004-000000000005).
   */
  lemma ParseShortGroups(a: string, b: string, c: string, d: string, e: string, v0: nat, v1: nat, v2: nat, v3: nat, v4: nat)
    requires ShortHexGroups(a, b, c, d, e)
    requires HexNumber(a) == v0 && HexNumber(b) == v1 && HexNumber(c) == v2 && HexNumber(d) == v3 && HexNumber(e) == v4
    ensures Parse(Join([a, b, c, d, e], '-')) == Some(Uuid((v0 * TwoTo16 + v1) * TwoTo16 + v2, v3 * TwoTo48 + v4))
  {
    ShortGroups(a, b, c, d, e);
    ParseFitting(a, b, c, d, e, v0, v1, v2, v3, v4);
  }

  lemma ShortGroups(a: string, b: string, c: string, d: string, e: string)
    requires ShortHexGroups(a, b, c, d, e)
    ensures FittingGroups(a, b, c, d, e)
  {
    ShortGroup(a, 8);
    ShortGroup(b, 4);
    ShortGroup(c, 4);
    ShortGroup(d, 4);
    ShortGroup(e, 12);
  }

  /** Five accepted groups whose values fit their slots parse to the id with those values in place. */
  lemma ParseFitting(a: string, b: string, c: string, d: string, e: string, v0: nat, v1: nat, v2: nat, v3: nat, v4: nat)
    requires FittingGroups(a, b, c, d, e)
    requires HexNumber(a) == v0 && HexNumber(b) == v1 && HexNumber(c) == v2 && HexNumber(d) == v3 && HexNumber(e) == v4
    ensures Parse(Join([a, b, c, d, e], '-')) == Some(Uuid((v0 * TwoTo16 + v1) * TwoTo16 + v2, v3 * TwoTo48 + v4))
  {
    ParseFive(a, b, c, d, e);
    CombineFits(v0, v1, v2, v3, v4);
  }

  /** A non-empty group of at most d <= 12 hex digits is accepted and has a value below 16^d. */
  lemma ShortGroup(c: string, d: nat)
    requires c != [] && IsHexText(c) && |c| <= d <= 12
    ensures IsGroup(c) && HexNumber(c) < Pow16(d)
    ensures d == 4 ==> HexNumber(c) < TwoTo16
    ensures d == 8 ==> HexNumber(c) < TwoTo32
    ensures d == 12 ==> HexNumber(c) < TwoTo48
  {
    Pow16Monotone(|c|, d);
    Pow16Monotone(d, 12);
    Pow16Landmarks();
  }

  lemma Pow16Landmarks()
    ensures Pow16(4) == TwoTo16 && Pow16(8) == TwoTo32 && Pow16(12) == TwoTo48
  {
  }

  /**
   * Without masking, a second group longer than its slot spills into the
   * first: "0-" + x + "0000-0-0-0" reads as x + "-0-0-0-0" for any four hex
   * digits x (for x = "0001": "0-10000-0-0-0" is read as "1-0-0-0-0").
   */
  lemma ParseSpills(x: string)
    requires |x| == 4 && IsHexText(x)
    ensures Parse(Join(["0", x + "0000", "0", "0", "0"], '-')) == Parse(Join([x, "0", "0", "0", "0"], '-'))
              == Some(Uuid(HexNumber(x) * TwoTo32, 0))
  {
    FirstGroupRead(x);
    SpilledGroupsRead(x);
    CombineSpill(HexNumber(x));
  }

  lemma FirstGroupRead(x: string)
    requires |x| == 4 && IsHexText(x)
    ensures HexNumber(x) < TwoTo16
    ensures Parse(Join([x, "0", "0", "0", "0"], '-')) == Some(Uuid(HexNumber(x) * TwoTo32, 0))
  {
    ShortGroup(x, 4);
    Pow16Landmarks();
    ZeroGroup();
    ParseFive(x, "0", "0", "0", "0");
    CombineFits(HexNumber(x), 0, 0, 0, 0);
  }

  /** "0" is a group of value 0. */
  lemma ZeroGroup()
    ensures IsGroup("0") && HexNumber("0") == 0
  {
    HexNumberOfOne('0');
  }

  lemma SpilledGroupsRead(x: string)
    requires |x| == 4 && IsHexText(x)
    ensures Parse(Join(["0", x + "0000", "0", "0", "0"], '-')) == Some(Combine(0, HexNumber(x) * TwoTo16, 0, 0, 0))
  {
    var v := HexNumber(x);
    assert v < TwoTo16 by {
      Pow16Landmarks();
    }
    var z, y := "0", x + "0000";
    ZeroGroup();
    assert IsGroup(y) && HexNumber(y) == v * TwoTo16 by {
      HexNumberAppendZeros(x);
    }
    ParseFive(z, y, z, z, z);
  }

  /** ParseJoined for five named groups. */
  lemma ParseFive(a: string, b: string, c: string, d: string, e: string)
    requires IsGroup(a) && IsGroup(b) && IsGroup(c) && IsGroup(d) && IsGroup(e)
    ensures Parse(Join([a, b, c, d, e], '-')) == Some(Combine(HexNumber(a), HexNumber(b), HexNumber(c), HexNumber(d), HexNumber(e)))
  {
    ParseJoined([a, b, c, d, e]);
  }

  /** The or-and-shift of a first group 0 and a second group v * 2^16. */
  lemma CombineSpill(v: nat)
    requires v < TwoTo16
    ensures Combine(0, v * TwoTo16, 0, 0, 0) == Uuid(v * TwoTo32, 0)
  {
    Pow2Sixteen();
    assert ShiftLeft(0, 16) == 0 && ShiftLeft(0, 48) == 0;
    BitOrZero(v * TwoTo16);
    assert ShiftLeft(v * TwoTo16, 16) == v * TwoTo32;
    BitOrZero(v * TwoTo32);
    BitOrZero(0);
  }

  lemma BitOrZero(a: nat)
    ensures BitOr(0, a) == a && BitOr(a, 0) == a
  {
  }

  lemma HexNumberAppendZero(x: string)
    requires IsHexText(x)
    ensures IsHexText(x + "0") && HexNumber(x + "0") == HexNumber(x) * 16
  {
    var y := x + "0";
    assert y[..|y| - 1] == x;
  }

  /** Four trailing zero digits multiply the value by 2^16. */
  lemma HexNumberAppendZeros(x: string)
    requires IsHexText(x)
    ensures IsHexText(x + "0000") && HexNumber(x + "0000") == HexNumber(x) * TwoTo16
  {
    HexNumberAppendZero(x);
    HexNumberAppendZero(x + "0");
    HexNumberAppendZero(x + "00");
    HexNumberAppendZero(x + "000");
    assert x + "0" + "0" == x + "00" && x + "00" + "0" == x + "000" && x + "000" + "0" == x + "0000";
  }
}
