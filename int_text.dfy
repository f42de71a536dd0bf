/**
 * Decimal text of integers: Java's `String.valueOf(int)` (also what `%d` and
 * string concatenation print) and `Integer.parseInt` for ASCII digits.
 */
module IntText {
  import opened Wrappers
  import opened JavaInt

  predicate IsDigit(c: char) { '0' <= c <= '9' }

  function DigitChar(d: int): (c: char)
    requires 0 <= d < 10
    ensures IsDigit(c) && c as int - '0' as int == d
  {
    ['0', '1', '2', '3', '4', '5', '6', '7', '8', '9'][d]
  }

  /** The decimal digits of a natural number, without leading zeros. */
  function Digits(n: nat): (s: string)
    ensures |s| >= 1
    ensures forall i :: 0 <= i < |s| ==> IsDigit(s[i])
    ensures |s| > 1 ==> s[0] != '0'
  {
    if n < 10 then [DigitChar(n)] else Digits(n / 10) + [DigitChar(n % 10)]
  }

  /** Java's `String.valueOf(n)`: a minus sign for negatives, then the digits. */
  function IntToString(n: int): (s: string)
    ensures |s| >= 1
    ensures n >= 0 ==> s == Digits(n)
    ensures n < 0 ==> s == "-" + Digits(-n)
  {
    if n < 0 then "-" + Digits(-n) else Digits(n)
  }

  /** The value of a string of decimal digits. */
  function DigitsValue(s: string): (v: int)
    requires forall i :: 0 <= i < |s| ==> IsDigit(s[i])
    ensures v >= 0
  {
    if |s| == 0 then 0
    else
      assert IsDigit(s[|s| - 1]);
      DigitsValue(s[..|s| - 1]) * 10 + (s[|s| - 1] as int - '0' as int)
  }

  predicate AllDigits(t: string) { forall i :: 0 <= i < |t| ==> IsDigit(t[i]) }

  /** The text after an optional leading sign. */
  function Unsigned(s: string): (t: string)
    requires |s| > 0
    ensures |s| - 1 <= |t| <= |s| && t == s[|s| - |t|..]
  {
    if s[0] == '-' || s[0] == '+' then s[1..] else s
  }

  /** The value of a signed digit string: negated exactly when it starts with '-'. */
  function SignedValue(s: string): int
    requires |s| > 0 && AllDigits(Unsigned(s))
  {
    if s[0] == '-' then -DigitsValue(Unsigned(s)) else DigitsValue(Unsigned(s))
  }

  /**
   * Java's `Integer.parseInt(s)` over ASCII digits: an optional sign, then at
   * least one digit, and a value in the `int` range; anything else raises
   * NumberFormatException, modelled as None.
   */
  function ParseInt(s: string): (r: Option<int>)
    ensures r.Some? ==> IsInt(r.value)
    ensures |s| == 0 ==> r.None?
    ensures r.Some? <==> |s| > 0 && |Unsigned(s)| > 0 && AllDigits(Unsigned(s)) && IsInt(SignedValue(s))
    ensures r.Some? ==> r.value == SignedValue(s)
  {
    if |s| == 0 then None
    else
      var neg := s[0] == '-';
      var body := if s[0] == '-' || s[0] == '+' then s[1..] else s;
      if |body| == 0 || exists i :: 0 <= i < |body| && !IsDigit(body[i]) then None
      else
        var v: int := if neg then -DigitsValue(body) else DigitsValue(body);
        if IsInt(v) then Some(v) else None
  }

  lemma {:induction false} DigitsValueOfDigits(n: nat)
    ensures DigitsValue(Digits(n)) == n
  {
    if n >= 10 {
      var s := Digits(n);
      assert s[..|s| - 1] == Digits(n / 10);
      DigitsValueOfDigits(n / 10);
    }
  }

  /** Printing an `int` and parsing it back gives the same `int`. */
  lemma ParseIntOfIntToString(n: int)
    requires IsInt(n)
    ensures ParseInt(IntToString(n)) == Some(n)
  {
    if n < 0 {
      DigitsValueOfDigits(-n);
      ParseIntOfNegated(Digits(-n));
    } else {
      DigitsValueOfDigits(n);
      ParseIntOfDigits(Digits(n));
    }
  }

  lemma ParseIntOfDigits(d: string)
    requires |d| >= 1 && (forall i :: 0 <= i < |d| ==> IsDigit(d[i])) && IsInt(DigitsValue(d))
    ensures ParseInt(d) == Some(DigitsValue(d))
  {
    assert IsDigit(d[0]);
    assert !(exists i :: 0 <= i < |d| && !IsDigit(d[i]));
  }

  lemma ParseIntOfNegated(d: string)
    requires |d| >= 1 && (forall i :: 0 <= i < |d| ==> IsDigit(d[i])) && IsInt(-DigitsValue(d))
    ensures ParseInt("-" + d) == Some(-DigitsValue(d))
  {
    var s := "-" + d;
    assert s[0] == '-' && s[1..] == d;
    assert !(exists i :: 0 <= i < |d| && !IsDigit(d[i]));
  }

  /** A printed integer never contains a colon, so it survives a split on ':'. */
  lemma IntToStringHasNoColon(n: int)
    ensures forall i :: 0 <= i < |IntToString(n)| ==> IntToString(n)[i] != ':'
  {
  }
}
