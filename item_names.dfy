/**
 * Registry names as the ring's filters write them: Java's String.trim and
 * the "minecraft:" namespace added to a bare name
 * (RsRingCapability.normalizeItemName, and the same steps inlined in
 * loadDefaultFilterList and ItemAbsorbRing.isInDefaultList).
 */
module ItemNames {
  import opened Wrappers

  const DefaultNamespace: string := "minecraft:"

  /** String.trim removes every character up to U+0020 from both ends. */
  predicate IsTrimmable(c: char) { c <= ' ' }

  predicate Blank(s: string) { forall i :: 0 <= i < |s| ==> IsTrimmable(s[i]) }

  /** A string that trim leaves as it is: empty, or with a non-blank first and last character. */
  predicate Trimmed(s: string) { s == [] || (!IsTrimmable(s[0]) && !IsTrimmable(s[|s| - 1])) }

  /** The first index at or after k whose character trim keeps, or |s|. */
  function SkipBlanks(s: string, k: nat): (j: nat)
    requires k <= |s|
    ensures k <= j <= |s|
    ensures forall i :: k <= i < j ==> IsTrimmable(s[i])
    ensures j < |s| ==> !IsTrimmable(s[j])
    decreases |s| - k
  {
    if k < |s| && IsTrimmable(s[k]) then SkipBlanks(s, k + 1) else k
  }

  /** The end of the text before k: the least j >= lo with only trimmable characters in s[j..k]. */
  function TextEnd(s: string, lo: nat, k: nat): (j: nat)
    requires lo <= k <= |s|
    ensures lo <= j <= k
    ensures forall i :: j <= i < k ==> IsTrimmable(s[i])
    ensures j > lo ==> !IsTrimmable(s[j - 1])
    decreases k
  {
    if k > lo && IsTrimmable(s[k - 1]) then TextEnd(s, lo, k - 1) else k
  }

  /** String.trim: the text between the leading and the trailing trimmable characters. */
  function Trim(s: string): (r: string)
    ensures Trimmed(r) && |r| <= |s|
    ensures r == [] <==> Blank(s)
  {
    var a := SkipBlanks(s, 0);
    var b := TextEnd(s, a, |s|);
    TrimBlank(s, a, b);
    s[a..b]
  }

  lemma TrimBlank(s: string, a: nat, b: nat)
    requires a == SkipBlanks(s, 0) && b == TextEnd(s, a, |s|)
    ensures Trimmed(s[a..b])
    ensures s[a..b] == [] <==> Blank(s)
  {
    if a < b {
      assert s[a..b][0] == s[a] && s[a..b][b - a - 1] == s[b - 1];
    }
  }

  /** trim changes nothing in a string that is already trimmed. */
  lemma TrimOfTrimmed(s: string)
    requires Trimmed(s)
    ensures Trim(s) == s
  {
  }

  predicate HasColon(s: string) { exists i :: 0 <= i < |s| && s[i] == ':' }

  lemma TrimmedWithPrefix(t: string)
    requires Trimmed(t) && t != []
    ensures Trimmed(DefaultNamespace + t) && HasColon(DefaultNamespace + t)
  {
    assert (DefaultNamespace + t)[9] == ':';
  }

  /**
   * normalizeItemName: "" for null or a blank name; otherwise the trimmed
   * name, given the "minecraft:" namespace when it has none.
   */
  function Normalize(item: Option<string>): (r: string)
    ensures item.None? ==> r == ""
    ensures item.Some? && Blank(item.value) ==> r == ""
    ensures item.Some? && !Blank(item.value) && HasColon(Trim(item.value)) ==> r == Trim(item.value)
    ensures item.Some? && !Blank(item.value) && !HasColon(Trim(item.value)) ==> r == DefaultNamespace + Trim(item.value)
    ensures r != "" ==> HasColon(r) && Trimmed(r)
  {
    if item.None? then ""
    else
      var t := Trim(item.value);
      if t == "" then ""
      else if HasColon(t) then t
      else TrimmedWithPrefix(t); DefaultNamespace + t
  }

  /** Normalizing a normalized name changes nothing. */
  lemma NormalizeIdempotent(item: Option<string>)
    ensures Normalize(Some(Normalize(item))) == Normalize(item)
  {
    var n := Normalize(item);
    if n != "" {
      TrimOfTrimmed(n);
      assert !Blank(n) by { assert !IsTrimmable(n[0]); }
    }
  }
}
