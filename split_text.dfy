/**
 * Java's String.split with a one-character separator that is not a regular
 * expression metacharacter (":" and "-" in this code base): the pieces
 * between separators, trailing empty pieces removed; a string without the
 * separator, the empty string included, is its own single piece.
 */
module SplitText {

  predicate Lacks(s: string, sep: char) { forall i :: 0 <= i < |s| ==> s[i] != sep }

  /** The pieces of a string between its separators, empty pieces included. */
  function Pieces(s: string, sep: char): (r: seq<string>)
    ensures |r| >= 1
  {
    if s == [] then [[]]
    else
      var rest := Pieces(s[1..], sep);
      if s[0] == sep then [[]] + rest else [[s[0]] + rest[0]] + rest[1..]
  }

  function DropTrailingEmpty(parts: seq<string>): seq<string>
  {
    if parts != [] && parts[|parts| - 1] == [] then DropTrailingEmpty(parts[..|parts| - 1]) else parts
  }

  /** s.split(sep). */
  function Split(s: string, sep: char): (r: seq<string>)
    ensures Lacks(s, sep) ==> r == [s]
  {
    if Lacks(s, sep) then PiecesLacking(s, sep); [s] else DropTrailingEmpty(Pieces(s, sep))
  }

  /** The pieces joined with one separator between neighbours (String.join). */
  function Join(parts: seq<string>, sep: char): (s: string)
    requires |parts| >= 1
  {
    if |parts| == 1 then parts[0] else parts[0] + [sep] + Join(parts[1..], sep)
  }

  lemma {:induction false} PiecesLacking(s: string, sep: char)
    requires Lacks(s, sep)
    ensures Pieces(s, sep) == [s]
  {
    if s != [] {
      PiecesLacking(s[1..], sep);
      assert [s[0]] + s[1..] == s;
    }
  }

  lemma {:induction false} PiecesOfPrefix(a: string, t: string, sep: char)
    requires Lacks(a, sep)
    ensures Pieces(a + t, sep) == [a + Pieces(t, sep)[0]] + Pieces(t, sep)[1..]
  {
    if a != [] {
      var s := a + t;
      assert s[0] == a[0] && a[0] != sep;
      assert s[1..] == a[1..] + t;
      PiecesOfPrefix(a[1..], t, sep);
      var rest := Pieces(s[1..], sep);
      assert rest[0] == a[1..] + Pieces(t, sep)[0];
      assert rest[1..] == Pieces(t, sep)[1..];
      assert Pieces(s, sep) == [[a[0]] + rest[0]] + rest[1..];
      assert [a[0]] + (a[1..] + Pieces(t, sep)[0]) == a + Pieces(t, sep)[0];
    } else {
      assert a + t == t;
      var p := Pieces(t, sep);
      assert a + p[0] == p[0];
      assert [p[0]] + p[1..] == p;
    }
  }

  /** Joining separator-free pieces and cutting at the separators gives the pieces back. */
  lemma {:induction false} PiecesOfJoin(parts: seq<string>, sep: char)
    requires |parts| >= 1 && forall k :: 0 <= k < |parts| ==> Lacks(parts[k], sep)
    ensures Pieces(Join(parts, sep), sep) == parts
  {
    if |parts| == 1 {
      PiecesLacking(parts[0], sep);
    } else {
      var t := [sep] + Join(parts[1..], sep);
      assert Join(parts, sep) == parts[0] + t;
      PiecesOfJoin(parts[1..], sep);
      assert t[0] == sep && t[1..] == Join(parts[1..], sep);
      assert Pieces(t, sep) == [[]] + parts[1..];
      PiecesOfPrefix(parts[0], t, sep);
      assert parts[0] + [] == parts[0];
      assert [parts[0]] + parts[1..] == parts;
    }
  }

  /**
   * split is the inverse of join for separator-free pieces whose last piece
   * is not empty (an empty last piece would be dropped).
   */
  lemma SplitJoin(parts: seq<string>, sep: char)
    requires |parts| >= 1 && forall k :: 0 <= k < |parts| ==> Lacks(parts[k], sep)
    requires parts[|parts| - 1] != []
    ensures Split(Join(parts, sep), sep) == parts
  {
    var s := Join(parts, sep);
    PiecesOfJoin(parts, sep);
    if |parts| > 1 {
      assert s == parts[0] + [sep] + Join(parts[1..], sep);
      assert s[|parts[0]|] == sep;
      assert !Lacks(s, sep);
      assert DropTrailingEmpty(parts) == parts;
    }
  }
}
