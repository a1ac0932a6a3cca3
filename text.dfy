/**
 * String comparison ignoring case, as String.equalsIgnoreCase does it for
 * ASCII letters.
 */
module Text {

  /** Character.toLowerCase on the ASCII range; every other character is kept. */
  function LowerChar(c: char): char
  {
    if 'A' <= c <= 'Z' then (c as int + ('a' as int - 'A' as int)) as char else c
  }

  /** The case-folded form of a string: every character lowered. */
  function Fold(s: string): (r: string)
    ensures |r| == |s|
    ensures forall i :: 0 <= i < |s| ==> r[i] == LowerChar(s[i])
  {
    if s == [] then [] else [LowerChar(s[0])] + Fold(s[1..])
  }

  /** a.equalsIgnoreCase(b) */
  predicate EqualsIgnoreCase(a: string, b: string)
  {
    Fold(a) == Fold(b)
  }

  /**
   * The character-by-character reading of equalsIgnoreCase (same length, and
   * each pair of characters equal once lowered) agrees with comparing the
   * folded strings.
   */
  lemma EqualsIgnoreCaseByChars(a: string, b: string)
    ensures EqualsIgnoreCase(a, b) <==>
      |a| == |b| && forall i :: 0 <= i < |a| ==> LowerChar(a[i]) == LowerChar(b[i])
  {
    if |a| == |b| && forall i :: 0 <= i < |a| ==> LowerChar(a[i]) == LowerChar(b[i]) {
      assert forall i :: 0 <= i < |a| ==> Fold(a)[i] == Fold(b)[i];
    }
  }

  /** Folding twice is folding once. */
  lemma {:induction false} FoldIdempotent(s: string)
    ensures Fold(Fold(s)) == Fold(s)
  {
    if s != [] {
      FoldIdempotent(s[1..]);
      assert Fold(s) == [LowerChar(s[0])] + Fold(s[1..]);
    }
  }
}
