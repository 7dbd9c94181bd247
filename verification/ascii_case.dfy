/**
  ASCII letter case, as used by the case-insensitive name tests of the knob
  look-and-feel. Only the 26 ASCII capitals are folded; every other character
  compares as itself.
 */
module AsciiCase {

  predicate IsUpper(c: char) {
    'A' <= c <= 'Z'
  }

  /** The case-insensitive character equality, stated independently of ToLower:
      equal, or the same ASCII letter written in the two cases. */
  predicate EqualIgnoringCase(a: char, b: char) {
    a == b
    || (IsUpper(a) && b as int == a as int + 32)
    || (IsUpper(b) && a as int == b as int + 32)
  }

  /** Two strings that differ at most in the case of their ASCII letters. */
  ghost predicate SameIgnoringCase(a: string, b: string) {
    |a| == |b| && forall i :: 0 <= i < |a| ==> EqualIgnoringCase(a[i], b[i])
  }

  /** The lower-case form of one character. */
  function ToLower(c: char): (d: char)
    ensures !IsUpper(d)
    ensures EqualIgnoringCase(c, d)
  {
    if IsUpper(c) then (c as int + 32) as char else c
  }

  /** Two characters have the same lower-case form exactly when they are equal
      ignoring case. */
  lemma ToLowerMatchesIffEqualIgnoringCase(a: char, b: char)
    ensures ToLower(a) == ToLower(b) <==> EqualIgnoringCase(a, b)
  {
  }

  /** The lower-case form of a string, character by character. */
  function Lower(s: string): (r: string)
    ensures |r| == |s|
    ensures forall i :: 0 <= i < |s| ==> !IsUpper(r[i]) && EqualIgnoringCase(s[i], r[i])
  {
    seq(|s|, i requires 0 <= i < |s| => ToLower(s[i]))
  }

  /** Two strings have the same lower-case form exactly when they differ at most
      in letter case. */
  lemma LowerEqualIffSameIgnoringCase(a: string, b: string)
    ensures Lower(a) == Lower(b) <==> SameIgnoringCase(a, b)
  {
    if |a| == |b| {
      forall i | 0 <= i < |a|
        ensures Lower(a)[i] == Lower(b)[i] <==> EqualIgnoringCase(a[i], b[i])
      {
        ToLowerMatchesIffEqualIgnoringCase(a[i], b[i]);
      }
      if SameIgnoringCase(a, b) {
        assert forall i :: 0 <= i < |a| ==> Lower(a)[i] == Lower(b)[i];
      }
    }
  }
}
