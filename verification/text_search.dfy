/**
  The case-insensitive substring test that the knob look-and-feel applies to a
  slider's name: a search for the lower-cased word in the lower-cased name.
  Mentions is the independent, character-wise statement of the same test.
 */
module TextSearch {
  import opened AsciiCase

  /** p occurs in s starting at position i. */
  predicate OccursAt(p: string, s: string, i: int) {
    0 <= i && i + |p| <= |s| && s[i..i + |p|] == p
  }

  /** Plain substring search: does p occur anywhere in s? */
  function Contains(s: string, p: string): bool
    decreases |s|
  {
    if |s| < |p| then false
    else if s[..|p|] == p then true
    else Contains(s[1..], p)
  }

  /** The search finds p exactly when p occurs at some position of s. */
  lemma {:induction false} ContainsIffOccurs(s: string, p: string)
    ensures Contains(s, p) <==> exists i :: OccursAt(p, s, i)
    decreases |s|
  {
    if |s| < |p| {
    } else if s[..|p|] == p {
      assert OccursAt(p, s, 0);
    } else {
      ContainsIffOccurs(s[1..], p);
      forall i | OccursAt(p, s, i)
        ensures OccursAt(p, s[1..], i - 1)
      {
        assert i != 0;
        assert s[1..][i - 1..i - 1 + |p|] == s[i..i + |p|];
      }
      if Contains(s[1..], p) {
        var i :| OccursAt(p, s[1..], i);
        assert s[1..][i..i + |p|] == s[i + 1..i + 1 + |p|];
        assert OccursAt(p, s, i + 1);
      }
    }
  }

  /** word matches name at position i, character by character, ignoring case. */
  predicate MatchesAt(word: string, name: string, i: int) {
    0 <= i && i + |word| <= |name|
    && forall j :: 0 <= j < |word| ==> EqualIgnoringCase(name[i + j], word[j])
  }

  /** name mentions word somewhere, ignoring the case of ASCII letters. */
  ghost predicate Mentions(name: string, word: string) {
    exists i :: MatchesAt(word, name, i)
  }

  /** Folding commutes with taking a slice. */
  lemma LowerSlice(s: string, lo: int, hi: int)
    requires 0 <= lo <= hi <= |s|
    ensures Lower(s)[lo..hi] == Lower(s[lo..hi])
  {
    assert forall j :: 0 <= j < hi - lo ==> Lower(s)[lo..hi][j] == Lower(s[lo..hi])[j];
  }

  /** Matching at a position is the same as the slice there being equal to the
      word ignoring case. */
  lemma MatchesAtIffSliceSame(word: string, name: string, i: int)
    requires 0 <= i && i + |word| <= |name|
    ensures MatchesAt(word, name, i) <==> SameIgnoringCase(name[i..i + |word|], word)
  {
    var window := name[i..i + |word|];
    assert forall j :: 0 <= j < |word| ==> window[j] == name[i + j];
  }

  /** At one position, the lower-cased texts agree exactly when the originals
      match ignoring case. */
  lemma OccursAtLowerIffMatchesAt(name: string, word: string, i: int)
    ensures OccursAt(Lower(word), Lower(name), i) <==> MatchesAt(word, name, i)
  {
    if 0 <= i && i + |word| <= |name| {
      LowerSlice(name, i, i + |word|);
      LowerEqualIffSameIgnoringCase(name[i..i + |word|], word);
      MatchesAtIffSliceSame(word, name, i);
    }
  }

  /** A name that lacks some letter of word, in either case, cannot mention word. */
  lemma AbsentLetterExcludesMention(name: string, word: string, j: int)
    requires 0 <= j < |word|
    requires forall i :: 0 <= i < |name| ==> !EqualIgnoringCase(name[i], word[j])
    ensures !Mentions(name, word)
  {
    forall i | 0 <= i && i + |word| <= |name|
      ensures !MatchesAt(word, name, i)
    {
      assert !EqualIgnoringCase(name[i + j], word[j]);
    }
  }

  /** The lower-case search is exactly the case-insensitive mention test. */
  lemma LowerContainsIffMentions(name: string, word: string)
    ensures Contains(Lower(name), Lower(word)) <==> Mentions(name, word)
  {
    ContainsIffOccurs(Lower(name), Lower(word));
    if Contains(Lower(name), Lower(word)) {
      var i :| OccursAt(Lower(word), Lower(name), i);
      OccursAtLowerIffMatchesAt(name, word, i);
    }
    if Mentions(name, word) {
      var i :| MatchesAt(word, name, i);
      OccursAtLowerIffMatchesAt(name, word, i);
    }
  }

  /** The name test used by the look-and-feel: containment ignoring case,
      that is, a search for the lower-cased word in the lower-cased name. */
  function ContainsIgnoreCase(name: string, word: string): (r: bool)
    ensures r <==> Mentions(name, word)
  {
    LowerContainsIffMentions(name, word);
    Contains(Lower(name), Lower(word))
  }

  /** Position of the first case-insensitive occurrence of word in name, or -1
      when there is none: the search behind the containment test. */
  method IndexOfIgnoreCase(name: string, word: string) returns (k: int)
    ensures -1 <= k
    ensures k == -1 <==> !Mentions(name, word)
    ensures k >= 0 ==> MatchesAt(word, name, k)
    ensures forall j :: 0 <= j < k ==> !MatchesAt(word, name, j)
    ensures k >= 0 <==> ContainsIgnoreCase(name, word)
  {
    if |word| > |name| {
      return -1;
    }
    var i := 0;
    while i <= |name| - |word|
      invariant 0 <= i <= |name| - |word| + 1
      invariant forall j :: 0 <= j < i ==> !MatchesAt(word, name, j)
    {
      var n := 0;
      while n < |word| && ToLower(name[i + n]) == ToLower(word[n])
        invariant 0 <= n <= |word|
        invariant forall j :: 0 <= j < n ==> EqualIgnoringCase(name[i + j], word[j])
      {
        ToLowerMatchesIffEqualIgnoringCase(name[i + n], word[n]);
        n := n + 1;
      }
      if n == |word| {
        assert MatchesAt(word, name, i);
        return i;
      }
      ToLowerMatchesIffEqualIgnoringCase(name[i + n], word[n]);
      assert !EqualIgnoringCase(name[i + n], word[n]);
      assert !MatchesAt(word, name, i);
      i := i + 1;
    }
    return -1;
  }
}
