/**
 * The part of Python's str.replace the element classes rely on: removing
 * every occurrence of a pattern.
 */
module PyStrings {
  /** s with every non-overlapping occurrence of pat removed, left to right, as str.replace(pat, "") does. */
  function RemoveAll(s: string, pat: string): (r: string)
    requires |pat| > 0
    ensures |r| <= |s|
    decreases |s|
  {
    if |s| < |pat| then s
    else if s[..|pat|] == pat then RemoveAll(s[|pat|..], pat)
    else [s[0]] + RemoveAll(s[1..], pat)
  }

  /** pat occurs in s at position i. */
  predicate At(s: string, pat: string, i: nat)
  {
    i + |pat| <= |s| && s[i..i + |pat|] == pat
  }

  /** pat occurs in s at some position. */
  ghost predicate Occurs(s: string, pat: string)
  {
    exists i: nat :: At(s, pat, i)
  }

  lemma AtTail(s: string, pat: string, i: nat)
    requires |s| > 0
    ensures At(s[1..], pat, i) ==> At(s, pat, i + 1)
  {
    if At(s[1..], pat, i) {
      assert s[1..][i..i + |pat|] == s[i + 1..i + 1 + |pat|];
    }
  }

  /** A string in which the pattern does not occur is left as it is. */
  lemma {:induction false} RemoveAllAbsent(s: string, pat: string)
    requires |pat| > 0 && !Occurs(s, pat)
    ensures RemoveAll(s, pat) == s
    decreases |s|
  {
    if |s| >= |pat| {
      assert !At(s, pat, 0);
      assert s[0..0 + |pat|] == s[..|pat|];
      forall i: nat
        ensures !At(s[1..], pat, i)
      {
        AtTail(s, pat, i);
      }
      RemoveAllAbsent(s[1..], pat);
      assert [s[0]] + s[1..] == s;
    }
  }

  /** An occurrence at the front is removed and the rest follows. */
  lemma RemoveAllFront(s: string, pat: string)
    requires |pat| > 0
    ensures RemoveAll(pat + s, pat) == RemoveAll(s, pat)
  {
    assert (pat + s)[..|pat|] == pat;
    assert (pat + s)[|pat|..] == s;
  }

  /** A first character that differs from the pattern's at position k is kept. */
  lemma RemoveAllKeeps(c: char, s: string, pat: string, k: nat)
    requires |pat| > 0 && k < |pat| && k <= |s| && ([c] + s)[k] != pat[k]
    ensures RemoveAll([c] + s, pat) == [c] + RemoveAll(s, pat)
  {
    var t := [c] + s;
    if |t| >= |pat| {
      assert t[..|pat|][k] != pat[k];
    }
    assert t[1..] == s;
  }

  /** A prefix none of whose characters starts the pattern is kept in front. */
  lemma {:induction false} RemoveAllKeepsPrefix(p: string, s: string, pat: string)
    requires |pat| > 0 && forall i :: 0 <= i < |p| ==> p[i] != pat[0]
    ensures RemoveAll(p + s, pat) == p + RemoveAll(s, pat)
    decreases |p|
  {
    if |p| > 0 {
      RemoveAllKeepsPrefix(p[1..], s, pat);
      RemoveAllKeeps(p[0], p[1..] + s, pat, 0);
      assert [p[0]] + (p[1..] + s) == p + s;
      assert [p[0]] + (p[1..] + RemoveAll(s, pat)) == p + RemoveAll(s, pat);
    } else {
      assert p + s == s;
    }
  }

  /** The pattern alone is removed entirely. */
  lemma RemoveAllSelf(pat: string)
    requires |pat| > 0
    ensures RemoveAll(pat, pat) == []
  {
    RemoveAllFront([], pat);
    assert pat + [] == pat;
  }

  /** Removing a pattern that starts with "el" (such as "element") from "beam" followed by it. */
  lemma RemoveElementFromBeam(e: string)
    requires |e| >= 2 && e[0] == 'e' && e[1] == 'l'
    ensures RemoveAll(['b', 'e', 'a', 'm'] + e, e) == ['b', 'e', 'a', 'm']
  {
    RemoveAllSelf(e);
    RemoveAllKeepsPrefix(['a', 'm'], e, e);
    assert RemoveAll(['a', 'm'] + e, e) == ['a', 'm'];
    RemoveAllKeeps('e', ['a', 'm'] + e, e, 1);
    assert ['e'] + (['a', 'm'] + e) == ['e', 'a', 'm'] + e;
    RemoveAllKeeps('b', ['e', 'a', 'm'] + e, e, 0);
    assert ['b'] + (['e', 'a', 'm'] + e) == ['b', 'e', 'a', 'm'] + e;
  }

  /** Removing a pattern that starts with 'e' (such as "element") from "block" followed by it. */
  lemma RemoveElementFromBlock(e: string)
    requires |e| >= 1 && e[0] == 'e'
    ensures RemoveAll(['b', 'l', 'o', 'c', 'k'] + e, e) == ['b', 'l', 'o', 'c', 'k']
  {
    RemoveAllSelf(e);
    RemoveAllKeepsPrefix(['b', 'l', 'o', 'c', 'k'], e, e);
    assert ['b', 'l', 'o', 'c', 'k'] + [] == ['b', 'l', 'o', 'c', 'k'];
  }

}
