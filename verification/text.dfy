/**
 * The two string operations the request wrapper relies on: Python's substring
 * test `pat in s` and `s.replace(pat, rep)`, both for a non-empty pattern.
 */
module Text {

  /** `pat in s`: some window of `s` equals `pat`. */
  predicate Contains(s: string, pat: string)
    decreases |s|
  {
    |pat| <= |s| && (s[..|pat|] == pat || Contains(s[1..], pat))
  }

  /**
   * `s.replace(pat, rep)`: scanning left to right, every occurrence of `pat`
   * that does not overlap an earlier replaced one is replaced by `rep`.
   */
  function Replace(s: string, pat: string, rep: string): (r: string)
    requires pat != []
    decreases |s|
  {
    if |s| < |pat| then s
    else if s[..|pat|] == pat then rep + Replace(s[|pat|..], pat, rep)
    else [s[0]] + Replace(s[1..], pat, rep)
  }

  /** A string without the pattern is returned unchanged. */
  lemma {:induction false} ReplaceAbsent(s: string, pat: string, rep: string)
    requires pat != []
    requires !Contains(s, pat)
    ensures Replace(s, pat, rep) == s
    decreases |s|
  {
    if |pat| <= |s| {
      ReplaceAbsent(s[1..], pat, rep);
      assert s == [s[0]] + s[1..];
    }
  }

  /**
   * When the only occurrence of the pattern is the one that ends the string
   * (no occurrence lies in the string with its last character removed),
   * exactly that final occurrence is replaced.
   */
  lemma {:induction false} ReplaceFinal(a: string, pat: string, rep: string)
    requires pat != []
    requires !Contains(a + pat[..|pat| - 1], pat)
    ensures Replace(a + pat, pat, rep) == a + rep
    decreases |a|
  {
    var s := a + pat;
    if a == [] {
      assert s == pat && s[..|pat|] == pat && s[|pat|..] == [];
    } else {
      var t := a + pat[..|pat| - 1];
      assert s[..|pat|] == t[..|pat|];
      assert t[1..] == a[1..] + pat[..|pat| - 1];
      ReplaceFinal(a[1..], pat, rep);
      assert s[1..] == a[1..] + pat;
      assert a == [a[0]] + a[1..];
    }
  }

  /** A string that lacks some character of the pattern cannot contain it. */
  lemma {:induction false} MissingCharExcludes(s: string, pat: string, c: char)
    requires c in pat && c !in s
    ensures !Contains(s, pat)
    decreases |s|
  {
    if |pat| <= |s| {
      assert c in pat[..|pat|] && c !in s[..|pat|];
      assert c !in s[1..] by { assert forall x :: x in s[1..] ==> x in s; }
      MissingCharExcludes(s[1..], pat, c);
    }
  }
}
