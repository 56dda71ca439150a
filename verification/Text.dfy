/** The string operations the crawler takes from Go's strings package and from Lua,
    each with a contract that says what it finds rather than how. */
module Text {

  datatype Option<+T> = None | Some(value: T)

  predicate MatchesAt(s: string, pat: string, i: int) {
    0 <= i && i + |pat| <= |s| && s[i..i + |pat|] == pat
  }

  // strings.Index, and Lua's plain string.find: the first match, or -1.
  function Index(s: string, pat: string): (i: int)
    ensures i >= 0 ==> MatchesAt(s, pat, i)
    ensures forall j | 0 <= j && (i < 0 || j < i) :: !MatchesAt(s, pat, j)
    ensures i >= -1
  {
    if MatchesAt(s, pat, 0) then 0
    else if s == "" then -1
    else
      var j := Index(s[1..], pat);
      MatchesShift(s, pat);
      if j < 0 then -1 else j + 1
  }

  lemma MatchesShift(s: string, pat: string)
    requires s != ""
    ensures forall k | k >= 1 :: MatchesAt(s, pat, k) <==> MatchesAt(s[1..], pat, k - 1)
  {
    forall k | k >= 1 ensures MatchesAt(s, pat, k) <==> MatchesAt(s[1..], pat, k - 1) {
      if k + |pat| <= |s| {
        assert s[1..][k - 1..k - 1 + |pat|] == s[k..k + |pat|];
      }
    }
  }

  predicate Contains(s: string, pat: string) { Index(s, pat) >= 0 }

  predicate HasPrefix(s: string, prefix: string) { MatchesAt(s, prefix, 0) }

  // The part of s before the first c, or all of s.
  function Before(s: string, c: char): (r: string)
    ensures c !in r
    ensures r <= s && (|r| < |s| ==> s[|r|] == c)
    ensures c !in s ==> r == s
  {
    if s == "" || s[0] == c then "" else [s[0]] + Before(s[1..], c)
  }

  // strings.TrimRight with a one-character cutset.
  function TrimRight(s: string, c: char): (r: string)
    ensures r <= s && (r == "" || r[|r| - 1] != c)
    ensures forall k | |r| <= k < |s| :: s[k] == c
  {
    if s == "" || s[|s| - 1] != c then s else TrimRight(s[..|s| - 1], c)
  }

  // The first match is the only index that matches with no match before it.
  lemma IndexIs(s: string, pat: string, i: int)
    requires MatchesAt(s, pat, i)
    requires forall j | 0 <= j < i :: !MatchesAt(s, pat, j)
    ensures Index(s, pat) == i
  {
  }

  lemma {:induction false} BeforeIs(s: string, c: char, r: string)
    requires r <= s && c !in r && (|r| < |s| ==> s[|r|] == c)
    ensures Before(s, c) == r
  {
    if r != "" {
      assert s[0] == r[0];
      BeforeIs(s[1..], c, r[1..]);
    }
  }

  // A match in a prefix is the first match of the whole text.
  lemma PrefixContains(s: string, t: string, pat: string)
    requires t <= s && Contains(t, pat)
    ensures Contains(s, pat) && Index(s, pat) == Index(t, pat)
  {
    var i := Index(t, pat);
    assert s[i..i + |pat|] == t[i..i + |pat|];
    forall j | 0 <= j < i ensures !MatchesAt(s, pat, j) {
      assert t[j..j + |pat|] == s[j..j + |pat|];
      assert !MatchesAt(t, pat, j);
    }
    IndexIs(s, pat, i);
  }
}
