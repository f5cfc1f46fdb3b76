/** The three java.lang.String queries that RtspUnit.getPureFileName relies on,
    over `string` (a sequence of characters). Indices follow Java: -1 means
    "not found". */
module JavaString {

  /** `s.startsWith(p)` */
  predicate StartsWith(s: string, p: string)
    ensures StartsWith(s, p) <==> |p| <= |s| && forall i :: 0 <= i < |p| ==> s[i] == p[i]
  {
    |p| <= |s| && s[..|p|] == p
  }

  /** `p` occurs in `s` starting at index `i`. */
  predicate OccursAt(s: string, p: string, i: int)
  {
    0 <= i && i + |p| <= |s| && s[i..i + |p|] == p
  }

  /** The first index at or above `from` that holds `c`, or -1. */
  function IndexFrom(s: string, c: char, from: nat): (r: int)
    requires from <= |s|
    ensures r == -1 || from <= r < |s|
    ensures r == -1 <==> forall j :: from <= j < |s| ==> s[j] != c
    ensures r != -1 ==> s[r] == c && forall j :: from <= j < r ==> s[j] != c
    decreases |s| - from
  {
    if from == |s| then -1
    else if s[from] == c then from
    else IndexFrom(s, c, from + 1)
  }

  /** `s.indexOf(c)` */
  function IndexOf(s: string, c: char): (r: int)
    ensures -1 <= r < |s|
    ensures r == -1 <==> c !in s
    ensures r != -1 ==> s[r] == c && c !in s[..r]
  {
    IndexFrom(s, c, 0)
  }

  /** The last index at or below `i` where `p` occurs in `s`, or -1. */
  function LastIndexAtOrBelow(s: string, p: string, i: int): (r: int)
    ensures r == -1 || 0 <= r <= i
    ensures r != -1 ==> OccursAt(s, p, r)
    ensures forall j :: r < j <= i ==> !OccursAt(s, p, j)
    decreases i + 1
  {
    if i < 0 then -1
    else if OccursAt(s, p, i) then i
    else LastIndexAtOrBelow(s, p, i - 1)
  }

  /** `s.lastIndexOf(p)`: the greatest index at which `p` occurs, or -1. */
  function LastIndexOf(s: string, p: string): (r: int)
    ensures r == -1 || 0 <= r <= |s| - |p|
    ensures r != -1 ==> OccursAt(s, p, r)
    ensures forall j :: r < j ==> !OccursAt(s, p, j)
  {
    LastIndexAtOrBelow(s, p, |s| - |p|)
  }

  /** A prefix whose first character occurs nowhere else is the last occurrence. */
  lemma LastIndexOfUniquePrefix(s: string, p: string)
    requires |p| > 0 && StartsWith(s, p) && p[0] !in s[1..]
    ensures LastIndexOf(s, p) == 0
  {
    assert OccursAt(s, p, 0);
    forall j | 1 <= j <= |s| - |p|
      ensures !OccursAt(s, p, j)
    {
      assert s[j] == s[1..][j - 1];
      assert s[j..j + |p|][0] == s[j];
    }
  }
}
