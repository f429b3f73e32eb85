/** The substring search of Go's `strings` package, over `seq<char>`. */
module Strings {

  /** `pat` occurs in `s` starting at index `i`. */
  predicate OccursAt(s: string, pat: string, i: int)
  {
    0 <= i && i + |pat| <= |s| && s[i..i + |pat|] == pat
  }

  /** `pat` occurs somewhere in `s`. */
  ghost predicate Contains(s: string, pat: string)
  {
    exists i :: OccursAt(s, pat, i)
  }

  /** `strings.Index`: the index of the first occurrence of `pat` in `s`, or -1 if there is none.
      An empty `pat` is found at 0. */
  function Index(s: string, pat: string): (r: int)
    ensures r == -1 <==> !Contains(s, pat)
    ensures r != -1 ==> OccursAt(s, pat, r)
    ensures forall i :: 0 <= i < r ==> !OccursAt(s, pat, i)
  {
    IndexFrom(s, pat, 0)
  }

  /** The search of `Index`, once every start before `k` has been ruled out. */
  function IndexFrom(s: string, pat: string, k: nat): (r: int)
    requires forall i :: 0 <= i < k ==> !OccursAt(s, pat, i)
    ensures r == -1 <==> !Contains(s, pat)
    ensures r != -1 ==> k <= r && OccursAt(s, pat, r)
    ensures forall i :: 0 <= i < r ==> !OccursAt(s, pat, i)
    decreases |s| - k
  {
    if k + |pat| > |s| then -1
    else if s[k..k + |pat|] == pat then assert OccursAt(s, pat, k); k
    else IndexFrom(s, pat, k + 1)
  }

  /** An occurrence inside a prefix of `s` is an occurrence in `s` at the same index. */
  lemma OccursInPrefix(p: string, s: string, pat: string, i: int)
    requires p <= s
    requires OccursAt(p, pat, i)
    ensures OccursAt(s, pat, i)
  {
  }
}
