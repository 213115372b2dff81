/** The two `std::string` searches the scripts rely on, each with its
    defining property. */
module Strings {
  import opened Wrappers

  /** `s.find_first_of(c, from)`: the first index at or after `from` that
      holds `c`, or `None` (npos) when there is none. */
  function FindFirstOf(s: string, c: char, from: nat): (r: Option<nat>)
    ensures r.Some? ==> from <= r.value < |s| && s[r.value] == c
    ensures r.Some? ==> forall j :: from <= j < r.value ==> s[j] != c
    ensures r.None? ==> forall j :: from <= j < |s| ==> s[j] != c
    decreases |s| - from
  {
    if from >= |s| then None
    else if s[from] == c then Some(from)
    else FindFirstOf(s, c, from + 1)
  }

  /** When index `k` holds the first `c` at or after `from`, the search finds `k`. */
  lemma FindFirstOfIs(s: string, c: char, from: nat, k: nat)
    requires from <= k < |s| && s[k] == c
    requires forall j :: from <= j < k ==> s[j] != c
    ensures FindFirstOf(s, c, from) == Some(k)
  {
  }

  /** `pat` occurs in `s` starting at index `i`. */
  predicate OccursAt(s: string, pat: string, i: nat) {
    i + |pat| <= |s| && s[i..i + |pat|] == pat
  }

  predicate Contains(s: string, pat: string) {
    exists i: nat | i <= |s| :: OccursAt(s, pat, i)
  }

  /** `s.find(pat, from)`: the first occurrence of `pat` at or after `from`,
      or `None` (npos). */
  function Find(s: string, pat: string, from: nat): (r: Option<nat>)
    ensures r.Some? ==> from <= r.value && OccursAt(s, pat, r.value)
    ensures r.Some? ==> forall j :: from <= j < r.value ==> !OccursAt(s, pat, j)
    ensures r.None? ==> forall j: nat :: from <= j ==> !OccursAt(s, pat, j)
    decreases |s| - from
  {
    if from + |pat| > |s| then None
    else if s[from..from + |pat|] == pat then Some(from)
    else Find(s, pat, from + 1)
  }

  /** Searching from the start fails exactly when the pattern occurs nowhere. */
  lemma FindFailsIffAbsent(s: string, pat: string)
    ensures Find(s, pat, 0).None? <==> !Contains(s, pat)
  {
    var r := Find(s, pat, 0);
    if r.Some? {
      assert OccursAt(s, pat, r.value);
    }
  }
}
