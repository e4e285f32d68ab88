/**
 * Searches over sequences that several components share: Rust's
 * `iter().find(p)` and `iter().position(p)`, as the position of the first
 * element that satisfies a predicate.
 */
module Seqs {
  import opened Wrappers

  /**
   * `iter().position(p)`, which `iter().find(p)` dereferences: the position
   * of the first element that satisfies `p`.
   */
  function FindFirst<T>(s: seq<T>, p: T -> bool): (r: Option<nat>)
    ensures r.None? <==> forall j | 0 <= j < |s| :: !p(s[j])
    ensures r.Some? ==> r.value < |s| && p(s[r.value]) && forall j | 0 <= j < r.value :: !p(s[j])
  {
    if s == [] then None
    else if p(s[0]) then Some(0)
    else
      var rest := FindFirst(s[1..], p);
      assert forall j | 1 <= j < |s| :: s[1..][j - 1] == s[j];
      if rest.None? then None else Some(rest.value + 1)
  }

  /** Searching one element further finds the same element, or else the new one if it matches. */
  lemma FindFirstExtend<T>(s: seq<T>, k: nat, p: T -> bool)
    requires k < |s|
    ensures FindFirst(s[..k + 1], p)
         == if FindFirst(s[..k], p).Some? then FindFirst(s[..k], p) else if p(s[k]) then Some(k) else None
  {
    assert forall j | 0 <= j < k :: s[..k + 1][j] == s[..k][j];
    assert s[..k + 1][k] == s[k];
  }
}
