/** Sequence helpers for Python's negative slices (`xs[-k:]`). */
module Seqs {

  function Min(a: int, b: int): int {
    if a <= b then a else b
  }

  /** Python's `xs[-k:]` for `k >= 1`, and the empty list for `k == 0`:
      the last `k` elements of `s` (all of `s` when it is shorter). */
  function TakeLast<T>(s: seq<T>, k: nat): (r: seq<T>)
    ensures |r| == Min(k, |s|)
  {
    s[|s| - Min(k, |s|)..]
  }

  /** Taking a window after concatenating is the same as taking it after
      first shrinking the left part to the window: the older elements that
      the inner window drops would be dropped by the outer one anyway. */
  lemma TakeLastConcat<T>(a: seq<T>, b: seq<T>, k: nat)
    ensures TakeLast(TakeLast(a, k) + b, k) == TakeLast(a + b, k)
  {
    if k < |a| {
      var m := |a| - k;
      assert TakeLast(a, k) + b == (a + b)[m..];
      TakeLastOfSuffix(a + b, m, k);
    }
  }

  /** Dropping a prefix that the window would drop anyway changes nothing. */
  lemma TakeLastOfSuffix<T>(s: seq<T>, m: nat, k: nat)
    requires m <= |s| && k <= |s| - m
    ensures TakeLast(s[m..], k) == TakeLast(s, k)
  {
    assert s[m..][|s| - m - k..] == s[|s| - k..];
  }
}
