/**
 * Bounded retention: pandas `iloc[-n:]` after the chart's upsert, and the
 * contents of a `deque(maxlen=n)` after an append, both keep the newest `n`
 * elements in their original order.
 */
module Retention {

  /** The last `n` elements of `s`, or all of `s` when it is not longer than `n`. */
  function KeepLast<T>(s: seq<T>, n: nat): (r: seq<T>)
    ensures |r| == if |s| <= n then |s| else n
    ensures r == s[|s| - |r|..]
  {
    if |s| <= n then s else s[|s| - n..]
  }

  /**
   * Appending to an already bounded buffer and trimming again is the same as
   * bounding the whole history: so a `deque(maxlen=n)` always holds the newest
   * `n` values ever appended.
   */
  lemma KeepLastAppend<T>(s: seq<T>, x: T, n: nat)
    ensures KeepLast(KeepLast(s, n) + [x], n) == KeepLast(s + [x], n)
  {
    var k := KeepLast(s, n);
    var lhs := KeepLast(k + [x], n);
    var rhs := KeepLast(s + [x], n);
    assert |lhs| == |rhs|;
    forall i | 0 <= i < |lhs|
      ensures lhs[i] == rhs[i]
    {
      var j := i + |k| + 1 - |lhs|;
      var m := i + |s| + 1 - |rhs|;
      assert lhs[i] == (k + [x])[j];
      assert rhs[i] == (s + [x])[m];
      if j < |k| {
        assert k[j] == s[|s| - |k| + j];
      }
    }
  }

  /** Trimming to a positive bound never drops the newest element. */
  lemma KeepLastKeepsNewest<T>(s: seq<T>, n: nat)
    requires |s| > 0 && n > 0
    ensures |KeepLast(s, n)| > 0 && KeepLast(s, n)[|KeepLast(s, n)| - 1] == s[|s| - 1]
  {
  }
}
