/** Bounded windows over a stream: both the firmware's history ring buffer and
    the browser's history arrays keep the most recent entries of a stream. */
module Window {

  /** The last `n` elements of `s`, or all of `s` when it is shorter. */
  function LastN<T>(s: seq<T>, n: nat): (w: seq<T>)
    ensures |w| == if |s| < n then |s| else n
    ensures forall k :: 0 <= k < |w| ==> w[k] == s[|s| - |w| + k]
  {
    if |s| <= n then s else s[|s| - n..]
  }

  /** Windowing is incremental: trimming after every append keeps exactly the
      window of the whole stream. */
  lemma LastNAppend<T>(s: seq<T>, x: T, n: nat)
    ensures LastN(LastN(s, n) + [x], n) == LastN(s + [x], n)
  {
    var a, b := LastN(LastN(s, n) + [x], n), LastN(s + [x], n);
    assert |a| == |b|;
    forall k | 0 <= k < |a| ensures a[k] == b[k] {
      if k == |a| - 1 {
      } else {
        assert a[k] == (LastN(s, n) + [x])[|LastN(s, n) + [x]| - |a| + k];
      }
    }
  }
}
