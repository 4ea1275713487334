/** `Array.rotate()`: move the first element to the back. */
module Rotation {

  function Rotate<T>(s: seq<T>): seq<T> {
    if |s| == 0 then s else s[1..] + [s[0]]
  }

  /** An empty sequence is left alone; otherwise the length and the contents
      are kept and each position takes the element one place further along,
      cyclically. */
  lemma RotateLaws<T>(s: seq<T>)
    ensures |s| == 0 ==> Rotate(s) == s
    ensures |Rotate(s)| == |s| && multiset(Rotate(s)) == multiset(s)
    ensures forall i :: 0 <= i < |s| ==> Rotate(s)[i] == s[if i + 1 < |s| then i + 1 else 0]
  {
    if |s| > 0 {
      assert s == [s[0]] + s[1..];
    }
  }

  /** `rotate()` applied `k` times. */
  function RotateTimes<T>(s: seq<T>, k: nat): (r: seq<T>)
    ensures |r| == |s|
    decreases k
  {
    if k == 0 then s else RotateTimes(Rotate(s), k - 1)
  }

  /** Rotations compose by adding their counts. */
  lemma {:induction false} RotateTimesAdd<T>(s: seq<T>, a: nat, b: nat)
    ensures RotateTimes(s, a + b) == RotateTimes(RotateTimes(s, a), b)
    decreases a
  {
    if a > 0 {
      RotateTimesAdd(Rotate(s), a - 1, b);
    }
  }

  /** One more rotation after `k` of them. */
  lemma RotateTimesSucc<T>(s: seq<T>, k: nat)
    ensures RotateTimes(s, k + 1) == Rotate(RotateTimes(s, k))
  {
    RotateTimesAdd(s, k, 1);
  }

  /** Up to a full cycle, `k` rotations move the first `k` elements, in
      order, behind the rest. */
  lemma {:induction false} RotateTimesSplit<T>(s: seq<T>, k: nat)
    requires k <= |s|
    ensures RotateTimes(s, k) == s[k..] + s[..k]
    decreases k
  {
    if k > 0 {
      var t := Rotate(s);
      RotateTimesSplit(t, k - 1);
      assert t[k - 1..] == s[k..] + [s[0]];
      assert t[..k - 1] == s[1..k];
      assert s[..k] == [s[0]] + s[1..k];
    }
  }

  /** Rotating a sequence as many times as it has elements restores it. */
  lemma {:induction false} RotateFullCycle<T>(s: seq<T>)
    ensures RotateTimes(s, |s|) == s
  {
    RotateTimesSplit(s, |s|);
  }
}
