/**
 * Selection over a sequence of reals as the script does it: a left-to-right
 * scan that replaces the running best only on a strictly greater value, so
 * the first maximal index wins; and the element-wise minimum.
 */
module ArgMax {

  /** `k` is the lowest index at which `v` attains its maximum. */
  ghost predicate IsFirstArgMax(v: seq<real>, k: int)
  {
    0 <= k < |v| &&
    (forall j :: 0 <= j < |v| ==> v[j] <= v[k]) &&
    (forall j :: 0 <= j < k ==> v[j] < v[k])
  }

  /** Reference definition of the scan: extend the prefix's winner by one element. */
  function FirstArgMax(v: seq<real>): (k: nat)
    requires |v| > 0
    ensures IsFirstArgMax(v, k)
    decreases |v|
  {
    if |v| == 1 then 0
    else
      var k := FirstArgMax(v[..|v| - 1]);
      if v[|v| - 1] > v[k] then |v| - 1 else k
  }

  /** The first maximal index is determined by the sequence. */
  lemma FirstArgMaxUnique(v: seq<real>, a: int, b: int)
    requires IsFirstArgMax(v, a) && IsFirstArgMax(v, b)
    ensures a == b
  {
    // Each is a maximum, so the two values are equal; a strictly smaller
    // index would then contradict the other's "strictly below" clause.
    assert v[a] == v[b];
  }

  /** Subtracting the same amount from every element keeps the first maximal index. */
  lemma ShiftPreservesFirstArgMax(v: seq<real>, w: seq<real>, c: seq<real>, k: int)
    requires |w| == |v| && |c| == |v|
    requires forall i, j :: 0 <= i < |v| && 0 <= j < |v| ==> c[i] == c[j]
    requires forall i :: 0 <= i < |v| ==> w[i] == v[i] - c[i]
    ensures IsFirstArgMax(v, k) <==> IsFirstArgMax(w, k)
  {
  }

  /** The least element of a nonempty sequence (numpy's `min` along one axis). */
  function MinOf(s: seq<real>): (m: real)
    requires |s| > 0
    ensures m in s
    ensures forall j :: 0 <= j < |s| ==> m <= s[j]
    decreases |s|
  {
    if |s| == 1 then s[0]
    else
      var m := MinOf(s[..|s| - 1]);
      if s[|s| - 1] < m then s[|s| - 1] else m
  }
}
