/** Python's slicing of sequences, `s[lo:hi]`, and pandas' assignment to a tail slice. */
module PySlices {
  import opened Wrappers

  /** Where Python places a slice bound `i` on a sequence of length `n`: a negative bound counts back
      from the end, and the position is clamped to 0..n. */
  function Bound(i: int, n: nat): (b: nat)
    ensures b <= n
    ensures 0 <= i <= n ==> b == i
    ensures -(n as int) <= i < 0 ==> b == n + i
    ensures i > n ==> b == n
    ensures i < -(n as int) ==> b == 0
  {
    if i < 0 then (if -i <= n then n + i else 0) else if i <= n then i else n
  }

  /** `s[lo:hi]` with a step of one: the run of s from the placed lower bound up to the placed upper
      bound, or nothing when the bounds cross. */
  function Slice<T>(s: seq<T>, lo: int, hi: int): (r: seq<T>)
    ensures |r| == if Bound(lo, |s|) <= Bound(hi, |s|) then Bound(hi, |s|) - Bound(lo, |s|) else 0
    ensures forall i :: 0 <= i < |r| ==> r[i] == s[Bound(lo, |s|) + i]
  {
    var a, b := Bound(lo, |s|), Bound(hi, |s|);
    if a <= b then s[a..b] else []
  }

  /** Bounds inside the sequence are taken literally. */
  lemma SliceInside<T>(s: seq<T>, lo: int, hi: int)
    requires 0 <= lo <= hi <= |s|
    ensures Slice(s, lo, hi) == s[lo..hi]
  {
  }

  /** `s[-k:]` is the last k elements when 0 < k <= |s|, and all of s when k == 0 (as -0 == 0)
      or k > |s|. */
  lemma SliceTail<T>(s: seq<T>, k: nat)
    ensures Slice(s, -(k as int), |s|) == if 0 < k <= |s| then s[|s| - k..] else s
  {
  }

  /** `s[:-t] + s[-t:] == s` for every t >= 0; `s[:-t]` drops the last t elements when
      0 < t <= |s| and is empty otherwise. */
  lemma SliceSplit<T>(s: seq<T>, t: nat)
    ensures Slice(s, 0, -(t as int)) + Slice(s, -(t as int), |s|) == s
    ensures Slice(s, 0, -(t as int)) == if 0 < t <= |s| then s[..|s| - t] else []
  {
  }

  /** The number of positions `s[-k:]` covers in a sequence of length n. */
  function TailCount(n: nat, k: nat): (c: nat)
    ensures c == if 0 < k <= n then k else n
  {
    n - Bound(-(k as int), n)
  }

  /** pandas' `col[-k:] = vals`: None when the lengths differ (pandas raises), otherwise the column
      with its last |vals| positions replaced by vals, in order, and the rest unchanged. */
  function AssignTail<T>(col: seq<T>, k: nat, vals: seq<T>): (r: Option<seq<T>>)
    ensures r.Some? <==> |vals| == |Slice(col, -(k as int), |col|)|
    ensures r.Some? ==> |r.value| == |col|
    ensures r.Some? ==> forall i :: 0 <= i < |col| - |vals| ==> r.value[i] == col[i]
    ensures r.Some? ==> forall i :: |col| - |vals| <= i < |col| ==> r.value[i] == vals[i - (|col| - |vals|)]
  {
    var lo := Bound(-(k as int), |col|);
    if |vals| == |col| - lo then Some(col[..lo] + vals) else None
  }
}
