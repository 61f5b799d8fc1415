/**
 Python's `s[start:end]` on a list or on the first dimension of a tensor.
 Negative bounds count from the end, and bounds past either end are clamped,
 so every pair of integers is a legal slice.
 */
module Slices {

  /** Where a slice bound lands in a sequence of length `n`. */
  function ClampIndex(i: int, n: nat): (j: nat)
    ensures j <= n
    ensures 0 <= i <= n ==> j == i
    ensures i < 0 <= n + i ==> j == n + i
    ensures n + i < 0 ==> j == 0
    ensures n < i ==> j == n
  {
    if i < 0 then (if n + i < 0 then 0 else n + i)
    else if n < i then n
    else i
  }

  /** The length of `s[start:end]` when `|s| == n`: it depends on the length only. */
  function SliceLength(n: nat, start: int, end: int): (k: nat)
    ensures k <= n
    ensures 0 <= start <= end <= n ==> k == end - start
  {
    var lo := ClampIndex(start, n);
    var hi := ClampIndex(end, n);
    if hi <= lo then 0 else hi - lo
  }

  /** `s[start:end]` with Python's meaning of the bounds. */
  function Slice<T>(s: seq<T>, start: int, end: int): (r: seq<T>)
    ensures |r| == SliceLength(|s|, start, end)
    ensures forall j :: 0 <= j < |r| ==> r[j] == s[ClampIndex(start, |s|) + j]
    ensures 0 <= start <= end <= |s| ==> r == s[start..end]
  {
    var lo := ClampIndex(start, |s|);
    var hi := ClampIndex(end, |s|);
    if hi <= lo then [] else s[lo..hi]
  }

  /** Cutting at any index, negative or past the end, and rejoining gives the sequence back. */
  lemma SplitRejoins<T>(s: seq<T>, k: int)
    ensures Slice(s, 0, k) + Slice(s, k, |s|) == s
  {
  }

  /** Slicing a slice again with bounds relative to it is one slice of the original. */
  lemma SliceOfSlice<T>(s: seq<T>, a: int, b: int, c: int, d: int)
    requires 0 <= a <= b <= |s|
    requires 0 <= c <= d <= b - a
    ensures Slice(Slice(s, a, b), c, d) == Slice(s, a + c, a + d)
  {
  }
}
