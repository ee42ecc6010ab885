/**
 * The two list helpers of timeseries/utils.py: the binary search `index_of`
 * and the minimum-spacing filter `prune_lists`.
 */
module Utils {
  import opened Wrappers
  import opened PyList

  // ---------------------------------------------------------------------------
  // index_of
  // ---------------------------------------------------------------------------

  /** Number of elements of `a` that are at most `v`. */
  function CountAtMost(a: seq<int>, v: int): (c: nat)
    ensures c <= |a|
  {
    if a == [] then 0 else (if a[0] <= v then 1 else 0) + CountAtMost(a[1..], v)
  }

  /** Number of elements of `a` that are strictly below `v`. */
  function CountBelow(a: seq<int>, v: int): (c: nat)
    ensures c <= |a|
  {
    if a == [] then 0 else (if a[0] < v then 1 else 0) + CountBelow(a[1..], v)
  }

  /**
   * Reference definition of the search for a numeric query: the last index
   * whose element is at most `v`, and 0 when no element is.
   */
  function Locate(v: int, a: seq<int>): (r: nat)
    ensures |a| > 0 ==> r < |a|
  {
    var c := CountAtMost(a, v);
    if c == 0 then 0 else c - 1
  }

  /** Reference definition of `index_of(val, a)`, where `None` is an open bound. */
  function IndexOfSpec(val: Option<int>, a: seq<int>): (r: int)
    ensures |a| > 0 ==> 0 <= r < |a|
    ensures val.None? ==> r + 1 == |a|
    ensures |a| == 0 && val.Some? ==> r == 0
  {
    if val.None? then |a| - 1 else Locate(val.value, a)
  }

  /** On an ascending list, the elements at most `v` are exactly a prefix. */
  lemma {:induction false} CountAtMostSplits(a: seq<int>, v: int)
    requires Increasing(a)
    ensures forall i :: 0 <= i < CountAtMost(a, v) ==> a[i] <= v
    ensures forall i :: CountAtMost(a, v) <= i < |a| ==> v < a[i]
    decreases |a|
  {
    if a != [] {
      CountAtMostSplits(a[1..], v);
      if v < a[0] {
        CountAtMostOfSplit(a[1..], v, 0);
      }
    }
  }

  /** A prefix of elements below-or-at `v` followed only by larger ones has exactly that length. */
  lemma {:induction false} CountAtMostOfSplit(a: seq<int>, v: int, k: nat)
    requires k <= |a|
    requires forall i :: 0 <= i < k ==> a[i] <= v
    requires forall i :: k <= i < |a| ==> v < a[i]
    ensures CountAtMost(a, v) == k
    decreases |a|
  {
    if a != [] {
      if k == 0 {
        CountAtMostOfSplit(a[1..], v, 0);
      } else {
        CountAtMostOfSplit(a[1..], v, k - 1);
      }
    }
  }

  /** On an ascending list, the elements strictly below `v` are exactly a prefix. */
  lemma {:induction false} CountBelowSplits(a: seq<int>, v: int)
    requires Increasing(a)
    ensures forall i :: 0 <= i < CountBelow(a, v) ==> a[i] < v
    ensures forall i :: CountBelow(a, v) <= i < |a| ==> v <= a[i]
    decreases |a|
  {
    if a != [] {
      CountBelowSplits(a[1..], v);
      if v <= a[0] {
        CountBelowOfSplit(a[1..], v, 0);
      }
    }
  }

  /** A prefix of elements below `v` followed only by ones at or above it has exactly that length. */
  lemma {:induction false} CountBelowOfSplit(a: seq<int>, v: int, k: nat)
    requires k <= |a|
    requires forall i :: 0 <= i < k ==> a[i] < v
    requires forall i :: k <= i < |a| ==> v <= a[i]
    ensures CountBelow(a, v) == k
    decreases |a|
  {
    if a != [] {
      if k == 0 {
        CountBelowOfSplit(a[1..], v, 0);
      } else {
        CountBelowOfSplit(a[1..], v, k - 1);
      }
    }
  }

  /** On an ascending list, a value above position `m - 1` and at most position `m` has `m` elements below it. */
  lemma CountBelowBetween(a: seq<int>, v: int, m: nat)
    requires Increasing(a) && m < |a| && (m > 0 ==> a[m - 1] < v) && v <= a[m]
    ensures CountBelow(a, v) == m
  {
    forall i | 0 <= i < m ensures a[i] < v {
      if i < m - 1 {
        assert a[i] < a[m - 1];
      }
    }
    forall i | m <= i < |a| ensures v <= a[i] {
      if m < i {
        assert a[m] < a[i];
      }
    }
    CountBelowOfSplit(a, v, m);
  }

  /** A query present in a strictly ascending list finds its own index. */
  lemma LocatePresent(v: int, a: seq<int>, i: nat)
    requires Increasing(a) && i < |a| && a[i] == v
    ensures Locate(v, a) == i
  {
    CountAtMostOfSplit(a, v, i + 1);
  }

  /**
   * An absent query above the first element finds the last element below it,
   * which is the last index when the query exceeds every element.
   */
  lemma LocateAbsentAbove(v: int, a: seq<int>)
    requires Increasing(a) && |a| > 0 && v !in a && a[0] < v
    ensures a[Locate(v, a)] < v
    ensures Locate(v, a) + 1 < |a| ==> v < a[Locate(v, a) + 1]
    ensures a[|a| - 1] < v ==> Locate(v, a) == |a| - 1
  {
    CountAtMostSplits(a, v);
    assert a[Locate(v, a)] != v;
  }

  /** A query below the first element maps to index 0. */
  lemma LocateBelow(v: int, a: seq<int>)
    requires Increasing(a) && |a| > 0 && v < a[0]
    ensures Locate(v, a) == 0
  {
    CountAtMostOfSplit(a, v, 0);
  }

  /** Hold semantics: from the first element on, the located element is the last one at or before the query. */
  lemma LocateHolds(v: int, a: seq<int>)
    requires Increasing(a) && |a| > 0 && a[0] <= v
    ensures a[Locate(v, a)] <= v
    ensures Locate(v, a) + 1 < |a| ==> v < a[Locate(v, a) + 1]
  {
    CountAtMostSplits(a, v);
  }

  /**
   * `index_of`: binary search over `a`, with `None` mapped to the last index.
   * The result is always an index of a non-empty list; on a strictly
   * ascending list it is the reference `Locate`.
   */
  method IndexOf(val: Option<int>, a: seq<int>) returns (r: int)
    ensures val.None? ==> r == |a| - 1
    ensures val.Some? ==> 0 <= r && (|a| > 0 ==> r < |a|)
    ensures val.Some? && Increasing(a) ==> r == Locate(val.value, a)
  {
    var low, high := 0, |a| - 1;
    if val.None? {
      return high;
    }
    var v := val.value;
    while low <= high
      invariant 0 <= low <= high + 1 <= |a|
      invariant Increasing(a) ==> forall i :: 0 <= i < low ==> a[i] < v
      invariant Increasing(a) ==> forall i :: high < i < |a| ==> v < a[i]
      decreases high - low
    {
      var mid := (high + low) / 2;
      if a[mid] == v {
        if Increasing(a) {
          LocatePresent(v, a, mid);
        }
        return mid;
      } else if v < a[mid] {
        high := mid - 1;
      } else {
        low := mid + 1;
      }
    }
    if Increasing(a) {
      CountAtMostOfSplit(a, v, low);
    }
    r := if low != 0 then low - 1 else low;
  }

  // ---------------------------------------------------------------------------
  // prune_lists
  // ---------------------------------------------------------------------------

  /** The elements of `s` at the positions `idx`, in that order. */
  function Pick<T>(s: seq<T>, idx: seq<nat>): seq<T>
    requires forall p :: 0 <= p < |idx| ==> idx[p] < |s|
  {
    seq(|idx|, p requires 0 <= p < |idx| => s[idx[p]])
  }

  /**
   * The positions among the first `n` that `prune_lists` keeps, measuring
   * spacing on `a`: position 0 and `lastIdx` always, any other once it lies
   * `interval` or more past the last kept one.
   */
  function Kept(interval: int, a: seq<int>, lastIdx: int, n: nat): (k: seq<nat>)
    requires n <= |a|
    ensures |k| <= n
    ensures n > 0 ==> |k| > 0 && k[0] == 0
    ensures forall p :: 0 <= p < |k| ==> k[p] < n
    decreases n
  {
    if n == 0 then []
    else
      var prev := Kept(interval, a, lastIdx, n - 1);
      var i := n - 1;
      if i == 0 || i == lastIdx || a[i] - a[prev[|prev| - 1]] >= interval then prev + [i] else prev
  }

  /** `last_idx` of `prune_lists`: the last position of the first list under `keep_end`, else none (-1). */
  function LastIndex(keepEnd: bool, firstLen: nat): (r: int)
    ensures keepEnd && firstLen > 0 ==> 0 <= r && r + 1 == firstLen
    ensures !keepEnd ==> r < 0
  {
    if keepEnd then firstLen - 1 else -1
  }

  /** What `prune_lists(interval, times, values, keep_end)` keeps; `zip` stops at the shorter list. */
  function PruneIndices(interval: int, times: seq<int>, valuesLen: nat, keepEnd: bool): (k: seq<nat>)
    ensures forall p :: 0 <= p < |k| ==> k[p] < |times| && k[p] < valuesLen
  {
    var n := if |times| <= valuesLen then |times| else valuesLen;
    Kept(interval, times, LastIndex(keepEnd, |times|), n)
  }

  /** The values list that `prune_lists` returns beside the pruned times. */
  function PrunedValues<V>(interval: int, times: seq<int>, values: seq<V>, keepEnd: bool): seq<V> {
    Pick(values, PruneIndices(interval, times, |values|, keepEnd))
  }

  /**
   * `prune_lists(interval, times, values, keep_end=keepEnd)`: both lists
   * thinned at the same kept positions, spacing measured on `times`.
   */
  method PruneLists<V>(interval: int, times: seq<int>, values: seq<V>, keepEnd: bool)
    returns (newTimes: seq<int>, newValues: seq<V>)
    ensures newTimes == Pick(times, PruneIndices(interval, times, |values|, keepEnd))
    ensures newValues == PrunedValues(interval, times, values, keepEnd)
    ensures |newTimes| == |newValues|
  {
    newTimes, newValues := [], [];
    var lastIdx := LastIndex(keepEnd, |times|);
    var n := if |times| <= |values| then |times| else |values|;
    var prev := 0;  // Python starts from None; index 0 always sets it before it is read
    ghost var kept: seq<nat> := [];
    for idx := 0 to n
      invariant PruneState(interval, times, values, lastIdx, idx, kept, newTimes, newValues, prev)
    {
      PruneAdvance(interval, times, values, lastIdx, idx, kept, newTimes, newValues, prev);
      // the source's two branches (`idx in [0, last_idx]`, then the spacing test) append alike
      if idx == 0 || idx == lastIdx || times[idx] - prev >= interval {
        prev := times[idx];
        newTimes, newValues := newTimes + [times[idx]], newValues + [values[idx]];
        kept := kept + [idx];
      }
    }
    assert kept == PruneIndices(interval, times, |values|, keepEnd);
  }

  /**
   * The state of `prune_lists`' loop after `idx` positions: the kept
   * positions so far, both outputs picked at them, and `prev_val` the time of
   * the last kept one.
   */
  ghost predicate PruneState<V>(interval: int, times: seq<int>, values: seq<V>, lastIdx: int, idx: nat,
                                kept: seq<nat>, newTimes: seq<int>, newValues: seq<V>, prev: int)
  {
    idx <= |times| && idx <= |values| &&
    kept == Kept(interval, times, lastIdx, idx) &&
    newTimes == Pick(times, kept) && newValues == Pick(values, kept) &&
    (idx > 0 ==> |kept| > 0 && prev == times[kept[|kept| - 1]])
  }

  /** One iteration of `prune_lists`' loop keeps `PruneState`, whether or not it keeps the position. */
  lemma PruneAdvance<V>(interval: int, times: seq<int>, values: seq<V>, lastIdx: int, idx: nat,
                        kept: seq<nat>, newTimes: seq<int>, newValues: seq<V>, prev: int)
    requires idx < |times| && idx < |values|
    requires PruneState(interval, times, values, lastIdx, idx, kept, newTimes, newValues, prev)
    ensures var keep := idx == 0 || idx == lastIdx || times[idx] - prev >= interval;
      (keep ==> PruneState(interval, times, values, lastIdx, idx + 1, kept + [idx],
                           newTimes + [times[idx]], newValues + [values[idx]], times[idx])) &&
      (!keep ==> PruneState(interval, times, values, lastIdx, idx + 1, kept, newTimes, newValues, prev))
  {
    KeptNext(interval, times, lastIdx, idx);
    PickAppend(times, kept, idx);
    PickAppend(values, kept, idx);
  }

  /** One more position of `prune_lists`' loop: kept exactly when the loop appends it. */
  lemma KeptNext(interval: int, a: seq<int>, lastIdx: int, n: nat)
    requires n < |a|
    ensures var k := Kept(interval, a, lastIdx, n);
      Kept(interval, a, lastIdx, n + 1) ==
        if n == 0 || n == lastIdx || a[n] - a[k[|k| - 1]] >= interval then k + [n] else k
  {
  }

  /** Picking one more position appends that element. */
  lemma PickAppend<T>(s: seq<T>, idx: seq<nat>, i: nat)
    requires forall p :: 0 <= p < |idx| ==> idx[p] < |s|
    requires i < |s|
    ensures Pick(s, idx + [i]) == Pick(s, idx) + [s[i]]
  {
  }
}

/** Properties of `prune_lists`, stated on the positions it keeps. */
module Pruning {
  import opened PyList
  import opened Utils

  /** The kept positions are strictly ascending, so each output list is a subsequence of its input in order. */
  lemma {:induction false} KeptAscending(interval: int, a: seq<int>, lastIdx: int, n: nat)
    requires n <= |a|
    ensures var k := Kept(interval, a, lastIdx, n);
      forall p, q :: 0 <= p < q < |k| ==> k[p] < k[q]
    decreases n
  {
    if n > 0 {
      KeptAscending(interval, a, lastIdx, n - 1);
      KeptNext(interval, a, lastIdx, n - 1);
    }
  }

  /** The elements of an ascending list at ascending positions are ascending. */
  lemma PickIncreasing(s: seq<int>, idx: seq<nat>)
    requires Increasing(s)
    requires forall p :: 0 <= p < |idx| ==> idx[p] < |s|
    requires forall p, q :: 0 <= p < q < |idx| ==> idx[p] < idx[q]
    ensures Increasing(Pick(s, idx))
  {
  }

  /** `prune_lists` applied to an ascending first list returns an ascending first list. */
  lemma PrunedIncreasing(interval: int, times: seq<int>, valuesLen: nat, keepEnd: bool)
    requires Increasing(times)
    ensures Increasing(Pick(times, PruneIndices(interval, times, valuesLen, keepEnd)))
  {
    var n := if |times| <= valuesLen then |times| else valuesLen;
    var lastIdx := LastIndex(keepEnd, |times|);
    var k := Kept(interval, times, lastIdx, n);
    assert k == Kept(interval, times, lastIdx, n);
    KeptAscending(interval, times, lastIdx, n);
    PickIncreasing(times, k);
  }

  /** Position 0 is kept; under `keep_end`, when `zip` reaches the last position, it is kept too. */
  lemma KeepsEnds(interval: int, times: seq<int>, valuesLen: nat, keepEnd: bool)
    requires |times| > 0 && valuesLen > 0
    ensures var k := PruneIndices(interval, times, valuesLen, keepEnd);
      |k| > 0 && k[0] == 0 &&
      (keepEnd && |times| <= valuesLen ==> k[|k| - 1] == |times| - 1)
  {
  }

  /**
   * Every kept position other than 0 and the forced last one lies at least
   * `interval` past the previously kept one, measured on the first list.
   */
  lemma {:induction false} KeptSpacing(interval: int, a: seq<int>, lastIdx: int, n: nat)
    requires n <= |a|
    ensures var k := Kept(interval, a, lastIdx, n);
      forall p :: 0 < p < |k| && k[p] != lastIdx ==> a[k[p]] - a[k[p - 1]] >= interval
    decreases n
  {
    if n > 0 {
      KeptSpacing(interval, a, lastIdx, n - 1);
      KeptNext(interval, a, lastIdx, n - 1);
    }
  }

  /** Every dropped position lies less than `interval` past the last position kept before it. */
  lemma {:induction false} KeptDropsOnlyClose(interval: int, a: seq<int>, lastIdx: int, n: nat)
    requires 0 < n < |a|
    ensures var k := Kept(interval, a, lastIdx, n);
      n !in Kept(interval, a, lastIdx, n + 1) ==>
        n != lastIdx && a[n] - a[k[|k| - 1]] < interval
  {
    KeptNext(interval, a, lastIdx, n);
  }

  /** The positions 0, 1, ..., m - 1. */
  function Iota(m: nat): (r: seq<nat>)
    ensures |r| == m && forall i :: 0 <= i < m ==> r[i] == i
  {
    if m == 0 then [] else Iota(m - 1) + [m - 1]
  }

  /** A list already spaced by `interval` (outside the forced last position) loses nothing. */
  lemma {:induction false} KeptAllOfSpaced(interval: int, b: seq<int>, lastIdx: int, m: nat)
    requires m <= |b|
    requires forall p :: 0 < p < m && p != lastIdx ==> b[p] - b[p - 1] >= interval
    ensures Kept(interval, b, lastIdx, m) == Iota(m)
    decreases m
  {
    if m > 0 {
      KeptAllOfSpaced(interval, b, lastIdx, m - 1);
      KeptNext(interval, b, lastIdx, m - 1);
    }
  }

  /** Picking every position gives the list back. */
  lemma PickAll<T>(s: seq<T>)
    ensures Pick(s, Iota(|s|)) == s
  {
  }

  /**
   * Pruning the output of `prune_lists` again, with the same interval and
   * `keep_end`, returns it unchanged.
   */
  lemma PruneIdempotent<V>(interval: int, times: seq<int>, values: seq<V>, keepEnd: bool)
    ensures var k := PruneIndices(interval, times, |values|, keepEnd);
      var t1, v1 := Pick(times, k), Pick(values, k);
      Pick(t1, PruneIndices(interval, t1, |v1|, keepEnd)) == t1 &&
      Pick(v1, PruneIndices(interval, t1, |v1|, keepEnd)) == v1
  {
    var n := if |times| <= |values| then |times| else |values|;
    var lastIdx := LastIndex(keepEnd, |times|);
    var k := Kept(interval, times, lastIdx, n);
    var t1, v1 := Pick(times, k), Pick(values, k);
    var lastIdx' := LastIndex(keepEnd, |t1|);
    assert k == Kept(interval, times, lastIdx, n);
    KeptAscending(interval, times, lastIdx, n);
    KeptSpacing(interval, times, lastIdx, n);
    forall p | 0 < p < |t1| && p != lastIdx'
      ensures t1[p] - t1[p - 1] >= interval
    {
      if keepEnd {
        // only the last output position can be the forced one: the others lie below it
        assert p < |k| - 1;
        assert k[p] < k[|k| - 1] < n <= |times|;
      }
      assert k[p] != lastIdx;
    }
    KeptAllOfSpaced(interval, t1, lastIdx', |t1|);
    PickAll(t1);
    PickAll(v1);
  }
}
