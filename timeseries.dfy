/**
 * The `TimeSeries` class: two parallel lists, `times` (strictly ascending)
 * and `values`, with hold-semantics lookup, range slicing, arithmetic on the
 * union of times, merging, thinning, padding, shifting and tilting.
 */
module Series {
  import opened Wrappers
  import opened PyList
  import opened Utils
  import opened Pruning

  // ---------------------------------------------------------------------
  // Slicing (`_new_slice` without interpolation)
  // ---------------------------------------------------------------------

  /** A `__getitem__` key: a single time, or a slice `[start:stop:step]` whose parts may be omitted. */
  datatype Key = Point(time: int) | Range(start: Option<int>, stop: Option<int>, step: Option<int>)

  /** What a non-interpolating `_new_slice` returns: one value, or a list of values. */
  datatype Lookup = Scalar(value: real) | Values(values: seq<real>)

  /** The keys whose meaning is modelled: a point, `[:]`, or a range with a numeric start. */
  predicate Supported(key: Key) {
    key.Range? && key.start.None? ==> key.stop.None? && key.step.None?
  }

  /**
   * The lists `_new_slice` searches: when the query starts before the first
   * time and `use_fv` is off, `(start, first_val)` is put in front.
   */
  function WithFirstVal(times: seq<int>, values: seq<real>, useFv: bool, firstVal: real, start: int)
    : (b: (seq<int>, seq<real>))
    requires |times| > 0
    ensures |b.0| > 0
    ensures |times| == |values| ==> |b.0| == |b.1|
    ensures Increasing(times) ==> Increasing(b.0)
  {
    if start < times[0] && !useFv then ([start] + times, [firstVal] + values) else (times, values)
  }

  /** `[start_idx, stop_idx)` as `_new_slice` computes them on the times with `first_val` in front `ts`. */
  function Window(ts: seq<int>, start: int, stop: Option<int>): (w: (nat, nat))
    requires |ts| > 0
    ensures w.0 < |ts| && w.1 <= |ts|
  {
    var j0 := IndexOfSpec(stop, ts);
    (Locate(start, ts), if stop.None? || stop.value == 0 || stop.value > ts[j0] then j0 + 1 else j0)
  }

  /** The value a point query `series[t]` returns on a non-empty series. */
  function ValueAt(times: seq<int>, values: seq<real>, useFv: bool, firstVal: real, t: int): real
    requires |times| == |values| > 0
  {
    var b := WithFirstVal(times, values, useFv, firstVal, t);
    b.1[Locate(t, b.0)]
  }

  /**
   * `_new_slice(times, values, key)` without interpolation. `[:]` returns
   * the value list; any other key on an empty series raises IndexError at
   * `times[0]`.
   */
  function NewSlice(times: seq<int>, values: seq<real>, useFv: bool, firstVal: real, key: Key)
    : (r: Result<Lookup>)
    requires |times| == |values|
    requires Supported(key)
    ensures r.Err? <==> |times| == 0 && !(key.Range? && key.start.None?)
    ensures r.Err? ==> r.error == IndexError
    ensures r.Ok? ==> (key.Point? <==> r.value.Scalar?)
  {
    if key.Range? && key.start.None? then Ok(Values(values))
    else if |times| == 0 then Err(IndexError)
    else if key.Point? then Ok(Scalar(ValueAt(times, values, useFv, firstVal, key.time)))
    else
      var b := WithFirstVal(times, values, useFv, firstVal, key.start.value);
      var w := Window(b.0, key.start.value, key.stop);
      if key.step.Some? && key.step.value != 0 then
        Ok(Values(PrunedValues(key.step.value, Slice(b.0, Some(w.0), Some(w.1)), Slice(b.1, Some(w.0), None), false)))
      else
        Ok(Values(Slice(b.1, Some(w.0), Some(w.1))))
  }

  /** On an ascending list, `index_of(stop)` plus the overrun correction counts the times below `stop`. */
  lemma StopCountsBelow(x: int, a: seq<int>)
    requires Increasing(a) && |a| > 0
    ensures Locate(x, a) + (if x > a[Locate(x, a)] then 1 else 0) == CountBelow(a, x)
  {
    if x < a[0] {
      LocateBelow(x, a);
      CountBelowOfSplit(a, x, 0);
    } else {
      LocateHolds(x, a);
      var l := Locate(x, a);
      if a[l] == x {
        CountBelowOfSplit(a, x, l);
      } else {
        CountBelowOfSplit(a, x, l + 1);
      }
    }
  }

  /** Hold semantics: at or after the first time, a point query returns the value of the last time at or before it. */
  lemma PointHeld(times: seq<int>, values: seq<real>, useFv: bool, firstVal: real, t: int)
    requires Increasing(times) && |times| == |values| > 0 && times[0] <= t
    ensures var i := Locate(t, times);
      NewSlice(times, values, useFv, firstVal, Point(t)) == Ok(Scalar(values[i])) &&
      times[i] <= t && (i + 1 < |times| ==> t < times[i + 1])
  {
    LocateHolds(t, times);
  }

  /** Before the first time, a point query returns `first_val`, or the first value under `use_fv`. */
  lemma PointBeforeFirst(times: seq<int>, values: seq<real>, useFv: bool, firstVal: real, t: int)
    requires Increasing(times) && |times| == |values| > 0 && t < times[0]
    ensures NewSlice(times, values, useFv, firstVal, Point(t)) == Ok(Scalar(if useFv then values[0] else firstVal))
  {
    if useFv {
      LocateBelow(t, times);
    } else {
      var b := WithFirstVal(times, values, useFv, firstVal, t);
      LocatePresent(t, b.0, 0);
    }
  }

  /** `[:]` returns the whole value list, even on an empty series. */
  lemma WholeSlice(times: seq<int>, values: seq<real>, useFv: bool, firstVal: real)
    requires |times| == |values|
    ensures NewSlice(times, values, useFv, firstVal, Range(None, None, None)) == Ok(Values(values))
  {
  }

  /**
   * A range with a numeric start, no step and a stop other than 0 is
   * half-open on the lists with `first_val` in front: from the point in force at `start` up to
   * the last time strictly before `stop`.
   */
  lemma RangeWindow(times: seq<int>, values: seq<real>, useFv: bool, firstVal: real,
                    s: int, stop: Option<int>, step: Option<int>)
    requires Increasing(times) && |times| == |values| > 0
    requires stop != Some(0) && (step.None? || step == Some(0))
    ensures var b := WithFirstVal(times, values, useFv, firstVal, s);
      var j := if stop.None? then |b.0| else CountBelow(b.0, stop.value);
      NewSlice(times, values, useFv, firstVal, Range(Some(s), stop, step))
        == Ok(Values(Slice(b.1, Some(Locate(s, b.0)), Some(j))))
  {
    var b := WithFirstVal(times, values, useFv, firstVal, s);
    if stop.Some? {
      StopCountsBelow(stop.value, b.0);
    }
  }

  /** The case the tests exercise: a start at or after the first time slices the stored values themselves. */
  lemma RangeHalfOpen(times: seq<int>, values: seq<real>, useFv: bool, firstVal: real,
                      s: int, stop: Option<int>, step: Option<int>)
    requires Increasing(times) && |times| == |values| > 0 && times[0] <= s
    requires stop != Some(0) && (step.None? || step == Some(0))
    ensures var j := if stop.None? then |times| else CountBelow(times, stop.value);
      NewSlice(times, values, useFv, firstVal, Range(Some(s), stop, step))
        == Ok(Values(Slice(values, Some(Locate(s, times)), Some(j))))
  {
    RangeWindow(times, values, useFv, firstVal, s, stop, step);
  }

  /**
   * A stop of 0 is treated like an omitted stop by the truthiness test, so
   * the point at time 0 is included: `[-2:0]` over times `[-2, 0, 2]` returns
   * two values where the half-open rule would return one.
   */
  lemma StopZeroIncluded()
    ensures NewSlice([-2, 0, 2], [1.0, 2.0, 3.0], false, 0.0, Range(Some(-2), Some(0), None))
      == Ok(Values([1.0, 2.0]))
  {
    var ts, vs := [-2, 0, 2], [1.0, 2.0, 3.0];
    LocatePresent(-2, ts, 0);
    LocatePresent(0, ts, 1);
    assert WithFirstVal(ts, vs, false, 0.0, -2) == (ts, vs);
    assert IndexOfSpec(Some(0), ts) == 1;
    assert Window(ts, -2, Some(0)) == (0, 2);
    SliceWithin(vs, 0, 2);
    assert Slice(vs, Some(0), Some(2)) == [1.0, 2.0];
  }

  /**
   * A stepped range is the unstepped range thinned by `prune_lists` over the
   * window's times; the longer `values[start_idx:]` that the source passes
   * makes no difference because `zip` stops at the shorter list.
   */
  lemma StepThinsRange(times: seq<int>, values: seq<real>, useFv: bool, firstVal: real,
                       s: int, stop: Option<int>, st: int)
    requires |times| == |values| > 0 && st != 0
    ensures var b := WithFirstVal(times, values, useFv, firstVal, s);
      var w := Window(b.0, s, stop);
      var u := NewSlice(times, values, useFv, firstVal, Range(Some(s), stop, None));
      u.Ok? && u.value.Values? &&
      NewSlice(times, values, useFv, firstVal, Range(Some(s), stop, Some(st)))
        == Ok(Values(PrunedValues(st, Slice(b.0, Some(w.0), Some(w.1)), u.value.values, false)))
  {
    var b := WithFirstVal(times, values, useFv, firstVal, s);
    var w := Window(b.0, s, stop);
    var ts := Slice(b.0, Some(w.0), Some(w.1));
    var longer := Slice(b.1, Some(w.0), None);
    var exact := Slice(b.1, Some(w.0), Some(w.1));
    SliceWithin(b.1, w.0, |b.1|);
    assert |ts| <= |exact| <= |longer|;
    var k := PruneIndices(st, ts, |longer|, false);
    assert k == PruneIndices(st, ts, |exact|, false);
    assert Pick(longer, k) == Pick(exact, k);
  }

  /** `test_single_slice` (`first_val` 0) and `test_sincle_slice_with_first_val` (`first_val` -1): times `[2, 4]`. */
  lemma PointExamples(ts: seq<int>, vs: seq<real>)
    requires ts == [2, 4] && vs == [2.0, 4.0]
    ensures NewSlice(ts, vs, false, 0.0, Point(0)) == Ok(Scalar(0.0))
    ensures NewSlice(ts, vs, false, 0.0, Point(1)) == Ok(Scalar(0.0))
    ensures NewSlice(ts, vs, false, 0.0, Point(2)) == Ok(Scalar(2.0))
    ensures NewSlice(ts, vs, false, 0.0, Point(3)) == Ok(Scalar(2.0))
    ensures NewSlice(ts, vs, false, -1.0, Point(0)) == Ok(Scalar(-1.0))
    ensures NewSlice(ts, vs, false, -1.0, Point(1)) == Ok(Scalar(-1.0))
    ensures NewSlice(ts, vs, false, -1.0, Point(2)) == Ok(Scalar(2.0))
  {
    PointBeforeFirst(ts, vs, false, -1.0, 0);
    PointBeforeFirst(ts, vs, false, 0.0, 0);
    PointBeforeFirst(ts, vs, false, 0.0, 1);
    PointBeforeFirst(ts, vs, false, -1.0, 1);
    LocatePresent(2, ts, 0);
    LocateAbsentAbove(3, ts);
    assert WithFirstVal(ts, vs, false, 0.0, 2) == (ts, vs);
    assert WithFirstVal(ts, vs, false, 0.0, 3) == (ts, vs);
    assert WithFirstVal(ts, vs, false, -1.0, 2) == (ts, vs);
  }

  /** `test_range_slice`: times `[2, 4, 6, 8]`. */
  lemma RangeExamples()
    ensures NewSlice([2, 4, 6, 8], [2.0, 4.0, 6.0, 8.0], false, 0.0, Range(Some(2), None, None))
      == Ok(Values([2.0, 4.0, 6.0, 8.0]))
    ensures NewSlice([2, 4, 6, 8], [2.0, 4.0, 6.0, 8.0], false, 0.0, Range(Some(2), Some(8), None))
      == Ok(Values([2.0, 4.0, 6.0]))
  {
    var ts, vs := [2, 4, 6, 8], [2.0, 4.0, 6.0, 8.0];
    RangeHalfOpen(ts, vs, false, 0.0, 2, None, None);
    RangeHalfOpen(ts, vs, false, 0.0, 2, Some(8), None);
    LocatePresent(2, ts, 0);
    CountBelowOfSplit(ts, 8, 3);
    SliceWithin(vs, 0, 4);
    SliceWithin(vs, 0, 3);
    assert CountBelow(ts, 8) == 3;
    assert Locate(2, ts) == 0;
    assert Slice(vs, Some(0), Some(3)) == vs[0..3];
    assert vs[0..3] == [2.0, 4.0, 6.0];
  }

  /** `test_range_slice_with_first_val`: times `[2, 4, 6, 8]`, `first_val` -1, a start before the first time. */
  lemma RangeFirstValExamples()
    ensures NewSlice([2, 4, 6, 8], [2.0, 4.0, 6.0, 8.0], false, -1.0, Range(Some(0), Some(6), None))
      == Ok(Values([-1.0, 2.0, 4.0]))
    ensures NewSlice([2, 4, 6, 8], [2.0, 4.0, 6.0, 8.0], false, -1.0, Range(Some(0), None, None))
      == Ok(Values([-1.0, 2.0, 4.0, 6.0, 8.0]))
  {
    var ts, vs := [2, 4, 6, 8], [2.0, 4.0, 6.0, 8.0];
    var bt, bv := [0, 2, 4, 6, 8], [-1.0, 2.0, 4.0, 6.0, 8.0];
    assert bt == [0] + ts && bv == [-1.0] + vs;
    assert WithFirstVal(ts, vs, false, -1.0, 0) == (bt, bv);
    RangeWindow(ts, vs, false, -1.0, 0, Some(6), None);
    RangeWindow(ts, vs, false, -1.0, 0, None, None);
    LocatePresent(0, bt, 0);
    CountBelowOfSplit(bt, 6, 3);
    SliceWithin(bv, 0, 3);
    SliceWithin(bv, 0, 5);
    assert bv[0..3] == [-1.0, 2.0, 4.0];
    assert bv[0..5] == bv;
  }

  /** On the times 0, 1, 2, …, thinning by spacing 2 keeps exactly the even positions. */
  lemma {:induction false} KeptEveryOther(w: seq<int>, n: nat)
    requires n <= |w| && forall i :: 0 <= i < |w| ==> w[i] == i
    ensures var k := Kept(2, w, -1, n);
      |k| == (n + 1) / 2 && forall j :: 0 <= j < |k| ==> k[j] == 2 * j
  {
    if n > 0 {
      KeptEveryOther(w, n - 1);
      KeptNext(2, w, -1, n - 1);
      var prev := Kept(2, w, -1, n - 1);
      var m := n / 2;
      assert |prev| == m;
      if n > 1 {
        var last := prev[|prev| - 1];
        assert last == 2 * (m - 1);
        assert w[n - 1] == n - 1 && w[last] == last;
        if n % 2 == 1 {
          assert n - 1 - last == 2;
        } else {
          assert n - 1 - last == 1;
        }
      }
    }
  }

  /** Thinning times 0 to 7 by spacing 2 keeps every second position. */
  lemma StepKept(w: seq<int>)
    requires w == [0, 1, 2, 3, 4, 5, 6, 7]
    ensures Kept(2, w, -1, 8) == [0, 2, 4, 6]
  {
    KeptEveryOther(w, 8);
    var k := Kept(2, w, -1, 8);
    assert |k| == 4 && k[0] == 0 && k[1] == 2 && k[2] == 4 && k[3] == 6;
  }

  /** Picking positions 0, 2, 4 and 6 of the values 0 to 9. */
  lemma StepPicked()
    ensures Pick([0.0, 1.0, 2.0, 3.0, 4.0, 5.0, 6.0, 7.0, 8.0, 9.0], [0, 2, 4, 6]) == [0.0, 2.0, 4.0, 6.0]
  {
    var vs := [0.0, 1.0, 2.0, 3.0, 4.0, 5.0, 6.0, 7.0, 8.0, 9.0];
    var picked := Pick(vs, [0, 2, 4, 6]);
    assert picked[0] == 0.0 && picked[1] == 2.0 && picked[2] == 4.0 && picked[3] == 6.0;
  }

  /** `[0:8:2]` over times and values 0 to 9 thins the window of times 0 to 7. */
  lemma StepWindow(ts: seq<int>, vs: seq<real>)
    requires ts == [0, 1, 2, 3, 4, 5, 6, 7, 8, 9]
    requires vs == [0.0, 1.0, 2.0, 3.0, 4.0, 5.0, 6.0, 7.0, 8.0, 9.0]
    ensures NewSlice(ts, vs, false, 0.0, Range(Some(0), Some(8), Some(2)))
      == Ok(Values(PrunedValues(2, ts[..8], vs, false)))
  {
    LocatePresent(0, ts, 0);
    LocatePresent(8, ts, 8);
    var b := WithFirstVal(ts, vs, false, 0.0, 0);
    assert b == (ts, vs);
    var w := Window(ts, 0, Some(8));
    assert w == (0, 8);
    SliceWithin(ts, 0, 8);
    SliceWithin(vs, 0, 10);
    assert Slice(ts, Some(0), Some(8)) == ts[..8];
    assert Slice(vs, Some(0), None) == vs;
  }

  /** `test_range_slice_with_step`: `[0:8:2]` over times and values 0 to 9 keeps every second point below 8. */
  lemma StepExample()
    ensures NewSlice([0, 1, 2, 3, 4, 5, 6, 7, 8, 9], [0.0, 1.0, 2.0, 3.0, 4.0, 5.0, 6.0, 7.0, 8.0, 9.0],
                     false, 0.0, Range(Some(0), Some(8), Some(2)))
      == Ok(Values([0.0, 2.0, 4.0, 6.0]))
  {
    var ts, vs := [0, 1, 2, 3, 4, 5, 6, 7, 8, 9], [0.0, 1.0, 2.0, 3.0, 4.0, 5.0, 6.0, 7.0, 8.0, 9.0];
    StepWindow(ts, vs);
    var w := [0, 1, 2, 3, 4, 5, 6, 7];
    assert ts[..8] == w;
    StepKept(w);
    StepPicked();
    assert PruneIndices(2, w, 10, false) == Kept(2, w, -1, 8);
  }

  // ---------------------------------------------------------------------
  // Arithmetic and merging
  // ---------------------------------------------------------------------

  /** The four arithmetic operators of the class. */
  datatype Op = Add | Sub | Mul | Div

  /** One operator on two point values; division by zero yields 0, as the `ZeroDivisionError` handler does. */
  function Apply(op: Op, a: real, b: real): (r: real)
    ensures op == Div ==> (b == 0.0 ==> r == 0.0) && (b != 0.0 ==> r * b == a)
  {
    match op
    case Add => a + b
    case Sub => a - b
    case Mul => a * b
    case Div => if b == 0.0 then 0.0 else a / b
  }

  /**
   * `test_misaligned_add` and `test_misaligned_divide`: times `[0, 2, 4]` and
   * `[1, 2, 3]`; at each time of the union the two point queries are combined.
   */
  lemma ArithmeticExample(a: seq<int>, av: seq<real>, b: seq<int>, bv: seq<real>)
    requires a == [0, 2, 4] && av == [0.0, 2.0, 4.0] && b == [1, 2, 3] && bv == [1.0, 2.0, 3.0]
    ensures forall t :: 0 <= t < 5 ==>
      Apply(Add, ValueAt(a, av, false, 0.0, t), ValueAt(b, bv, false, 0.0, t)) == [0.0, 1.0, 4.0, 5.0, 7.0][t]
    ensures Apply(Div, ValueAt(a, av, false, 0.0, 0), ValueAt(b, bv, false, 0.0, 0)) == 0.0
    ensures Apply(Div, ValueAt(a, av, false, 0.0, 3), ValueAt(b, bv, false, 0.0, 3)) == 2.0 / 3.0
  {
    HeldExample(a, av, [0.0, 0.0, 2.0, 2.0, 4.0]);
    LocatePresent(0, [0] + b, 0);
    assert ValueAt(b, bv, false, 0.0, 0) == 0.0;
    HeldExample(b, bv, [0.0, 1.0, 2.0, 3.0, 3.0]);
  }

  /** Point queries at times 1 to 4 of a series whose times lie among 0 to 4, held as `expected` says. */
  lemma HeldExample(ts: seq<int>, vs: seq<real>, expected: seq<real>)
    requires (ts == [0, 2, 4] && vs == [0.0, 2.0, 4.0] && expected == [0.0, 0.0, 2.0, 2.0, 4.0]) ||
             (ts == [1, 2, 3] && vs == [1.0, 2.0, 3.0] && expected == [0.0, 1.0, 2.0, 3.0, 3.0])
    ensures forall t :: 1 <= t < 5 ==> ValueAt(ts, vs, false, 0.0, t) == expected[t]
    ensures ts[0] == 0 ==> ValueAt(ts, vs, false, 0.0, 0) == expected[0]
  {
    forall t | 0 <= t < 5 && ts[0] <= t ensures ValueAt(ts, vs, false, 0.0, t) == expected[t] {
      assert WithFirstVal(ts, vs, false, 0.0, t) == (ts, vs);
      if t in ts {
        var i :| 0 <= i < 3 && ts[i] == t;
        LocatePresent(t, ts, i);
      } else {
        LocateAbsentAbove(t, ts);
      }
    }
  }

  /**
   * `dict(zip(t1, v1))` updated with `dict(zip(t2, v2))`: every time of
   * either list; a time of the second list maps to its value there, any
   * other time to its value in the first.
   */
  lemma MergeRightWins(t1: seq<int>, v1: seq<real>, t2: seq<int>, v2: seq<real>)
    requires Increasing(t1) && |t1| == |v1| && Increasing(t2) && |t2| == |v2|
    ensures var m := DictOf(t1, v1) + DictOf(t2, v2);
      (forall t :: t in m <==> t in t1 || t in t2) &&
      (forall j :: 0 <= j < |t2| ==> m[t2[j]] == v2[j]) &&
      (forall j :: 0 <= j < |t1| && t1[j] !in t2 ==> m[t1[j]] == v1[j])
  {
    DictOfAt(t1, v1);
    DictOfAt(t2, v2);
  }

  /** The lists `&` builds: `sorted(tv)` and `[tv[time] for time in times]` for the right-wins `tv`. */
  method MergeLists(t1: seq<int>, v1: seq<real>, t2: seq<int>, v2: seq<real>) returns (ts: seq<int>, vs: seq<real>)
    requires Increasing(t1) && |t1| == |v1| && Increasing(t2) && |t2| == |v2|
    ensures Increasing(ts) && |ts| == |vs|
    ensures forall t :: t in ts <==> t in t1 || t in t2
    ensures forall i, j :: 0 <= i < |ts| && 0 <= j < |t2| && t2[j] == ts[i] ==> vs[i] == v2[j]
    ensures forall i, j :: 0 <= i < |ts| && 0 <= j < |t1| && t1[j] == ts[i] && ts[i] !in t2 ==> vs[i] == v1[j]
  {
    var tv := DictOf(t1, v1) + DictOf(t2, v2);
    MergeRightWins(t1, v1, t2, v2);
    ts := SortedKeys(tv.Keys);
    assert forall i :: 0 <= i < |ts| ==> ts[i] in ts;
    vs := ValuesOf(tv, ts);
  }

  // ---------------------------------------------------------------------
  // Shift and tilt
  // ---------------------------------------------------------------------

  /** The times `shift(num)` keeps. */
  function ShiftedTimes(times: seq<int>, num: int): seq<int> {
    if num == 0 then times
    else if num > 0 then Slice(times, Some(num), None)
    else Slice(times, None, Some(num))
  }

  /** The values `shift(num)` keeps. */
  function ShiftedValues(values: seq<real>, num: int): seq<real> {
    if num == 0 then values
    else if num > 0 then Slice(values, None, Some(-num))
    else Slice(values, Some(-num), None)
  }

  /**
   * `shift(num)` keeps `max(0, n - |num|)` points and pairs each kept time with
   * the value `num` positions earlier: a positive shift pairs later times with
   * earlier values, a negative one the reverse, and 0 keeps both lists.
   */
  lemma ShiftAligns(times: seq<int>, values: seq<real>, num: int)
    requires |times| == |values|
    ensures var m := if num >= 0 then num else -num;
      var len := if m <= |times| then |times| - m else 0;
      |ShiftedTimes(times, num)| == len && |ShiftedValues(values, num)| == len
    ensures num == 0 ==> ShiftedTimes(times, num) == times && ShiftedValues(values, num) == values
    ensures num > 0 ==> forall i :: 0 <= i < |ShiftedTimes(times, num)| ==>
      ShiftedTimes(times, num)[i] == times[i + num] && ShiftedValues(values, num)[i] == values[i]
    ensures num < 0 ==> forall i :: 0 <= i < |ShiftedTimes(times, num)| ==>
      ShiftedTimes(times, num)[i] == times[i] && ShiftedValues(values, num)[i] == values[i - num]
  {
  }

  /** The values `tilt` leaves in the series: rescaled about the first value when the run is non-zero. */
  function Rescaled(values: seq<real>, newEnd: real): (r: seq<real>)
    requires |values| > 0
    ensures |r| == |values|
  {
    var start := values[0];
    var run := values[|values| - 1] - start;
    if run == 0.0 then values
    else seq(|values|, i requires 0 <= i < |values| => start + (newEnd - start) / run * (values[i] - start))
  }

  /** The values of the series `tilt` returns: `n` evenly spaced values from `start`. */
  function Ramp(start: real, newEnd: real, n: nat): (r: seq<real>)
    requires n >= 2
    ensures |r| == n
  {
    seq(n, i requires 0 <= i < n => start + (newEnd - start) / ((n - 1) as real) * (i as real))
  }

  /** The returned ramp starts at the first value, ends at `new_end`, and rises by the same amount at every step. */
  lemma RampEnds(start: real, newEnd: real, n: nat)
    requires n >= 2
    ensures Ramp(start, newEnd, n)[0] == start
    ensures Ramp(start, newEnd, n)[n - 1] == newEnd
    ensures forall i :: 0 <= i < n - 1 ==>
      Ramp(start, newEnd, n)[i + 1] - Ramp(start, newEnd, n)[i] == (newEnd - start) / ((n - 1) as real)
  {
    var d := (n - 1) as real;
    assert (newEnd - start) / d * d == newEnd - start;
    assert Ramp(start, newEnd, n)[n - 1] == start + (newEnd - start) / d * d;
    forall i | 0 <= i < n - 1
      ensures Ramp(start, newEnd, n)[i + 1] - Ramp(start, newEnd, n)[i] == (newEnd - start) / d
    {
      var slope := (newEnd - start) / d;
      assert slope * ((i + 1) as real) == slope * (i as real) + slope;
    }
  }

  /** When the run is non-zero, the first value stays and the last becomes `new_end`; tilting to the current end changes nothing. */
  lemma RescaledEnds(values: seq<real>, newEnd: real)
    requires |values| > 0
    ensures var n := |values|;
      values[n - 1] != values[0] ==>
        Rescaled(values, newEnd)[0] == values[0] && Rescaled(values, newEnd)[n - 1] == newEnd
    ensures Rescaled(values, values[|values| - 1]) == values
  {
    var n := |values|;
    var start, run := values[0], values[n - 1] - values[0];
    if run != 0.0 {
      assert (newEnd - start) / run * run == newEnd - start;
      assert (values[n - 1] - start) / run == 1.0;
    }
  }

  // ---------------------------------------------------------------------
  // Pad (`interpolate=False`)
  // ---------------------------------------------------------------------

  /** The times the inner `while` of `pad` steps through between `p` and `c`. */
  function Fill(p: int, c: int, interval: int): seq<int>
    requires interval > 0
    decreases c - p
  {
    if c - p > interval then [p + interval] + Fill(p + interval, c, interval) else []
  }

  /** `n` copies of `v`. */
  function Repeat(v: real, n: nat): (r: seq<real>)
    ensures |r| == n && forall i :: 0 <= i < n ==> r[i] == v
  {
    seq(n, _ => v)
  }

  /** Whether `pad` keeps the stepped times before a point with value `currVal`. */
  predicate Emit(keepEnd: bool, lastVal: real, currVal: real, interval: int) {
    !keepEnd || lastVal - currVal >= interval as real
  }

  /** The times `pad` inserts before original position `i`. */
  function Gap(times: seq<int>, values: seq<real>, interval: int, keepEnd: bool, i: nat): seq<int>
    requires interval > 0 && 0 < |values| == |times| && i < |times|
  {
    if i > 0 && Emit(keepEnd, values[|values| - 1], values[i], interval)
    then Fill(times[i - 1], times[i], interval) else []
  }

  /** `padded_times` after the first `n` original points. */
  function PadTimes(times: seq<int>, values: seq<real>, interval: int, keepEnd: bool, n: nat): seq<int>
    requires interval > 0 && 0 < |values| == |times| && n <= |times|
  {
    if n == 0 then []
    else PadTimes(times, values, interval, keepEnd, n - 1) + Gap(times, values, interval, keepEnd, n - 1) + [times[n - 1]]
  }

  /** `padded_values` after the first `n` original points: each inserted time carries the next original value. */
  function PadValues(times: seq<int>, values: seq<real>, interval: int, keepEnd: bool, n: nat): seq<real>
    requires interval > 0 && 0 < |values| == |times| && n <= |times|
  {
    if n == 0 then []
    else
      var gap := Gap(times, values, interval, keepEnd, n - 1);
      PadValues(times, values, interval, keepEnd, n - 1) + Repeat(values[n - 1], |gap|) + [values[n - 1]]
  }

  /** A list with no step between neighbours larger than `interval`. */
  predicate Dense(s: seq<int>, interval: int) {
    forall k :: 0 < k < |s| ==> s[k] - s[k - 1] <= interval
  }

  /**
   * The stepped times are `p + interval, p + 2*interval, …`: the first is
   * `p + interval`, each next one `interval` further, and the last of them
   * (or `p`) lies within `interval` of `c`.
   */
  lemma {:induction false} FillSteps(p: int, c: int, interval: int)
    requires interval > 0 && p < c
    ensures var f := Fill(p, c, interval);
      (f != [] ==> f[0] == p + interval) &&
      (forall k :: 0 < k < |f| ==> f[k] == f[k - 1] + interval) &&
      c - (if f == [] then p else f[|f| - 1]) <= interval
    decreases c - p
  {
    if c - p > interval {
      FillSteps(p + interval, c, interval);
      var g := Fill(p + interval, c, interval);
      var f := Fill(p, c, interval);
      assert f == [p + interval] + g;
      forall k | 0 < k < |f| ensures f[k] == f[k - 1] + interval {
        assert f[k] == g[k - 1];
        if k > 1 {
          assert f[k - 1] == g[k - 2];
        }
      }
    }
  }

  /** The stepped times are ascending and lie strictly between `p` and `c`. */
  lemma {:induction false} FillBetween(p: int, c: int, interval: int)
    requires interval > 0 && p < c
    ensures var f := Fill(p, c, interval);
      Increasing(f) && forall k :: 0 <= k < |f| ==> p < f[k] < c
    decreases c - p
  {
    if c - p > interval {
      FillBetween(p + interval, c, interval);
      var g := Fill(p + interval, c, interval);
      var f := Fill(p, c, interval);
      assert f == [p + interval] + g;
      assert forall k :: 0 < k < |f| ==> f[k] == g[k - 1];
    }
  }

  /** So the stepped times form a dense ascending run from `p` to `c`. */
  lemma FillShape(p: int, c: int, interval: int)
    requires interval > 0 && p < c
    ensures var f := Fill(p, c, interval);
      Increasing(f) && Dense(f, interval) &&
      (f != [] ==> f[0] == p + interval) &&
      (forall k :: 0 <= k < |f| ==> p < f[k] < c) &&
      c - (if f == [] then p else f[|f| - 1]) <= interval
  {
    FillSteps(p, c, interval);
    FillBetween(p, c, interval);
  }

  /** Two ascending lists, the second starting above the end of the first, concatenate to an ascending list. */
  lemma ConcatIncreasing(a: seq<int>, b: seq<int>)
    requires Increasing(a) && Increasing(b)
    requires a != [] && b != [] ==> a[|a| - 1] < b[0]
    ensures Increasing(a + b)
  {
    forall i, j | 0 <= i < j < |a + b| ensures (a + b)[i] < (a + b)[j] {
      if i < |a| && j >= |a| {
        assert a[i] <= a[|a| - 1] && b[0] <= b[j - |a|];
      }
    }
  }

  /** Two dense lists joined by a step of at most `interval` concatenate to a dense list. */
  lemma ConcatDense(a: seq<int>, b: seq<int>, interval: int)
    requires Dense(a, interval) && Dense(b, interval)
    requires a != [] && b != [] ==> b[0] - a[|a| - 1] <= interval
    ensures Dense(a + b, interval)
  {
    forall k | 0 < k < |a + b| ensures (a + b)[k] - (a + b)[k - 1] <= interval {
      if k < |a| {
        assert (a + b)[k] == a[k] && (a + b)[k - 1] == a[k - 1];
      } else if k == |a| {
        assert (a + b)[k] == b[0] && (a + b)[k - 1] == a[|a| - 1];
      } else {
        assert (a + b)[k] == b[k - |a|] && (a + b)[k - 1] == b[k - 1 - |a|];
      }
    }
  }

  /**
   * The padded times are ascending, parallel to the padded values, and end
   * at the last original time processed.
   */
  lemma {:induction false} PadAscending(times: seq<int>, values: seq<real>, interval: int, keepEnd: bool, n: nat)
    requires interval > 0 && 0 < |values| == |times| && n <= |times| && Increasing(times)
    ensures var pt := PadTimes(times, values, interval, keepEnd, n);
      Increasing(pt) && |pt| == |PadValues(times, values, interval, keepEnd, n)| &&
      (n > 0 ==> pt != [] && pt[|pt| - 1] == times[n - 1])
  {
    if n > 0 {
      PadAscending(times, values, interval, keepEnd, n - 1);
      var a := PadTimes(times, values, interval, keepEnd, n - 1);
      var g := Gap(times, values, interval, keepEnd, n - 1);
      assert PadTimes(times, values, interval, keepEnd, n) == a + g + [times[n - 1]];
      assert |PadValues(times, values, interval, keepEnd, n)| == |PadValues(times, values, interval, keepEnd, n - 1)| + |g| + 1;
      assert Increasing(a + g + [times[n - 1]]) by {
        if n > 1 {
          FillBetween(times[n - 2], times[n - 1], interval);
          assert a[|a| - 1] == times[n - 2];
          assert g == [] || g == Fill(times[n - 2], times[n - 1], interval);
        }
        BlockIncreasing(a, g, times[n - 1]);
      }
    }
  }

  /** Appending ascending stepped times and then an original time above them all keeps a list ascending. */
  lemma BlockIncreasing(a: seq<int>, g: seq<int>, t: int)
    requires Increasing(a) && Increasing(g)
    requires a != [] ==> forall k :: 0 <= k < |g| ==> a[|a| - 1] < g[k]
    requires a != [] ==> a[|a| - 1] < t
    requires forall k :: 0 <= k < |g| ==> g[k] < t
    ensures Increasing(a + g + [t])
  {
    ConcatIncreasing(a, g);
    ConcatIncreasing(a + g, [t]);
  }

  /** Every original time appears among the padded times. */
  lemma {:induction false} PadKeepsOriginals(times: seq<int>, values: seq<real>, interval: int, keepEnd: bool, n: nat)
    requires interval > 0 && 0 < |values| == |times| && n <= |times|
    ensures forall j :: 0 <= j < n ==> times[j] in PadTimes(times, values, interval, keepEnd, n)
  {
    if n > 0 {
      PadKeepsOriginals(times, values, interval, keepEnd, n - 1);
      var a := PadTimes(times, values, interval, keepEnd, n - 1);
      var g := Gap(times, values, interval, keepEnd, n - 1);
      var pt := PadTimes(times, values, interval, keepEnd, n);
      assert pt == a + g + [times[n - 1]];
      forall j | 0 <= j < n ensures times[j] in pt {
        if j < n - 1 {
          assert times[j] in a;
        }
      }
    }
  }

  /** With `keep_end` off, no step between neighbouring padded times exceeds `interval`. */
  lemma {:induction false} PadDense(times: seq<int>, values: seq<real>, interval: int, n: nat)
    requires interval > 0 && 0 < |values| == |times| && n <= |times| && Increasing(times)
    ensures Dense(PadTimes(times, values, interval, false, n), interval)
  {
    if n > 0 {
      PadDense(times, values, interval, n - 1);
      PadAscending(times, values, interval, false, n - 1);
      var a := PadTimes(times, values, interval, false, n - 1);
      var g := Gap(times, values, interval, false, n - 1);
      if n > 1 {
        FillShape(times[n - 2], times[n - 1], interval);
        assert a[|a| - 1] == times[n - 2];
        assert g == Fill(times[n - 2], times[n - 1], interval);
      }
      assert PadTimes(times, values, interval, false, n) == a + g + [times[n - 1]];
      BlockDense(a, g, times[n - 1], interval);
    }
  }

  /** Appending stepped times and then an original time keeps a dense list dense when every seam is short. */
  lemma BlockDense(a: seq<int>, g: seq<int>, t: int, interval: int)
    requires Dense(a, interval) && Dense(g, interval)
    requires a != [] && g != [] ==> g[0] - a[|a| - 1] <= interval
    requires a != [] && g == [] ==> t - a[|a| - 1] <= interval
    requires g != [] ==> t - g[|g| - 1] <= interval
    ensures Dense(a + g + [t], interval)
  {
    ConcatDense(a, g, interval);
    if g == [] {
      ConcatDense(a, [t], interval);
      assert a + g + [t] == a + [t];
    } else {
      ConcatDense(g, [t], interval);
      ConcatDense(a, g + [t], interval);
      assert a + g + [t] == a + (g + [t]);
    }
  }

  /** The block appended for one original point: stepped times below `t`, then `t`, all carrying `v`. */
  lemma TailBlock(a: seq<int>, g: seq<int>, t: int, av: seq<real>, v: real, lo: int)
    requires |a| == |av| && lo < t
    requires forall k :: 0 <= k < |g| ==> lo < g[k] < t
    ensures var pt, pv := a + g + [t], av + Repeat(v, |g|) + [v];
      |pt| == |pv| && forall k :: |a| <= k < |pt| ==> lo < pt[k] <= t && pv[k] == v
  {
    var pt, pv := a + g + [t], av + Repeat(v, |g|) + [v];
    forall k | |a| <= k < |pt| ensures lo < pt[k] <= t && pv[k] == v {
      if k < |a| + |g| {
        assert pt[k] == g[k - |a|];
      }
    }
  }

  /**
   * The last original point processed contributes its inserted times and
   * itself, all in `(times[n-2], times[n-1]]`, each with value `values[n-1]`.
   */
  lemma PadLastBlock(times: seq<int>, values: seq<real>, interval: int, keepEnd: bool, n: nat)
    requires interval > 0 && 0 < |values| == |times| && 0 < n <= |times| && Increasing(times)
    ensures var a := PadTimes(times, values, interval, keepEnd, n - 1);
      var pt := PadTimes(times, values, interval, keepEnd, n);
      var pv := PadValues(times, values, interval, keepEnd, n);
      |a| <= |pt| == |pv| &&
      forall k :: |a| <= k < |pt| ==>
        (n > 1 ==> times[n - 2] < pt[k]) && pt[k] <= times[n - 1] && pv[k] == values[n - 1]
  {
    PadAscending(times, values, interval, keepEnd, n - 1);
    var a := PadTimes(times, values, interval, keepEnd, n - 1);
    var av := PadValues(times, values, interval, keepEnd, n - 1);
    var g := Gap(times, values, interval, keepEnd, n - 1);
    var lo := if n > 1 then times[n - 2] else times[n - 1] - 1;
    if n > 1 {
      FillBetween(times[n - 2], times[n - 1], interval);
    }
    assert PadTimes(times, values, interval, keepEnd, n) == a + g + [times[n - 1]];
    assert PadValues(times, values, interval, keepEnd, n) == av + Repeat(values[n - 1], |g|) + [values[n - 1]];
    TailBlock(a, g, times[n - 1], av, values[n - 1], lo);
  }

  /**
   * Each padded value is the value of the first original time at or after
   * its padded time, that is, of the next original point.
   */
  lemma {:induction false} PadValuesNext(times: seq<int>, values: seq<real>, interval: int, keepEnd: bool, n: nat)
    requires interval > 0 && 0 < |values| == |times| && n <= |times| && Increasing(times)
    ensures var pt := PadTimes(times, values, interval, keepEnd, n);
      var pv := PadValues(times, values, interval, keepEnd, n);
      |pt| == |pv| &&
      forall k :: 0 <= k < |pt| ==> CountBelow(times, pt[k]) < n && pv[k] == values[CountBelow(times, pt[k])]
  {
    if n > 0 {
      PadValuesNext(times, values, interval, keepEnd, n - 1);
      PadLastBlock(times, values, interval, keepEnd, n);
      var a := PadTimes(times, values, interval, keepEnd, n - 1);
      var av := PadValues(times, values, interval, keepEnd, n - 1);
      var g := Gap(times, values, interval, keepEnd, n - 1);
      var pt := PadTimes(times, values, interval, keepEnd, n);
      var pv := PadValues(times, values, interval, keepEnd, n);
      assert pt == a + g + [times[n - 1]];
      assert pv == av + Repeat(values[n - 1], |g|) + [values[n - 1]];
      forall k | 0 <= k < |pt|
        ensures CountBelow(times, pt[k]) < n && pv[k] == values[CountBelow(times, pt[k])]
      {
        if k < |a| {
          assert pt[k] == a[k] && pv[k] == av[k];
        } else {
          CountBelowBetween(times, pt[k], n - 1);
        }
      }
    } else {
      assert PadTimes(times, values, interval, keepEnd, n) == [];
      assert PadValues(times, values, interval, keepEnd, n) == [];
    }
  }

  /** `pad` over times `[0, 2, 4]` by 1 inserts 1 and 3, carrying the next values: `[0, 2, 2, 4, 4]`. */
  lemma PadExample()
    ensures PadTimes([0, 2, 4], [0.0, 2.0, 4.0], 1, false, 3) == [0, 1, 2, 3, 4]
    ensures PadValues([0, 2, 4], [0.0, 2.0, 4.0], 1, false, 3) == [0.0, 2.0, 2.0, 4.0, 4.0]
  {
    assert Fill(0, 2, 1) == [1] + Fill(1, 2, 1);
    assert Fill(2, 4, 1) == [3] + Fill(3, 4, 1);
  }

  /**
   * The inner `while` of `pad`: steps `interval` at a time from `prev`
   * while more than `interval` short of `curr`, collecting each step (with
   * `currVal`) when `Emit` holds.
   */
  method StepTowards(prev: int, curr: int, interval: int, keepEnd: bool, lastVal: real, currVal: real)
    returns (steps: seq<int>, stepValues: seq<real>)
    requires interval > 0
    ensures steps == (if Emit(keepEnd, lastVal, currVal, interval) then Fill(prev, curr, interval) else [])
    ensures stepValues == Repeat(currVal, |steps|)
  {
    steps, stepValues := [], [];
    var p := prev;
    ghost var emit := Emit(keepEnd, lastVal, currVal, interval);
    while curr - p > interval
      invariant steps + (if emit then Fill(p, curr, interval) else [])
        == (if emit then Fill(prev, curr, interval) else [])
      invariant stepValues == Repeat(currVal, |steps|)
      decreases curr - p
    {
      ghost var before := Fill(p, curr, interval);
      p := p + interval;
      assert before == [p] + Fill(p, curr, interval);
      if !keepEnd || lastVal - currVal >= interval as real {
        steps := steps + [p];
        stepValues := stepValues + [currVal];
      }
    }
  }

  /**
   * The loop of `pad` with `interpolate=False`: for each original point, the
   * stepped times before it (from `StepTowards`), then the point itself.
   */
  method PadLists(times: seq<int>, values: seq<real>, interval: int, keepEnd: bool)
    returns (paddedTimes: seq<int>, paddedValues: seq<real>)
    requires interval > 0 && 0 < |values| == |times|
    ensures paddedTimes == PadTimes(times, values, interval, keepEnd, |times|)
    ensures paddedValues == PadValues(times, values, interval, keepEnd, |times|)
  {
    paddedTimes, paddedValues := [], [];
    var prevTime: Option<int> := None;
    var lastVal := values[|values| - 1];
    for i := 0 to |times|
      invariant paddedTimes == PadTimes(times, values, interval, keepEnd, i)
      invariant paddedValues == PadValues(times, values, interval, keepEnd, i)
      invariant prevTime == if i == 0 then None else Some(times[i - 1])
    {
      var currTime := times[i];
      var currVal := values[i];
      ghost var gap := Gap(times, values, interval, keepEnd, i);
      assert PadTimes(times, values, interval, keepEnd, i + 1) == paddedTimes + gap + [currTime];
      assert PadValues(times, values, interval, keepEnd, i + 1)
        == paddedValues + Repeat(currVal, |gap|) + [currVal];
      if prevTime.Some? {
        var steps, stepValues := StepTowards(prevTime.value, currTime, interval, keepEnd, lastVal, currVal);
        assert steps == gap;
        paddedTimes := paddedTimes + steps;
        paddedValues := paddedValues + stepValues;
      } else {
        assert gap == [] && Repeat(currVal, 0) == [];
        assert paddedTimes + gap == paddedTimes && paddedValues + Repeat(currVal, |gap|) == paddedValues;
      }
      paddedTimes := paddedTimes + [currTime];
      paddedValues := paddedValues + [currVal];
      prevTime := Some(currTime);
    }
  }

  // ---------------------------------------------------------------------
  // The class
  // ---------------------------------------------------------------------

  /** A `TimeSeries`: parallel `times` and `values`, plus the `use_fv` and `first_val` options. */
  class TimeSeries {
    var times: seq<int>
    var values: seq<real>
    const useFv: bool
    const firstVal: real

    /** The lists are parallel and the times strictly ascending, as `index_of` presumes. */
    ghost predicate Valid()
      reads this
    {
      Increasing(times) && |times| == |values|
    }

    /** `TimeSeries(times, values, use_fv=…, first_val=…)`. */
    constructor (times: seq<int>, values: seq<real>, useFv: bool := false, firstVal: real := 0.0)
      requires Increasing(times) && |times| == |values|
      ensures Valid()
      ensures this.times == times && this.values == values
      ensures this.useFv == useFv && this.firstVal == firstVal
    {
      this.times := times;
      this.values := values;
      this.useFv := useFv;
      this.firstVal := firstVal;
    }

    /** `TimeSeries([(t, v), …])`: the pairs split into the two lists. */
    constructor FromPairs(pairs: seq<(int, real)>, useFv: bool := false, firstVal: real := 0.0)
      requires Increasing(Firsts(pairs))
      ensures Valid()
      ensures times == Firsts(pairs) && values == Seconds(pairs)
      ensures this.useFv == useFv && this.firstVal == firstVal
    {
      times := Firsts(pairs);
      values := Seconds(pairs);
      this.useFv := useFv;
      this.firstVal := firstVal;
    }

    /** `TimeSeries({t: v, …})`: the keys in ascending order, each with its value. */
    constructor FromMap(m: map<int, real>, useFv: bool := false, firstVal: real := 0.0)
      ensures Valid()
      ensures forall t :: t in times <==> t in m
      ensures forall i :: 0 <= i < |times| ==> times[i] in m && values[i] == m[times[i]]
      ensures this.useFv == useFv && this.firstVal == firstVal
    {
      var ts := SortedKeys(m.Keys);
      assert forall i :: 0 <= i < |ts| ==> ts[i] in ts;
      times := ts;
      values := ValuesOf(m, ts);
      this.useFv := useFv;
      this.firstVal := firstVal;
    }

    /** `series[key]`. */
    function Get(key: Key): Result<Lookup>
      reads this
      requires Valid() && Supported(key)
    {
      NewSlice(times, values, useFv, firstVal, key)
    }

    /** `topairs()`. */
    function ToPairs(): (pairs: seq<(int, real)>)
      reads this
      requires Valid()
      ensures Firsts(pairs) == times && Seconds(pairs) == values
    {
      Zip(times, values)
    }

    /**
     * `series[time] = value`: overwrites the value at `index_of(time)`, which
     * for an absent time is the nearest earlier point (or the first one), and
     * for `time` None is the last point. Returns false where the source
     * raises IndexError (an empty series).
     */
    method SetAt(time: Option<int>, value: real) returns (ok: bool)
      requires Valid()
      modifies this
      ensures Valid() && times == old(times)
      ensures ok <==> |times| > 0
      ensures ok && time.Some? ==> values == old(values)[Locate(time.value, times) := value]
      ensures ok && time.None? ==> values == old(values)[|times| - 1 := value]
      ensures !ok ==> values == old(values)
    {
      var i := IndexOf(time, times);
      if i < 0 || i >= |values| {
        return false;
      }
      values := values[i := value];
      ok := true;
    }

    /**
     * `series + other`, `-`, `*`, `/`: for every time of either operand, the
     * operator applied to both point queries; the result has the sorted union
     * of times and default options. Err where a point query on an empty
     * operand raises IndexError.
     */
    method Combine(other: TimeSeries, op: Op) returns (r: Result<TimeSeries>)
      requires Valid() && other.Valid()
      ensures r.Err? <==> (|times| == 0) != (|other.times| == 0)
      ensures r.Ok? ==> fresh(r.value) && r.value.Valid() && !r.value.useFv && r.value.firstVal == 0.0
      ensures r.Ok? ==> forall t :: t in r.value.times <==> t in times || t in other.times
      ensures r.Ok? && |r.value.times| > 0 ==> |times| > 0 && |other.times| > 0
      ensures r.Ok? && |times| > 0 && |other.times| > 0 ==> forall i :: 0 <= i < |r.value.times| ==>
        r.value.values[i] == Apply(op, ValueAt(times, values, useFv, firstVal, r.value.times[i]),
                                       ValueAt(other.times, other.values, other.useFv, other.firstVal, r.value.times[i]))
    {
      if (|times| == 0) != (|other.times| == 0) {
        return Err(IndexError);
      }
      var tv := Tabulate(other, op);
      var ts := SortedKeys(tv.Keys);
      assert forall i :: 0 <= i < |ts| ==> ts[i] in ts;
      var vs := ValuesOf(tv, ts);
      assert forall t :: t in ts <==> t in times || t in other.times;
      assert |times| > 0 && |other.times| > 0 ==> forall i :: 0 <= i < |ts| ==>
        vs[i] == Apply(op, ValueAt(times, values, useFv, firstVal, ts[i]),
                           ValueAt(other.times, other.values, other.useFv, other.firstVal, ts[i]));
      var s := new TimeSeries(ts, vs);
      r := Ok(s);
    }

    /** The dictionary `tv` that the operator loop fills: one entry per time of either operand. */
    method Tabulate(other: TimeSeries, op: Op) returns (tv: map<int, real>)
      requires Valid() && other.Valid() && (|times| == 0) == (|other.times| == 0)
      ensures forall t :: t in tv <==> t in times || t in other.times
      ensures |tv| > 0 ==> |times| > 0 && |other.times| > 0
      ensures forall t :: t in tv && |times| > 0 && |other.times| > 0 ==>
        tv[t] == Apply(op, ValueAt(times, values, useFv, firstVal, t),
                           ValueAt(other.times, other.values, other.useFv, other.firstVal, t))
    {
      tv := map[];
      var ts, vs, fv, f := times, values, useFv, firstVal;
      var ots, ovs, ofv, of := other.times, other.values, other.useFv, other.firstVal;
      var all := ts + ots;
      for k := 0 to |all|
        invariant k > 0 ==> |ts| > 0 && |ots| > 0
        invariant forall t :: t in tv <==> t in all[..k]
        invariant forall t :: t in tv ==> tv[t] == Apply(op, ValueAt(ts, vs, fv, f, t), ValueAt(ots, ovs, ofv, of, t))
      {
        var time := all[k];
        var a := ValueAt(ts, vs, fv, f, time);
        var b := ValueAt(ots, ovs, ofv, of, time);
        tv := tv[time := Apply(op, a, b)];
        assert all[..k + 1] == all[..k] + [time];
      }
      assert all[..|all|] == all;
    }

    /**
     * `series & other`: the sorted union of times; at a shared time the
     * right operand's value wins, elsewhere each point keeps its own value.
     */
    method Merge(other: TimeSeries) returns (r: TimeSeries)
      requires Valid() && other.Valid()
      ensures fresh(r) && r.Valid() && !r.useFv && r.firstVal == 0.0
      ensures forall t :: t in r.times <==> t in times || t in other.times
      ensures forall i, j :: 0 <= i < |r.times| && 0 <= j < |other.times| && other.times[j] == r.times[i] ==>
        r.values[i] == other.values[j]
      ensures forall i, j :: 0 <= i < |r.times| && 0 <= j < |times| && times[j] == r.times[i] && r.times[i] !in other.times ==>
        r.values[i] == values[j]
    {
      var ts, vs := MergeLists(times, values, other.times, other.values);
      r := new TimeSeries(ts, vs);
    }

    /** `prune(interval)`: both lists thinned by `prune_lists`, in a new series with default options. */
    method Prune(interval: int) returns (r: TimeSeries)
      requires Valid()
      ensures fresh(r) && r.Valid() && !r.useFv && r.firstVal == 0.0
      ensures r.times == Pick(times, PruneIndices(interval, times, |values|, false))
      ensures r.values == PrunedValues(interval, times, values, false)
    {
      var newTimes, newValues := PruneLists(interval, times, values, false);
      PrunedIncreasing(interval, times, |values|, false);
      r := new TimeSeries(newTimes, newValues);
    }

    /** `shift(num)`: a new series pairing `ShiftedTimes` with `ShiftedValues`. */
    method Shift(num: int) returns (r: TimeSeries)
      requires Valid()
      ensures fresh(r) && r.Valid() && !r.useFv && r.firstVal == 0.0
      ensures r.times == ShiftedTimes(times, num) && r.values == ShiftedValues(values, num)
    {
      ShiftAligns(times, values, num);
      var ts, vs;
      if num == 0 {
        ts, vs := times, values;
      } else if num > 0 {
        ts, vs := Slice(times, Some(num), None), Slice(values, None, Some(-num));
      } else {
        ts, vs := Slice(times, None, Some(num)), Slice(values, Some(-num), None);
      }
      SliceIncreasing(times, if num > 0 then Some(num) else None, if num < 0 then Some(num) else None);
      r := new TimeSeries(ts, vs);
    }

    /**
     * `tilt(new_end)`: rescales the stored values in place so the last one
     * becomes `new_end` (when it differs from the first), and returns a new
     * series over the same times whose values ramp evenly from the first
     * value to `new_end`.
     */
    method Tilt(newEnd: real) returns (r: TimeSeries)
      requires Valid() && |values| >= 2
      modifies this
      ensures Valid() && times == old(times) && values == Rescaled(old(values), newEnd)
      ensures fresh(r) && r.Valid() && r.times == times && !r.useFv && r.firstVal == 0.0
      ensures r.values == Ramp(old(values)[0], newEnd, |values|)
    {
      var start := values[0];
      var rise := newEnd - start;
      var run := values[|values| - 1] - start;
      var n := |values|;
      if run != 0.0 {
        var prior := values;
        values := seq(n, i requires 0 <= i < n => start + rise / run * (prior[i] - start));
      }
      var ramp := seq(n, i requires 0 <= i < n => start + rise / ((n - 1) as real) * (i as real));
      r := new TimeSeries(times, ramp);
    }

    /**
     * `pad(interval, interpolate=False, keep_end=keepEnd)`: between
     * neighbouring points more than `interval` apart, steps `interval` at a
     * time from the earlier one and inserts each step (under `keep_end`, only
     * where the last value exceeds the next point's value by `interval` or
     * more) carrying the next point's value. Err where `values[-1]` raises
     * IndexError (an empty series).
     */
    method Pad(interval: int, keepEnd: bool := false) returns (r: Result<TimeSeries>)
      requires Valid() && (interval > 0 || |times| <= 1)
      ensures r.Err? <==> |values| == 0
      ensures r.Ok? ==> fresh(r.value) && r.value.Valid() && !r.value.useFv && r.value.firstVal == 0.0
      ensures r.Ok? ==> |values| > 0
      ensures r.Ok? && interval > 0 ==> r.value.times == PadTimes(times, values, interval, keepEnd, |times|)
      ensures r.Ok? && interval > 0 ==> r.value.values == PadValues(times, values, interval, keepEnd, |times|)
      ensures r.Ok? && interval <= 0 ==> r.value.times == times && r.value.values == values
    {
      if |values| == 0 {
        return Err(IndexError);
      }
      if interval <= 0 {
        // one point: the inner `while` never runs, so the point is copied as it is
        var one := new TimeSeries([times[0]], [values[0]]);
        assert [times[0]] == times && [values[0]] == values;
        return Ok(one);
      }
      var paddedTimes, paddedValues := PadLists(times, values, interval, keepEnd);
      PadAscending(times, values, interval, keepEnd, |times|);
      var s := new TimeSeries(paddedTimes, paddedValues);
      r := Ok(s);
    }
  }
}
