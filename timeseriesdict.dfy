/**
 * `TimeSeriesDict`: a series whose values are records (string-keyed
 * dictionaries). The keys named in `val_keys` are data keys: for each one the
 * series keeps its own list of times and values, and a point query fills the
 * located record's data keys from those lists.
 */
module SeriesDict {
  import opened Wrappers
  import opened PyList
  import opened Utils
  import Series

  /** A field of a record: a number or a piece of text. */
  datatype Field = Num(n: real) | Text(s: string)

  /** The contents of a record. */
  type Fields = map<string, Field>

  /** A record as the heap object the series stores; a point query hands it out and updates it in place. */
  class Record {
    var fields: Fields

    constructor (fields: Fields)
      ensures this.fields == fields
    {
      this.fields := fields;
    }
  }

  /** `_dict[k]`: the times of the records that hold `k`, and `k`'s value in each. */
  datatype Track = Track(times: seq<int>, values: seq<Field>)

  /** What `_new_slice` returns: both lists for `[:]`, or `(start, slice_dict)` for a point. */
  datatype Answer = Whole(times: seq<int>, records: seq<Record>) | At(time: int, record: Record)

  /** `_dict[k]` after the first `n` of the sorted `(time, record)` pairs. */
  function TrackOf(k: string, entries: seq<(int, Fields)>, n: nat): (tr: Track)
    requires n <= |entries|
    ensures |tr.times| == |tr.values|
  {
    if n == 0 then Track([], [])
    else
      var prev := TrackOf(k, entries, n - 1);
      var e := entries[n - 1];
      if k in e.1 then Track(prev.times + [e.0], prev.values + [e.1[k]]) else prev
  }

  /** The whole of `_dict` after `n` pairs: exactly the data keys seen so far, each with its track. */
  ghost predicate TracksAre(tracks: map<string, Track>, entries: seq<(int, Fields)>, valKeys: set<string>, n: nat)
    requires n <= |entries|
  {
    (forall k :: k in tracks <==> k in valKeys && TrackOf(k, entries, n).times != []) &&
    (forall k :: k in tracks ==> tracks[k] == TrackOf(k, entries, n))
  }

  /**
   * `_dict` part way through pair `i`: the keys of `val` not in `remaining`
   * have had pair `i` appended, the others have not.
   */
  ghost predicate Partial(tracks: map<string, Track>, entries: seq<(int, Fields)>, valKeys: set<string>,
                          i: nat, val: Fields, remaining: set<string>)
    requires i < |entries|
  {
    (forall k :: k in tracks <==>
      k in valKeys && (TrackOf(k, entries, i).times != [] || (k in val && k !in remaining))) &&
    (forall k :: k in tracks ==>
      tracks[k] == TrackOf(k, entries, if k in val && k !in remaining then i + 1 else i))
  }

  /** Appending pair `i` to the track of one more key of `val` keeps `Partial`. */
  lemma PartialStep(tracks: map<string, Track>, next: map<string, Track>, entries: seq<(int, Fields)>,
                    valKeys: set<string>, i: nat, val: Fields, remaining: set<string>, k: string)
    requires i < |entries| && entries[i].1 == val && k in remaining && remaining <= val.Keys
    requires Partial(tracks, entries, valKeys, i, val, remaining)
    requires next == if k in valKeys then
      var tr := if k in tracks then tracks[k] else Track([], []);
      tracks[k := Track(tr.times + [entries[i].0], tr.values + [val[k]])]
    else tracks
    ensures Partial(next, entries, valKeys, i, val, remaining - {k})
  {
  }

  /** Once no key of `val` remains, `Partial` is `TracksAre` after pair `i`. */
  lemma PartialDone(tracks: map<string, Track>, entries: seq<(int, Fields)>, valKeys: set<string>, i: nat, val: Fields)
    requires i < |entries| && entries[i].1 == val
    requires Partial(tracks, entries, valKeys, i, val, {})
    ensures TracksAre(tracks, entries, valKeys, i + 1)
  {
  }

  /** Every time on a key's track is the time of one of the first `n` pairs. */
  lemma {:induction false} TrackFromPairs(k: string, entries: seq<(int, Fields)>, n: nat)
    requires n <= |entries|
    ensures forall p :: 0 <= p < |TrackOf(k, entries, n).times| ==> TrackOf(k, entries, n).times[p] in Firsts(entries)[..n]
  {
    if n > 0 {
      TrackFromPairs(k, entries, n - 1);
      var prev := TrackOf(k, entries, n - 1);
      var ts := Firsts(entries);
      var e := entries[n - 1];
      forall p | 0 <= p < |prev.times| ensures prev.times[p] in ts[..n] {
        var j :| 0 <= j < n - 1 && ts[..n - 1][j] == prev.times[p];
        assert ts[..n][j] == prev.times[p];
      }
      if k in e.1 {
        var tt := prev.times + [e.0];
        assert TrackOf(k, entries, n).times == tt;
        assert ts[..n][n - 1] == e.0;
        forall p | 0 <= p < |tt| ensures tt[p] in ts[..n] {
          if p < |prev.times| {
            assert tt[p] == prev.times[p];
          }
        }
      }
    }
  }

  /** On pairs sorted by time, a key's track times are ascending and are times of the first `n` pairs. */
  lemma {:induction false} TrackAscending(k: string, entries: seq<(int, Fields)>, n: nat)
    requires n <= |entries| && Increasing(Firsts(entries))
    ensures var tr := TrackOf(k, entries, n);
      Increasing(tr.times) && forall p :: 0 <= p < |tr.times| ==> tr.times[p] in Firsts(entries)[..n]
  {
    TrackFromPairs(k, entries, n);
    if n > 0 {
      TrackAscending(k, entries, n - 1);
      var prev := TrackOf(k, entries, n - 1);
      var ts := Firsts(entries);
      var e := entries[n - 1];
      if k in e.1 {
        assert ts[n - 1] == e.0;
        forall p | 0 <= p < |prev.times| ensures prev.times[p] < e.0 {
          var j :| 0 <= j < n - 1 && ts[..n - 1][j] == prev.times[p];
        }
        assert TrackOf(k, entries, n).times == prev.times + [e.0];
        Series.ConcatIncreasing(prev.times, [e.0]);
      } else {
        assert TrackOf(k, entries, n) == prev;
      }
    }
  }

  /**
   * A key's track holds a time exactly when the pair at that time holds the
   * key, and carries the key's value from that pair.
   */
  lemma {:induction false} TrackExact(k: string, entries: seq<(int, Fields)>, n: nat)
    requires n <= |entries| && Increasing(Firsts(entries))
    ensures var tr := TrackOf(k, entries, n);
      (forall j :: 0 <= j < n ==> (k in entries[j].1 <==> entries[j].0 in tr.times)) &&
      (forall p, j :: 0 <= p < |tr.times| && 0 <= j < n && tr.times[p] == entries[j].0 ==>
        k in entries[j].1 && tr.values[p] == entries[j].1[k])
  {
    if n > 0 {
      TrackExact(k, entries, n - 1);
      TrackAscending(k, entries, n - 1);
      var prev := TrackOf(k, entries, n - 1);
      var tr := TrackOf(k, entries, n);
      var ts := Firsts(entries);
      // earlier track times all lie below the time of pair n-1
      forall p | 0 <= p < |prev.times| ensures prev.times[p] != entries[n - 1].0 {
        var j :| 0 <= j < n - 1 && ts[..n - 1][j] == prev.times[p];
      }
      forall j | 0 <= j < n ensures k in entries[j].1 <==> entries[j].0 in tr.times {
        if j < n - 1 {
          assert entries[j].0 < entries[n - 1].0 by { assert ts[j] < ts[n - 1]; }
        }
      }
      forall p, j | 0 <= p < |tr.times| && 0 <= j < n && tr.times[p] == entries[j].0
        ensures k in entries[j].1 && tr.values[p] == entries[j].1[k]
      {
        if j < n - 1 {
          assert entries[j].0 < entries[n - 1].0 by { assert ts[j] < ts[n - 1]; }
        }
      }
    }
  }

  /**
   * The value a point query at `t` gives a data key with track `tr`: the
   * track is searched with hold semantics, with `(t, first_val)` put in
   * front when `t` precedes the track and `first_val` is not `False`
   * (modelled as `None`).
   */
  function KeyAt(t: int, tr: Track, firstVal: Option<Field>): Field
    requires |tr.times| == |tr.values| > 0
  {
    var board := t < tr.times[0] && firstVal.Some?;
    var ts := if board then [t] + tr.times else tr.times;
    var vs := if board then [firstVal.value] + tr.values else tr.values;
    vs[Locate(t, ts)]
  }

  /** Forward fill: at or after a key's first time, the key takes its value at its last time at or before the query. */
  lemma KeyHeld(t: int, tr: Track, firstVal: Option<Field>)
    requires |tr.times| == |tr.values| > 0 && Increasing(tr.times) && tr.times[0] <= t
    ensures var i := Locate(t, tr.times);
      KeyAt(t, tr, firstVal) == tr.values[i] &&
      tr.times[i] <= t && (i + 1 < |tr.times| ==> t < tr.times[i + 1])
  {
    LocateHolds(t, tr.times);
  }

  /** Before a key's first time, the key takes `first_val`, or its first value when `first_val` is `False`. */
  lemma KeyBeforeFirst(t: int, tr: Track, firstVal: Option<Field>)
    requires |tr.times| == |tr.values| > 0 && Increasing(tr.times) && t < tr.times[0]
    ensures KeyAt(t, tr, firstVal) == if firstVal.Some? then firstVal.value else tr.values[0]
  {
    if firstVal.Some? {
      LocatePresent(t, [t] + tr.times, 0);
    } else {
      LocateBelow(t, tr.times);
    }
  }

  /** `test_single_slice`: tracks of `v` and `k`; `by` is not a data key and is never tracked. */
  lemma TrackExample(entries: seq<(int, Fields)>)
    requires entries == SingleSliceEntries()
    ensures TrackOf("k", entries, 3) == Track([1], [Num(2.0)])
    ensures TrackOf("v", entries, 3) == Track([0, 1, 2], [Num(1.0), Num(2.0), Num(3.0)])
    ensures KeyAt(0, TrackOf("k", entries, 3), Some(Num(0.0))) == Num(0.0)
    ensures KeyAt(2, TrackOf("k", entries, 3), Some(Num(0.0))) == Num(2.0)
  {
    TrackOfK(entries);
    TrackOfV(entries);
    var tk := TrackOf("k", entries, 3);
    KeyBeforeFirst(0, tk, Some(Num(0.0)));
    LocateAbsentAbove(2, tk.times);
  }

  /** The construction pairs of `test_single_slice`. */
  function SingleSliceEntries(): seq<(int, Fields)> {
    [(0, map["v" := Num(1.0), "by" := Text("me")]),
     (1, map["v" := Num(2.0), "k" := Num(2.0), "by" := Text("you")]),
     (2, map["v" := Num(3.0)])]
  }

  /** In `test_single_slice`, only the second record has a `k`. */
  lemma TrackOfK(entries: seq<(int, Fields)>)
    requires entries == SingleSliceEntries()
    ensures TrackOf("k", entries, 3) == Track([1], [Num(2.0)])
  {
    assert "k" !in entries[0].1 && "k" in entries[1].1 && "k" !in entries[2].1;
    assert TrackOf("k", entries, 1) == Track([], []);
    assert TrackOf("k", entries, 2) == Track([1], [Num(2.0)]);
  }

  /** In `test_single_slice`, every record has a `v`. */
  lemma TrackOfV(entries: seq<(int, Fields)>)
    requires entries == SingleSliceEntries()
    ensures TrackOf("v", entries, 3) == Track([0, 1, 2], [Num(1.0), Num(2.0), Num(3.0)])
  {
    assert "v" in entries[0].1 && "v" in entries[1].1 && "v" in entries[2].1;
    assert entries[0].1["v"] == Num(1.0) && entries[1].1["v"] == Num(2.0) && entries[2].1["v"] == Num(3.0);
    assert TrackOf("v", entries, 1) == Track([0], [Num(1.0)]);
    assert TrackOf("v", entries, 2) == Track([0, 1], [Num(1.0), Num(2.0)]);
  }

  /** A `TimeSeriesDict` without interpolation. */
  class TimeSeriesDict {
    var times: seq<int>
    var records: seq<Record>
    var tracks: map<string, Track>
    /** The sorted `(time, record contents)` pairs as they were at construction. */
    ghost var entries: seq<(int, Fields)>
    /** `first_val`; `None` stands for `first_val=False`. */
    const firstVal: Option<Field>
    const valKeys: set<string>

    /**
     * `_times` and `_values` are parallel, the times ascending, each record
     * a separate object, and `_dict` the tracks of the construction pairs.
     */
    ghost predicate Valid()
      reads this
    {
      |entries| == |times| == |records| && Firsts(entries) == times && Increasing(times) &&
      (forall i, j :: 0 <= i < j < |records| ==> records[i] != records[j]) &&
      TracksAre(tracks, entries, valKeys, |entries|)
    }

    /** `TimeSeriesDict([(t, record), …], first_val=…, val_keys=…)`. */
    constructor (pairs: seq<(int, Fields)>, firstVal: Option<Field> := Some(Num(0.0)), valKeys: set<string> := {"v"})
      requires Distinct(Firsts(pairs))
      ensures Valid()
      ensures |times| == |pairs| && forall p :: p in entries <==> p in pairs
      ensures forall i :: 0 <= i < |records| ==> fresh(records[i]) && records[i].fields == entries[i].1
      ensures this.firstVal == firstVal && this.valKeys == valKeys
    {
      this.firstVal := firstVal;
      this.valKeys := valKeys;
      new;
      var sorted := SortedPairs(pairs);
      Load(sorted);
    }

    /** `TimeSeriesDict(times, records, …)`: the two lists zipped (up to the shorter), then sorted. */
    constructor FromLists(ts: seq<int>, rs: seq<Fields>, firstVal: Option<Field> := Some(Num(0.0)), valKeys: set<string> := {"v"})
      requires Distinct(Firsts(Zip(ts, rs)))
      ensures Valid()
      ensures |times| == |Zip(ts, rs)| && forall p :: p in entries <==> p in Zip(ts, rs)
      ensures forall i :: 0 <= i < |records| ==> fresh(records[i]) && records[i].fields == entries[i].1
      ensures this.firstVal == firstVal && this.valKeys == valKeys
    {
      this.firstVal := firstVal;
      this.valKeys := valKeys;
      new;
      var sorted := SortedPairs(Zip(ts, rs));
      Load(sorted);
    }

    /** `TimeSeriesDict({t: record, …}, …)`: the items in order of time. */
    constructor FromMap(m: map<int, Fields>, firstVal: Option<Field> := Some(Num(0.0)), valKeys: set<string> := {"v"})
      ensures Valid()
      ensures |times| == |m| && forall i :: 0 <= i < |entries| ==> entries[i].0 in m && entries[i].1 == m[entries[i].0]
      ensures forall t :: t in times <==> t in m
      ensures forall i :: 0 <= i < |records| ==> fresh(records[i]) && records[i].fields == entries[i].1
      ensures this.firstVal == firstVal && this.valKeys == valKeys
    {
      this.firstVal := firstVal;
      this.valKeys := valKeys;
      new;
      var ts := SortedKeys(m.Keys);
      assert forall i :: 0 <= i < |ts| ==> ts[i] in ts;
      var sorted := Zip(ts, ValuesOf(m, ts));
      assert Firsts(sorted) == ts;
      Load(sorted);
    }

    /**
     * The body of `__init__` after sorting: fills `_times` and `_values`
     * position by position and appends each data key's time and value to
     * its track.
     */
    method Load(sorted: seq<(int, Fields)>)
      requires Increasing(Firsts(sorted))
      modifies this
      ensures Valid() && entries == sorted && |records| == |sorted|
      ensures forall i :: 0 <= i < |records| ==> fresh(records[i]) && records[i].fields == sorted[i].1
    {
      times, records, tracks := [], [], map[];
      entries := sorted;
      for i := 0 to |sorted|
        invariant entries == sorted
        invariant times == Firsts(sorted)[..i] && |records| == i
        invariant forall a, b :: 0 <= a < b < i ==> records[a] != records[b]
        invariant forall a :: 0 <= a < i ==> fresh(records[a]) && records[a].fields == sorted[a].1
        invariant TracksAre(tracks, sorted, valKeys, i)
      {
        ghost var before := records;
        LoadPair(i, sorted[i].0, sorted[i].1);
        forall a | 0 <= a < i ensures records[a] == before[a] && records[a] != records[i] {
          assert records[..i][a] == before[a];
        }
      }
      assert Firsts(sorted)[..|sorted|] == Firsts(sorted);
    }

    /**
     * One position of `__init__`'s loop: `_times[i]` and `_values[i]` get
     * pair `i`'s time and a record of its contents, and its data keys are
     * appended to their tracks.
     */
    method LoadPair(i: nat, t: int, val: Fields)
      requires i < |entries| && entries[i] == (t, val) && times == Firsts(entries)[..i] && |records| == i
      requires TracksAre(tracks, entries, valKeys, i)
      modifies this
      ensures entries == old(entries) && times == Firsts(entries)[..i + 1]
      ensures |records| == i + 1 && records[..i] == old(records)
      ensures fresh(records[i]) && records[i].fields == entries[i].1
      ensures TracksAre(tracks, entries, valKeys, i + 1)
    {
      AppendPair(i, t, val);
      assert Firsts(entries)[..i + 1] == Firsts(entries)[..i] + [t];
      times := times + [t];
      var rec := new Record(val);
      records := records + [rec];
    }

    /**
     * The inner loop of `__init__` for pair `i`: appends the pair's time and
     * value to the track of each of its keys that is a data key.
     */
    method AppendPair(i: nat, t: int, val: Fields)
      requires i < |entries| && entries[i] == (t, val)
      requires TracksAre(tracks, entries, valKeys, i)
      modifies this
      ensures times == old(times) && records == old(records) && entries == old(entries)
      ensures TracksAre(tracks, entries, valKeys, i + 1)
    {
      ghost var es := entries;
      var remaining := val.Keys;
      while remaining != {}
        invariant times == old(times) && records == old(records) && entries == es
        invariant remaining <= val.Keys
        invariant Partial(tracks, es, valKeys, i, val, remaining)
        decreases |remaining|
      {
        var k :| k in remaining;
        var next := tracks;
        if k in valKeys {
          var tr := if k in tracks then tracks[k] else Track([], []);
          next := tracks[k := Track(tr.times + [t], tr.values + [val[k]])];
        }
        PartialStep(tracks, next, es, valKeys, i, val, remaining, k);
        tracks := next;
        remaining := remaining - {k};
      }
      PartialDone(tracks, es, valKeys, i, val);
    }

    /**
     * `_new_slice(_times, _values, key)` without interpolation. `[:]` returns
     * both lists; any other range raises NotImplementedError; a point query
     * on an empty series raises IndexError. Otherwise the record at
     * `index_of(time)` is returned after every tracked key has been written
     * into it; untracked fields are the record's own.
     */
    method NewSlice(key: Series.Key) returns (r: Result<Answer>)
      requires Valid()
      modifies set i | 0 <= i < |records| :: records[i]
      ensures key.Range? && key.start.None? && key.stop.None? && key.step.None? ==> r == Ok(Whole(times, records))
      ensures key.Range? && !(key.start.None? && key.stop.None? && key.step.None?) ==> r == Err(NotImplementedError)
      ensures key.Point? && |times| == 0 ==> r == Err(IndexError)
      ensures key.Range? || |times| == 0 ==> forall j :: 0 <= j < |records| ==> records[j].fields == old(records[j].fields)
      ensures key.Point? && |times| > 0 ==>
        var i := Locate(key.time, times);
        var rec := records[i];
        r == Ok(At(key.time, rec)) &&
        (forall f :: f in rec.fields <==> f in old(rec.fields) || f in tracks) &&
        (forall f :: f in rec.fields ==>
          rec.fields[f] == if f in tracks then KeyAt(key.time, tracks[f], firstVal) else old(rec.fields)[f]) &&
        (forall j :: 0 <= j < |records| && j != i ==> records[j].fields == old(records[j].fields))
    {
      if key.Range? {
        if key.start.None? && key.stop.None? && key.step.None? {
          return Ok(Whole(times, records));
        }
        return Err(NotImplementedError);
      }
      var t := key.time;
      var i := IndexOf(Some(t), times);
      if i >= |records| {
        return Err(IndexError);
      }
      var rec := records[i];
      FillTracked(rec, t);
      r := Ok(At(t, rec));
    }

    /**
     * One key of that loop: the key's value at `t` from its own track, with
     * `first_val` put in front when `t` is before the track's first time.
     */
    method HeldValue(k: string, t: int) returns (v: Field)
      requires Valid() && k in tracks
      ensures v == KeyAt(t, tracks[k], firstVal)
    {
      var tr := tracks[k];
      TrackAscending(k, entries, |entries|);
      var kt, kv := tr.times, tr.values;
      if t < kt[0] && firstVal.Some? {
        kt, kv := [t] + kt, [firstVal.value] + kv;
      }
      var j := IndexOf(Some(t), kt);
      v := kv[j];
    }

    /**
     * The loop of a point query over `_dict`: writes every tracked key's
     * value at `t` into the located record, leaving its other fields.
     */
    method FillTracked(rec: Record, t: int)
      requires Valid()
      modifies rec
      ensures forall f :: f in rec.fields <==> f in old(rec.fields) || f in tracks
      ensures forall f :: f in rec.fields ==>
        rec.fields[f] == if f in tracks then KeyAt(t, tracks[f], firstVal) else old(rec.fields)[f]
    {
      var remaining := tracks.Keys;
      while remaining != {}
        invariant remaining <= tracks.Keys
        invariant forall f :: f in rec.fields <==> f in old(rec.fields) || (f in tracks && f !in remaining)
        invariant forall f :: f in rec.fields ==>
          rec.fields[f] == if f in tracks && f !in remaining then KeyAt(t, tracks[f], firstVal) else old(rec.fields)[f]
        decreases |remaining|
      {
        var k :| k in remaining;
        var v := HeldValue(k, t);
        rec.fields := rec.fields[k := v];
        remaining := remaining - {k};
      }
    }
  }
}
