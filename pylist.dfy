/**
 * The few Python built-ins the library relies on: slicing with Python's
 * clamping and negative-index rules, `zip`, `dict` over pairs, and `sorted`
 * applied to a set of times.
 */
module PyList {
  import opened Wrappers

  /** Strictly ascending: the order in which a series keeps its times. */
  predicate Increasing(a: seq<int>) {
    forall i, j :: 0 <= i < j < |a| ==> a[i] < a[j]
  }

  /** A slice bound as Python resolves it: negative counts from the end, then clamped to [0, n]. */
  function Resolve(i: int, n: nat): (r: nat)
    ensures r <= n
    ensures 0 <= i <= n ==> r == i
    ensures i < 0 && n + i >= 0 ==> r == n + i
  {
    if i < 0 then (if n + i < 0 then 0 else n + i)
    else if i > n then n
    else i
  }

  /** `s[lo:hi]` in Python, with `None` for an omitted bound. */
  function Slice<T>(s: seq<T>, lo: Option<int>, hi: Option<int>): seq<T> {
    var i := if lo.None? then 0 else Resolve(lo.value, |s|);
    var j := if hi.None? then |s| else Resolve(hi.value, |s|);
    if i < j then s[i..j] else []
  }

  /** With bounds already inside the list, a Python slice is Dafny's subsequence. */
  lemma SliceWithin<T>(s: seq<T>, i: int, j: int)
    requires 0 <= i <= j <= |s|
    ensures Slice(s, Some(i), Some(j)) == s[i..j]
    ensures Slice(s, Some(i), None) == s[i..]
  {
  }

  /** Any subsequence of contiguous positions of an ascending list is ascending. */
  lemma SliceIncreasing(s: seq<int>, lo: Option<int>, hi: Option<int>)
    requires Increasing(s)
    ensures Increasing(Slice(s, lo, hi))
  {
  }

  /** No time occurs twice. */
  predicate Distinct(a: seq<int>) {
    forall i, j :: 0 <= i < j < |a| ==> a[i] != a[j]
  }

  /** `[x[0] for x in pairs]`. */
  function Firsts<V>(pairs: seq<(int, V)>): (ts: seq<int>)
    ensures |ts| == |pairs| && forall i :: 0 <= i < |pairs| ==> ts[i] == pairs[i].0
  {
    seq(|pairs|, i requires 0 <= i < |pairs| => pairs[i].0)
  }

  /** `[x[1] for x in pairs]`. */
  function Seconds<V>(pairs: seq<(int, V)>): (vs: seq<V>)
    ensures |vs| == |pairs| && forall i :: 0 <= i < |pairs| ==> vs[i] == pairs[i].1
  {
    seq(|pairs|, i requires 0 <= i < |pairs| => pairs[i].1)
  }

  /** `list(zip(ts, vs))`, which stops at the shorter list. */
  function Zip<V>(ts: seq<int>, vs: seq<V>): (pairs: seq<(int, V)>)
    ensures |pairs| == (if |ts| <= |vs| then |ts| else |vs|)
    ensures forall i :: 0 <= i < |pairs| ==> pairs[i] == (ts[i], vs[i])
  {
    var n := if |ts| <= |vs| then |ts| else |vs|;
    seq(n, i requires 0 <= i < n => (ts[i], vs[i]))
  }

  /** Zipping and splitting are inverse: lists of equal length give back themselves, and pairs give back the pairs. */
  lemma ZipRoundTrip<V>(ts: seq<int>, vs: seq<V>, pairs: seq<(int, V)>)
    requires |ts| == |vs|
    ensures Firsts(Zip(ts, vs)) == ts && Seconds(Zip(ts, vs)) == vs
    ensures Zip(Firsts(pairs), Seconds(pairs)) == pairs
  {
  }

  /** `dict(zip(ts, vs))` for lists of equal length: later positions overwrite earlier ones. */
  function DictOf<V>(ts: seq<int>, vs: seq<V>): (m: map<int, V>)
    requires |ts| == |vs|
    ensures forall t :: t in m <==> t in ts
  {
    if |ts| == 0 then map[]
    else
      var n := |ts| - 1;
      assert ts == ts[..n] + [ts[n]];
      DictOf(ts[..n], vs[..n])[ts[n] := vs[n]]
  }

  /** On distinct times, the dictionary maps each time to its own value. */
  lemma {:induction false} DictOfAt<V>(ts: seq<int>, vs: seq<V>)
    requires Distinct(ts) && |ts| == |vs|
    ensures forall i :: 0 <= i < |ts| ==> DictOf(ts, vs)[ts[i]] == vs[i]
    decreases |ts|
  {
    if |ts| > 0 {
      var n := |ts| - 1;
      var pts, pvs := ts[..n], vs[..n];
      assert Distinct(pts) by {
        forall i, j | 0 <= i < j < n ensures pts[i] != pts[j] {
          assert pts[i] == ts[i] && pts[j] == ts[j];
        }
      }
      DictOfAt(pts, pvs);
      var prev := DictOf(pts, pvs);
      assert DictOf(ts, vs) == prev[ts[n] := vs[n]];
      forall i | 0 <= i < |ts| ensures DictOf(ts, vs)[ts[i]] == vs[i] {
        if i < n {
          assert pts[i] == ts[i] && pvs[i] == vs[i];
          assert ts[i] != ts[n];
          assert prev[pts[i]] == pvs[i];
        }
      }
    }
  }

  /** On distinct times, the dictionary has one entry per time. */
  lemma {:induction false} DictOfSize<V>(ts: seq<int>, vs: seq<V>)
    requires Distinct(ts) && |ts| == |vs|
    ensures |DictOf(ts, vs)| == |ts|
    decreases |ts|
  {
    if |ts| > 0 {
      var n := |ts| - 1;
      DictOfSize(ts[..n], vs[..n]);
      var prev := DictOf(ts[..n], vs[..n]);
      assert forall i :: 0 <= i < n ==> ts[..n][i] != ts[n];
      assert ts[n] !in ts[..n];
      assert DictOf(ts, vs).Keys == prev.Keys + {ts[n]};
    }
  }

  /** `[m[t] for t in ts]`. */
  function ValuesOf<V>(m: map<int, V>, ts: seq<int>): (vs: seq<V>)
    requires forall i :: 0 <= i < |ts| ==> ts[i] in m
    ensures |vs| == |ts| && forall i :: 0 <= i < |ts| ==> vs[i] == m[ts[i]]
  {
    seq(|ts|, i requires 0 <= i < |ts| => m[ts[i]])
  }

  /**
   * `sorted(pairs)` for pairs with distinct times: the same pairs, one each,
   * ordered by time.
   */
  method SortedPairs<V>(pairs: seq<(int, V)>) returns (sorted: seq<(int, V)>)
    requires Distinct(Firsts(pairs))
    ensures Increasing(Firsts(sorted)) && |sorted| == |pairs|
    ensures forall p :: p in sorted <==> p in pairs
  {
    var ts0, vs0 := Firsts(pairs), Seconds(pairs);
    var m := DictOf(ts0, vs0);
    DictOfSize(ts0, vs0);
    var ts := SortedKeys(m.Keys);
    assert forall i :: 0 <= i < |ts| ==> ts[i] in ts;
    sorted := Zip(ts, ValuesOf(m, ts));
    assert Firsts(sorted) == ts;
    assert forall j :: 0 <= j < |pairs| ==> pairs[j].0 in ts by {
      forall j | 0 <= j < |pairs| ensures pairs[j].0 in ts { assert ts0[j] in ts0; }
    }
    RezippedFromPairs(pairs, ts);
    RezippedHasPairs(pairs, ts);
  }

  /** Every pair rebuilt from the dictionary of `pairs` at times it holds is one of `pairs`. */
  lemma RezippedFromPairs<V>(pairs: seq<(int, V)>, ts: seq<int>)
    requires Distinct(Firsts(pairs))
    requires forall i :: 0 <= i < |ts| ==> ts[i] in Firsts(pairs)
    ensures var m := DictOf(Firsts(pairs), Seconds(pairs));
      forall p :: p in Zip(ts, ValuesOf(m, ts)) ==> p in pairs
  {
    var ts0, vs0 := Firsts(pairs), Seconds(pairs);
    var m := DictOf(ts0, vs0);
    DictOfAt(ts0, vs0);
    var vs := ValuesOf(m, ts);
    var z := Zip(ts, vs);
    forall p | p in z ensures p in pairs {
      var i :| 0 <= i < |z| && z[i] == p;
      var j :| 0 <= j < |ts0| && ts0[j] == ts[i];
      assert pairs[j] == (ts0[j], vs0[j]);
    }
  }

  /** Every one of `pairs` is rebuilt from its dictionary at times holding all of theirs. */
  lemma RezippedHasPairs<V>(pairs: seq<(int, V)>, ts: seq<int>)
    requires Distinct(Firsts(pairs))
    requires forall i :: 0 <= i < |ts| ==> ts[i] in Firsts(pairs)
    requires forall j :: 0 <= j < |pairs| ==> pairs[j].0 in ts
    ensures var m := DictOf(Firsts(pairs), Seconds(pairs));
      forall p :: p in pairs ==> p in Zip(ts, ValuesOf(m, ts))
  {
    var ts0, vs0 := Firsts(pairs), Seconds(pairs);
    var m := DictOf(ts0, vs0);
    DictOfAt(ts0, vs0);
    var vs := ValuesOf(m, ts);
    var z := Zip(ts, vs);
    forall p | p in pairs ensures p in z {
      var j :| 0 <= j < |pairs| && pairs[j] == p;
      var i :| 0 <= i < |ts| && ts[i] == ts0[j];
      assert z[i] == (ts[i], vs[i]);
    }
  }

  /** Every finite set of integers with a member `y` has a least element. */
  lemma MinExists(s: set<int>, y: int) returns (m: int)
    requires y in s
    ensures m in s
    ensures forall x :: x in s ==> m <= x
    decreases |s|
  {
    if forall x :: x in s ==> x == y {
      m := y;
    } else {
      var z :| z in s && z != y;
      var m' := MinExists(s - {y}, z);
      m := if y < m' then y else m';
      forall x | x in s ensures m <= x {
        if x != y {
          assert x in s - {y};
        }
      }
    }
  }

  /** The head of a non-empty list is one of its members. */
  lemma HeadIn(s: seq<int>)
    ensures s != [] ==> s[0] in s
  {
  }

  /** `sorted(s)` for a finite set of times: every member once, in ascending order. */
  method SortedKeys(s: set<int>) returns (r: seq<int>)
    ensures Increasing(r)
    ensures |r| == |s|
    ensures forall x :: x in r <==> x in s
  {
    r := [];
    var rest := s;
    while true
      invariant rest <= s
      invariant Increasing(r)
      invariant |r| + |rest| == |s|
      invariant forall x :: x in s <==> x in r || x in rest
      invariant forall i, x :: 0 <= i < |r| && x in rest ==> r[i] < x
      decreases |rest|
    {
      if y :| y in rest {
        ghost var w := MinExists(rest, y);
        var m :| m in rest && forall x :: x in rest ==> m <= x;
        r := r + [m];
        rest := rest - {m};
      } else {
        break;
      }
    }
  }

  /** Two ascending lists with the same members are the same list, so `sorted` is determined by the set. */
  lemma {:induction false} IncreasingUnique(a: seq<int>, b: seq<int>)
    requires Increasing(a) && Increasing(b)
    requires forall x :: x in a <==> x in b
    ensures a == b
    decreases |a|
  {
    if a != [] && b != [] {
      assert a[0] == b[0] by {
        assert a[0] in a && b[0] in b;
        assert a[0] in b && b[0] in a;
      }
      forall x ensures x in a[1..] <==> x in b[1..] {
        if x in a[1..] {
          assert x in b && x > a[0];
        }
        if x in b[1..] {
          assert x in a && x > b[0];
        }
      }
      IncreasingUnique(a[1..], b[1..]);
      assert a == [a[0]] + a[1..] && b == [b[0]] + b[1..];
    } else {
      HeadIn(a);
      HeadIn(b);
    }
  }
}
