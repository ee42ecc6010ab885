# timeseries, modelled in Dafny

A model of the core of a small sparse time-series library. There are three pieces:

- **`timeseries/utils.py`** holds two list helpers:
  - `index_of` is a binary search with unusual boundary conventions. `None` gives the last index. A query below the first time gives 0. Otherwise the result is the last index at or before the query.
  - `prune_lists` thins parallel lists to a minimum spacing, measured on the first list. Position 0 is always kept, and so is the last position under `keep_end`.
- **`TimeSeries`** (`timeseries/timeseries.py`) is a pair of parallel lists, `times` and `values`:
  - a point query uses hold semantics, with a synthesized `first_val` before the first time unless `use_fv` is set;
  - a range query takes the window from the point in force at `start` up to `stop`. It is half-open on `stop`, except that a `stop` of 0 always takes the overrun step, so the window ends just after `index_of(0)`;
  - a stepped range is thinned by `prune_lists`;
  - `+ - * /` are evaluated on the sorted union of both operands' times, and division by zero yields 0;
  - `&` merges both series, and the right operand wins at a shared time;
  - `pad`, `shift`, `tilt`, `prune`, `topairs` and in-place `__setitem__`.
- **`TimeSeriesDict`** (`timeseries/timeseriesdict.py`) is a series whose values are records:
  - the constructor sorts the `(time, record)` pairs. For each data key named in `val_keys`, it keeps a track `_dict[k]` of the times and values of the records that hold the key;
  - a point query returns the stored record at `index_of(time)` after writing each data key's forward-filled value into it. The record is updated in place, and the caller receives that same object;
  - `[:]` returns both lists, and every other range raises `NotImplementedError`.

The modules follow the source:

| module | file | contents |
|---|---|---|
| `Wrappers` | `wrappers.dfy` | `Option`, and `Result` with the two exceptions the core raises (`IndexError`, `NotImplementedError`) |
| `PyList` | `pylist.dfy` | the Python built-ins the code relies on: slicing with negative and clamped bounds, `zip`, `dict(zip(...))`, `sorted` |
| `Utils`, `Pruning` | `utils.dfy` | `index_of` and `prune_lists`, and the properties of pruning |
| `Series` | `timeseries.dfy` | `_new_slice` as a function, with the pad, shift and tilt specifications and the class `TimeSeries` |
| `SeriesDict` | `timeseriesdict.dfy` | records as heap objects (`Record`), the per-key tracks, and the class `TimeSeriesDict` |

**How values are modelled:**
- Times are `int` and values are `real`, so the arithmetic is exact. `interval` and `step` are `int`.
- A record is a `map<string, Field>`, where a field is a number or a text.
- `first_val=False` in `TimeSeriesDict` is `None`.

**Imperative code stays imperative:**
- `index_of`, `prune_lists`, `pad` (with its inner `while`), the arithmetic operators' loop, the dictionary constructor's loops and the dictionary point query's loop are methods with loop invariants. Each is proved against a specification function, or states its result outright.
- Sorting is a selection loop, proved to return every member once in ascending order.
- `__setitem__` and `tilt` overwrite the series' `values` in place.
- `TimeSeriesDict` point queries update the stored `Record` object in place.

**Where the code and its comments disagree, the model follows the code:**
- The `pad` docstring says the previous value is repeated. The code appends the *next* original point's value (`curr_val`), so the model does too (`Series.PadValuesNext`).
- `_new_slice` tests `not stop`, so a stop of 0 always takes the overrun step, and the window ends just after `index_of(0)`. Over `[-2, 0, 2]`, `[-2:0]` therefore includes the point at time 0 (`Series.StopZeroIncluded`).
- `timeseriesdict.py` calls `index_of(..., begin=True)`, but the `index_of` in `utils.py` takes no such parameter. The model uses the `index_of` shown in `utils.py`, which agrees with `tests/test_timeseriesdict.py`.

## Model

| member | source | states |
|---|---|---|
| PyList.Resolve | timeseries/timeseries.py:130-131 | a Python slice bound lies in `[0, n]`: a bound inside the list is kept, and a negative one counts from the end |
| PyList.Slice | timeseries/timeseries.py:128-131 | `s[lo:hi]` in Python: both bounds resolved against the length (negative from the end, clamped to `[0, n]`, `None` omitted), and empty when they cross |
| PyList.SliceWithin | timeseries/timeseries.py:202-205 | with bounds inside the list, `s[i:j]` and `s[i:]` are the elements at positions `i` up to `j` (or up to the end) |
| PyList.SliceIncreasing | timeseries/timeseries.py:130-131 | any Python slice of an ascending time list is ascending, so a shifted series is a valid series |
| PyList.Firsts | timeseries/timeseries.py:27 | `[x[0] for x in pairs]` has one time per pair, namely the pair's time |
| PyList.Seconds | timeseries/timeseries.py:28 | `[x[1] for x in pairs]` has one value per pair, namely the pair's value |
| PyList.Zip | timeseries/timeseries.py:156 | `zip` stops at the shorter list and pairs equal positions |
| PyList.ZipRoundTrip | timeseries/timeseries.py:27-28 | separating the pairs of `zip(ts, vs)` gives `ts` and `vs` back, and zipping the separated pairs gives the pairs back |
| PyList.DictOf | timeseries/timeseries.py:92-93 | `dict(zip(ts, vs))` has exactly the times of `ts` as keys |
| PyList.DictOfAt | timeseries/timeseries.py:92-93 | on distinct times, `dict(zip(ts, vs))` maps each time to the value at the same position |
| PyList.DictOfSize | timeseries/timeseries.py:92-93 | on distinct times, `dict(zip(ts, vs))` has one entry per time |
| PyList.ValuesOf | timeseries/timeseries.py:31 | `[m[t] for t in ts]` has one value per time, each looked up in `m` |
| PyList.SortedKeys | timeseries/timeseries.py:30 | `sorted(keys)` is strictly ascending and holds every key exactly once |
| PyList.IncreasingUnique | timeseries/timeseries.py:63 | two ascending lists with the same members are equal, so the sorted list is determined by the set of times |
| PyList.SortedPairs | timeseries/timeseriesdict.py:55-59 | `sorted(pairs)` on distinct times orders them by time and keeps exactly the same pairs |
| PyList.RezippedFromPairs | timeseries/timeseriesdict.py:55-59 | every pair rebuilt from `dict(pairs)` at its own times is one of the original pairs |
| PyList.RezippedHasPairs | timeseries/timeseriesdict.py:55-59 | every original pair is rebuilt from `dict(pairs)` when the times cover all of the pairs' times |
| PyList.MinExists | timeseries/timeseries.py:30 | a non-empty finite set of times has a least member, which `sorted` puts first |
| Utils.CountAtMost | timeseries/utils.py:12-20 | the number of elements at most `v` is at most the length of the list |
| Utils.CountBelow | timeseries/timeseries.py:189-192 | the number of elements below `v` is at most the length of the list |
| Utils.Locate | timeseries/utils.py:12-20 | the reference for a numeric `index_of` query, on a non-empty list, is an index of the list |
| Utils.CountAtMostSplits | timeseries/utils.py:12-20 | on an ascending list, the elements at most `v` form a prefix, and every later element is above `v` |
| Utils.CountBelowSplits | timeseries/timeseries.py:189-192 | on an ascending list, the elements below `v` form a prefix, and every later element is at or above `v` |
| Utils.CountAtMostOfSplit | timeseries/utils.py:12-20 | a prefix at most `v` followed only by larger elements has exactly the counted length |
| Utils.CountBelowOfSplit | timeseries/timeseries.py:189-192 | a prefix below `v` followed only by elements at or above it has exactly the counted length |
| Utils.CountBelowBetween | timeseries/timeseries.py:189-192 | on an ascending list, a value above position `m-1` and at most position `m` has exactly `m` elements below it |
| Utils.LocatePresent | timeseries/utils.py:13-15 | a query present in a strictly ascending list finds its own index |
| Utils.LocateAbsentAbove | timeseries/utils.py:16-20 | an absent query above the first element finds the last element below it, which is the last index when the query exceeds every element |
| Utils.LocateBelow | timeseries/utils.py:16-20 | a query below the first element gives index 0 |
| Utils.LocateHolds | timeseries/utils.py:12-20 | from the first element on, the found element is the last one at or before the query |
| Utils.IndexOfSpec | timeseries/utils.py:5-20 | the reference for `index_of`: `None` gives `len(a) - 1`, and any query on a non-empty list gives an index of the list; a numeric query is `Locate` |
| Utils.LastIndex | timeseries/utils.py:28 | `last_idx`: the last position of the first list under `keep_end`, otherwise a value no position equals (the source's `None`) |
| Utils.IndexOf | timeseries/utils.py:5-20 | `index_of(None, a)` is `len(a)-1`. A numeric query always gives an index in `[0, len(a)-1]` of a non-empty list; on a strictly ascending list it is `Locate`. The loop ends because `high - low` shrinks |
| Utils.Kept | timeseries/utils.py:27-38 | the kept positions are among the first `n`, and position 0 is kept whenever `n > 0` |
| Utils.PruneIndices | timeseries/utils.py:28-30 | every kept position is a position of both lists, because `zip` stops at the shorter one |
| Utils.PruneLists | timeseries/utils.py:23-39 | `prune_lists` returns two lists of equal length. Each is the elements of its input at the same kept positions, in order |
| Utils.KeptNext | timeseries/utils.py:31-38 | one more loop step appends the position exactly when it is 0, the forced last one, or at least `interval` past the last kept time |
| Utils.PickAppend | timeseries/utils.py:34 | appending a kept position appends that element to the output |
| Utils.Pick | timeseries/utils.py:33-38 | an output list of `prune_lists`: the input's elements at the kept positions, in the order kept |
| Utils.PrunedValues | timeseries/utils.py:27-39 | the second list `prune_lists` returns: the values at the positions kept by spacing on the times |
| Utils.PruneAdvance | timeseries/utils.py:30-38 | one step of the loop keeps the kept positions, both outputs and `prev_val` in step, whether or not it keeps the position |
| Pruning.KeptAscending | timeseries/utils.py:30-38 | the kept positions are strictly ascending, so each output is a subsequence of its input in order |
| Pruning.PickIncreasing | timeseries/utils.py:30-38 | elements of an ascending list at ascending positions are ascending |
| Pruning.PrunedIncreasing | timeseries/utils.py:30-39 | pruning an ascending time list gives an ascending time list |
| Pruning.KeepsEnds | timeseries/utils.py:28-34 | index 0 is always kept. With `keep_end`, the last index is kept too, once `zip` reaches it |
| Pruning.KeptSpacing | timeseries/utils.py:35-38 | every kept position other than 0 and the forced last one is at least `interval` past the previously kept one |
| Pruning.KeptDropsOnlyClose | timeseries/utils.py:35-38 | a dropped position is not the forced last one and lies less than `interval` past the last kept one |
| Pruning.Iota | timeseries/utils.py:30 | `range(m)`: the positions 0 to `m-1` in order |
| Pruning.KeptAllOfSpaced | timeseries/utils.py:30-38 | a list already spaced by `interval` loses no position |
| Pruning.PickAll | timeseries/utils.py:30-34 | keeping every position gives the list back |
| Pruning.PruneIdempotent | timeseries/utils.py:30-38 | pruning the output of `prune_lists` again, with the same interval and `keep_end`, returns it unchanged |
| Series.WithFirstVal | timeseries/timeseries.py:176-179 | putting `(start, first_val)` in front keeps the lists parallel, non-empty and ascending |
| Series.Window | timeseries/timeseries.py:182-192 | `start_idx` is an index, and `stop_idx` is at most the length of the lists with `first_val` in front |
| Series.ValueAt | timeseries/timeseries.py:176-187 | the point query `series[t]` on a non-empty series: the lists with `first_val` in front, searched by `index_of(t)` |
| Series.NewSlice | timeseries/timeseries.py:164-205 | `_new_slice` fails exactly on an empty series for any key but `[:]`, and the failure is IndexError. A point key gives one value; a range gives a list |
| Series.StopCountsBelow | timeseries/timeseries.py:189-192 | `index_of(stop)` plus the overrun correction equals the number of times strictly below `stop` |
| Series.PointHeld | timeseries/timeseries.py:176-187 | at or after the first time, a point query returns the value of the last time at or before the query |
| Series.PointBeforeFirst | timeseries/timeseries.py:176-187 | before the first time, a point query returns `first_val`, or `values[0]` under `use_fv` |
| Series.WholeSlice | timeseries/timeseries.py:168-172 | `[:]` returns the whole value list, even on an empty series |
| Series.RangeWindow | timeseries/timeseries.py:176-205 | with a numeric start, no step and a stop other than 0, a range is `values[index_of(start):j]` on the lists with `first_val` in front, where `j` counts the times below `stop` (all of them when `stop` is omitted) |
| Series.RangeHalfOpen | timeseries/timeseries.py:182-205 | when `start` is at or after the first time, that window is taken on the stored values themselves |
| Series.StopZeroIncluded | timeseries/timeseries.py:190-192 | a stop of 0 includes the point at time 0: `[-2:0]` over `[-2, 0, 2]` returns two values |
| Series.StepThinsRange | timeseries/timeseries.py:201-203 | a stepped range is the unstepped range thinned by `prune_lists` over the window's times |
| Series.PointExamples | tests/test_timeseries.py:24-35 | the point-query values of `test_single_slice` (`t[0] == t[1] == 0`, `t[2] == t[3] == 2`) and of `test_sincle_slice_with_first_val` (`t[0] == t[1] == -1`, `t[2] == 2`) |
| Series.RangeExamples | tests/test_timeseries.py:43-46 | `t[2:]` and `t[2:8]` over `[2, 4, 6, 8]` |
| Series.RangeFirstValExamples | tests/test_timeseries.py:48-51 | `t[0:6]` and `t[0:]` with `first_val = -1` |
| Series.KeptEveryOther | timeseries/utils.py:30-38 | on the times 0, 1, 2, …, thinning by spacing 2 keeps exactly the even positions |
| Series.StepKept | timeseries/utils.py:30-38 | on times 0 to 7, thinning by spacing 2 keeps positions 0, 2, 4 and 6 |
| Series.StepPicked | timeseries/utils.py:34 | picking positions 0, 2, 4 and 6 of the values 0 to 9 |
| Series.StepWindow | timeseries/timeseries.py:201-203 | `[0:8:2]` over times 0 to 9 thins the window of times 0 to 7 |
| Series.StepExample | tests/test_timeseries.py:59-61 | `t[0:8:2]` over times 0 to 9 gives `[0, 2, 4, 6]` |
| Series.Apply | timeseries/timeseries.py:80-88 | division by zero yields 0, and any other division gives the quotient |
| Series.ArithmeticExample | tests/test_timeseries.py:68-101 | `[0, 2, 4] + [1, 2, 3]` gives `[0, 1, 4, 5, 7]` on the union of times. The division at time 0 is 0 and at time 3 is 2/3 |
| Series.HeldExample | tests/test_timeseries.py:68-101 | the point queries of `[0, 2, 4]` and `[1, 2, 3]` at times 1 to 4 hold the last value at or before each time |
| Series.MergeRightWins | timeseries/timeseries.py:90-95 | the merged dictionary holds every time of either series. A time of the right operand carries its value there; any other time keeps its own value |
| Series.MergeLists | timeseries/timeseries.py:90-95 | the lists `&` builds are ascending and parallel, hold every time of either operand, and carry the right operand's value at a shared time and their own value elsewhere |
| Series.ShiftedTimes | timeseries/timeseries.py:127-131 | the times `shift(num)` keeps: all of them for 0, `times[num:]` for a positive `num`, `times[:num]` for a negative one |
| Series.ShiftedValues | timeseries/timeseries.py:127-131 | the values `shift(num)` keeps: all of them for 0, `values[:-num]` for a positive `num`, `values[-num:]` for a negative one |
| Series.ShiftAligns | timeseries/timeseries.py:123-131 | `shift(0)` keeps both lists. A positive shift pairs `times[num:]` with `values[:-num]`, and a negative one pairs `times[:num]` with `values[-num:]`. Both lists have length `max(0, n - abs(num))` |
| Series.Rescaled | timeseries/timeseries.py:106-112 | the rescaled values have the same number of entries |
| Series.Ramp | timeseries/timeseries.py:113-114 | the returned ramp has one value per point |
| Series.RampEnds | timeseries/timeseries.py:113-114 | the ramp starts at `values[0]`, ends at `new_end`, and rises by `(new_end - start)/(n-1)` at each step |
| Series.RescaledEnds | timeseries/timeseries.py:106-112 | when the run is non-zero, the first value stays and the last becomes `new_end`; tilting to the current last value changes nothing |
| Series.Repeat | timeseries/timeseries.py:146-147 | `n` copies of the next point's value |
| Series.Fill | timeseries/timeseries.py:143-144 | the times the inner `while` steps through from `prev_time`: `prev+interval`, `prev+2*interval`, … while the remaining gap exceeds `interval` |
| Series.Emit | timeseries/timeseries.py:145 | the `keep_end` test: a stepped time is kept unless `keep_end` is set and `last_val - curr_val < interval` |
| Series.Gap | timeseries/timeseries.py:141-147 | the times `pad` inserts before original position `i`: none at position 0, the stepped times when the `keep_end` test passes, none otherwise |
| Series.PadTimes | timeseries/timeseries.py:138-149 | `padded_times` after the first `n` points: each point's inserted times, then the point's own time |
| Series.PadValues | timeseries/timeseries.py:138-149 | `padded_values` after the first `n` points: the point's value once per inserted time, then once for the point itself |
| Series.FillSteps | timeseries/timeseries.py:143-144 | the inserted times are `prev+interval, prev+2*interval, …`, and the last of them (or `prev`) lies within `interval` of the next original time |
| Series.FillBetween | timeseries/timeseries.py:143-144 | the inserted times are ascending and lie strictly between the two original times |
| Series.FillShape | timeseries/timeseries.py:143-147 | so the inserted times form a dense ascending run between the neighbours |
| Series.ConcatIncreasing | timeseries/timeseries.py:146-148 | appending a block whose times follow the list's end keeps it ascending |
| Series.ConcatDense | timeseries/timeseries.py:146-148 | appending a dense block within `interval` of the list's end keeps it dense |
| Series.BlockIncreasing | timeseries/timeseries.py:143-149 | appending ascending inserted times and then the next original time, all above the list's end, keeps the padded times ascending |
| Series.BlockDense | timeseries/timeseries.py:143-149 | appending inserted times and the next original time, with every seam at most `interval`, keeps the padded times dense |
| Series.PadAscending | timeseries/timeseries.py:138-150 | the padded times are ascending, parallel to the padded values, and end at the last original time processed |
| Series.PadKeepsOriginals | timeseries/timeseries.py:148-149 | every original time appears in the padded times |
| Series.PadDense | timeseries/timeseries.py:143-150 | with `keep_end` off, no gap between neighbouring padded times exceeds `interval` |
| Series.TailBlock | timeseries/timeseries.py:143-149 | the block appended for one original point lies above the previous time, up to that point's time, and carries its value |
| Series.PadLastBlock | timeseries/timeseries.py:141-150 | the times added for the last processed point lie in `(times[n-2], times[n-1]]`, each with value `values[n-1]` |
| Series.PadValuesNext | timeseries/timeseries.py:142-149 | each padded value is the value of the first original time at or after the padded time, that is, of the next original point |
| Series.PadExample | timeseries/timeseries.py:138-153 | `[0, 2, 4]` padded by 1 gives times `[0, 1, 2, 3, 4]` and values `[0, 2, 2, 4, 4]` |
| Series.PadLists | timeseries/timeseries.py:138-150 | the loop of `pad` with `interpolate=False` builds exactly `PadTimes` and `PadValues` over all the points |
| Series.StepTowards | timeseries/timeseries.py:143-147 | the inner `while` of `pad` collects exactly the stepped times when the `keep_end` test passes, each with the next point's value |
| Series.TimeSeries.constructor | timeseries/timeseries.py:22-36 | `TimeSeries(times, values)` stores both lists and the options, with defaults `use_fv=False` and `first_val=0` |
| Series.TimeSeries.FromPairs | timeseries/timeseries.py:26-28 | `TimeSeries(pairs)` splits the pairs into the two lists |
| Series.TimeSeries.FromMap | timeseries/timeseries.py:29-31 | `TimeSeries(dict)` takes the keys in ascending order, each with its value |
| Series.TimeSeries.ToPairs | timeseries/timeseries.py:155-156 | `topairs()` splits back into `times` and `values` |
| Series.TimeSeries.Get | timeseries/timeseries.py:51-52 | `series[key]` is `_new_slice` on the stored lists with the series' own options |
| Series.TimeSeries.SetAt | timeseries/timeseries.py:54-57 | `__setitem__` overwrites only `values[index_of(time)]`: the nearest earlier point for an absent time, and the last point for `time` None. `times` and all other values are unchanged. It fails only on an empty series |
| Series.TimeSeries.Combine | timeseries/timeseries.py:59-88 | `+ - * /` give the sorted union of times, each value being the operator on both point queries there, with default options. An empty operand beside a non-empty one raises IndexError |
| Series.TimeSeries.Tabulate | timeseries/timeseries.py:60-62 | the loop fills `tv` with one entry per time of either operand, the operator applied to both point queries |
| Series.TimeSeries.Merge | timeseries/timeseries.py:90-95 | `&` gives the sorted union of times. At a shared time the right operand's value wins, and elsewhere each point keeps its own value |
| Series.TimeSeries.Prune | timeseries/timeseries.py:116-121 | `prune(interval)` is both lists thinned by `prune_lists`, in a fresh series with default options |
| Series.TimeSeries.Shift | timeseries/timeseries.py:123-131 | `shift(num)` pairs the shifted times with the shifted values in a fresh series |
| Series.TimeSeries.Tilt | timeseries/timeseries.py:97-114 | `tilt` rescales the stored values in place, keeps the times, and returns a fresh series with the same times whose values ramp evenly from `values[0]` to `new_end` |
| Series.TimeSeries.Pad | timeseries/timeseries.py:133-153 | `pad(interval, interpolate=False)` returns the padded times and values described by `PadTimes`/`PadValues`. A one-point series is copied as it is, for any interval. An empty series raises IndexError at `values[-1]` |
| SeriesDict.Record.constructor | timeseries/timeseriesdict.py:72-73 | a stored record holds the contents it was given |
| SeriesDict.TrackOf | timeseries/timeseriesdict.py:72-77 | a key's track has one value per time |
| SeriesDict.TrackFromPairs | timeseries/timeseriesdict.py:74-77 | every time on a key's track is the time of one of the pairs read so far |
| SeriesDict.PartialStep | timeseries/timeseriesdict.py:74-77 | appending one more of the record's keys keeps the partial description |
| SeriesDict.PartialDone | timeseries/timeseriesdict.py:72-77 | once all of a record's keys are handled, the tracks are those after that record |
| SeriesDict.TrackAscending | timeseries/timeseriesdict.py:72-77 | on sorted pairs, a key's track times are ascending, and each is the time of one of the pairs |
| SeriesDict.TrackExact | timeseries/timeseriesdict.py:74-77 | a key's track holds a record's time exactly when that record holds the key, with the key's value from that record |
| SeriesDict.KeyAt | timeseries/timeseriesdict.py:136-144 | the value a point query gives a data key is read from the key's own track, with `(t, first_val)` in front before the track starts |
| SeriesDict.KeyHeld | timeseries/timeseriesdict.py:144 | forward fill: at or after a key's first time, the key takes its value at its last time at or before the query |
| SeriesDict.KeyBeforeFirst | timeseries/timeseriesdict.py:137-144 | before a key's first time, the key takes `first_val`, or its first recorded value when `first_val is False` |
| SeriesDict.TrackExample | tests/test_timeseriesdict.py:23-28 | the tracks of `test_single_slice`: `k` is `[1] -> [2]` and `v` is `[0, 1, 2] -> [1, 2, 3]`. `k` is 0 at time 0 and 2 at time 2 |
| SeriesDict.TrackOfK | tests/test_timeseriesdict.py:24-25 | in `test_single_slice`, only the second record has a `k`, so its track is `[1] -> [2]` |
| SeriesDict.TrackOfV | tests/test_timeseriesdict.py:24-25 | in `test_single_slice`, every record has a `v`, so its track is `[0, 1, 2] -> [1, 2, 3]` |
| SeriesDict.TimeSeriesDict.constructor | timeseries/timeseriesdict.py:53-77 | `TimeSeriesDict(pairs)` holds the same pairs sorted by time, one fresh record per pair, and the tracks of the data keys |
| SeriesDict.TimeSeriesDict.FromLists | timeseries/timeseriesdict.py:54-55 | `TimeSeriesDict(times, records)` zips the lists up to the shorter one, then sorts |
| SeriesDict.TimeSeriesDict.FromMap | timeseries/timeseriesdict.py:58-59 | `TimeSeriesDict(dict)` holds the items in order of time |
| SeriesDict.TimeSeriesDict.Load | timeseries/timeseriesdict.py:66-77 | the constructor's loop fills `_times` and `_values` in order and leaves exactly the tracks of the data keys |
| SeriesDict.TimeSeriesDict.LoadPair | timeseries/timeseriesdict.py:72-77 | one position of the loop: `_times[i]` and `_values[i]` get the pair's time and a fresh record of its contents, and its data keys join their tracks |
| SeriesDict.TimeSeriesDict.AppendPair | timeseries/timeseriesdict.py:74-77 | the inner loop appends one pair's time and value to the track of each of its data keys, and touches nothing else |
| SeriesDict.TimeSeriesDict.NewSlice | timeseries/timeseriesdict.py:120-146 | `[:]` returns both lists; any other range raises NotImplementedError; a point query on an empty series raises IndexError. Otherwise it returns `(time, record)` with the stored record at `index_of(time)` itself, in which each data key is forward-filled and the other fields are the record's own. No other record changes |
| SeriesDict.TimeSeriesDict.FillTracked | timeseries/timeseriesdict.py:136-144 | the loop over `_dict` writes every data key's value at the query time into the record and leaves its other fields |
| SeriesDict.TimeSeriesDict.HeldValue | timeseries/timeseriesdict.py:137-144 | one key of the loop gets its value at the query time from its own track, with `first_val` in front before the track starts |

## Left out

- Utils.PruneLists: `prune_lists(interval, *lsts, keep_end=...)` takes any number of lists, and the model fixes it at two, times and values, because every call in the modelled core passes exactly those two.
- Interpolation (`np.interp`, the `interpolate` option) in `_new_slice`, in `pad` (where it is the default) and in `TimeSeriesDict._new_slice`. It is floating-point work in an external library, so only `interpolate=False` is modelled.
- Floating point: values are exact reals. Python's integer division in `tilt` and in `/` between integers does not arise, because the source multiplies by `1.0`.
- Series.TimeSeries.Tilt: requires at least two points. With one point the source divides by zero through numpy, producing a NaN rather than raising; an empty series raises IndexError at `values[0]`.
- Series.TimeSeries.Pad: requires `interval > 0` unless the series has at most one point. With one point (or none) the inner `while` never runs, and the model covers any interval there. With two or more points and `interval <= 0`, the source's inner loop never ends.
- Series.TimeSeries.constructor: requires strictly ascending times and lists of equal length. The source checks neither, but `index_of` presumes a sorted list and the operations `zip` the two lists.
- Series.TimeSeries.FromPairs: requires strictly ascending times, for the same reason.
- Series.NewSlice: requires a numeric `start` for every range except `[:]`. Slices such as `t[:5]` or `t[::2]` rely on Python 2 ordering `None` below numbers, which the code itself marks as a bug. `t[None]` is not modelled either.
- Series.TimeSeries.SetAt: the series' lists are values (`seq`), so aliasing is not modelled. The source's constructor stores the caller's own lists, `shift(0)` returns a series sharing both lists, and `t[:]` returns the stored `values` list itself. `__setitem__` writes into that shared list in place, so `b = a.shift(0); b[t] = x` also changes `a` and the caller's list. In the model a write to one series never shows in another.
- SeriesDict.TimeSeriesDict.NewSlice: a point key of `None` is not modelled, because `Key.Point` holds an `int`. In the source, `tsd[None]` returns `(None, record)` with the record at `index_of(None) = len-1`, each data key taking the last value of its own track without `first_val` in front; on an empty series it raises IndexError.
- SeriesDict.TimeSeriesDict.constructor: requires distinct times. On a tie, Python 2's `sorted` would go on to compare the records themselves.
- SeriesDict.TimeSeriesDict.FromLists: requires distinct times, for the same reason.
- SeriesDict.TimeSeriesDict.constructor: the stored records are fresh objects holding the caller's contents. The source stores the caller's own dictionaries, so the caller's later changes to them are not modelled.
- SeriesDict.TimeSeriesDict.Load: the source preallocates `[None] * len` and assigns by index. The model appends, which gives the same lists.
- Series.TimeSeries.Combine: the source's loop over `self.times + other.times` is factored into `Tabulate`, and `pad`'s inner `while` into `StepTowards`.
- The model's `TimeSeriesDict` class does not store the options `use_fv` and `interpolate` (the source keeps `self.interpolate`; the model fixes it at `False`, as the interpolation line above says), and `first_val=None` (a valid Python value) has no `Field`. Only `first_val=False` is modelled, as `None`.
- `index_of(..., begin=True)`: the `index_of` in `utils.py` has no `begin` parameter. The calls are modelled with the shown semantics.
- `TimeSeriesDict.__getitem__` wraps the result of `[:]` into a new `TimeSeriesDict`. The model returns the two lists that `_new_slice` yields.
- The `TimeSeriesDict` arithmetic (`__add__`, `__sub__`, `__mul__`, `__div__`, `_times_values_op`) and `__or__` are not modelled. They call `combine_dicts` and `float_div`, which `utils.py` does not define, and they read attributes the class never sets.
- `timeseries/__init__.py` is not part of this model: it is wrapper glue that calls missing methods.
- The trivial views `__repr__`, `__str__`, `__iter__`, `__len__`, `tolists` and `todict` are left out.
- Construction from anything other than lists, pairs or a dictionary raises a bare `Exception` in the source. Dafny's types exclude that case.
