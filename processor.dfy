/** The analysis selection helpers of src/lib/processor.py: the open-interval
    test, dropping listed positions, the outlier filter (its statistics are
    inputs), the per-frame peak selection of `w2_normalisation` and the
    frequency binning of `bin_by_w`. src/processor.py has the same code for
    all of these but the outlier filter, which is in ProcessorLegacy. */
module Processor {
  import opened Py

  /** What the analysis reads from one frame: its time, its peak frequencies
      (None for a frame added without audio) and the result of
      `get_total_mass`. */
  datatype FrameView = FrameView(t: real, peakFreq: Option<seq<real>>, totalMass: Result<real>)

  // ---------------------------------------------------------------------
  // in_range

  /** `in_range(val, l, r)`; an absent bound does not limit. */
  predicate InRange(val: real, l: Option<real>, r: Option<real>)
  {
    (l.None? || l.value < val) && (r.None? || val < r.value)
  }

  /** Both ends are excluded, despite the "[l, r)" of the comment; strictly
      between them is in range, and absent bounds admit everything. */
  lemma InRangeExclusive(l: real, r: real, val: real)
    ensures !InRange(l, Some(l), Some(r)) && !InRange(r, Some(l), Some(r))
    ensures InRange(val, Some(l), Some(r)) <==> l < val < r
    ensures InRange(val, None, None)
  {
  }

  // ---------------------------------------------------------------------
  // remove_by_indices

  /** The positions below `n` that `indices` does not list, ascending. */
  function KeptPositions(n: nat, indices: seq<int>): (ks: seq<nat>)
    ensures |ks| <= n
    ensures forall k :: 0 <= k < |ks| ==> ks[k] < n && ks[k] !in indices
    ensures forall j :: 0 <= j < n && j !in indices ==> j in ks
    ensures StrictlyIncreasing(ks)
  {
    if n == 0 then []
    else
      var ks := KeptPositions(n - 1, indices);
      if n - 1 in indices then ks else ks + [n - 1]
  }

  /** `remove_by_indices(x, indices)`: the elements at the positions not
      listed, in their original order. */
  function RemoveByIndices<T>(x: seq<T>, indices: seq<int>): (r: seq<T>)
    ensures var ks := KeptPositions(|x|, indices);
            |r| == |ks| && forall k :: 0 <= k < |r| ==> r[k] == x[ks[k]]
  {
    if x == [] then []
    else
      var init := RemoveByIndices(x[..|x| - 1], indices);
      if |x| - 1 in indices then init else init + [x[|x| - 1]]
  }

  /** How many positions below `n` are listed. */
  function Listed(n: nat, indices: seq<int>): nat
  {
    if n == 0 then 0 else Listed(n - 1, indices) + (if n - 1 in indices then 1 else 0)
  }

  lemma {:induction false} KeptAndListed(n: nat, indices: seq<int>)
    ensures |KeptPositions(n, indices)| + Listed(n, indices) == n
  {
    if n > 0 {
      KeptAndListed(n - 1, indices);
      var ks := KeptPositions(n - 1, indices);
      assert |KeptPositions(n, indices)| == |ks| + (if n - 1 in indices then 0 else 1);
    }
  }

  lemma {:induction false} ListedSameBelow(n: nat, a: seq<int>, b: seq<int>)
    requires forall j :: 0 <= j < n ==> (j in a <==> j in b)
    ensures Listed(n, a) == Listed(n, b)
  {
    if n > 0 {
      ListedSameBelow(n - 1, a, b);
    }
  }

  /** Each position listed by a strictly ascending list below `n` is counted
      once. */
  lemma {:induction false} ListedAscending(n: nat, indices: seq<int>)
    requires StrictlyIncreasing(indices)
    requires forall k :: 0 <= k < |indices| ==> 0 <= indices[k] < n
    ensures Listed(n, indices) == |indices|
  {
    if n > 0 {
      if indices != [] && indices[|indices| - 1] == n - 1 {
        var init := indices[..|indices| - 1];
        forall j | 0 <= j < n - 1
          ensures j in indices <==> j in init
        {
          if j in indices {
            var k :| 0 <= k < |indices| && indices[k] == j;
            assert k < |indices| - 1;
            assert init[k] == j;
          }
        }
        ListedSameBelow(n - 1, indices, init);
        forall k | 0 <= k < |init|
          ensures 0 <= init[k] < n - 1
        {
          assert indices[k] < indices[|indices| - 1];
        }
        ListedAscending(n - 1, init);
      } else {
        forall k | 0 <= k < |indices|
          ensures 0 <= indices[k] < n - 1
        {
          assert indices[k] <= indices[|indices| - 1];
        }
        assert n - 1 !in indices;
        ListedAscending(n - 1, indices);
      }
    }
  }

  /** Removing a strictly ascending list of in-range positions shortens the
      list by exactly that many elements. */
  lemma RemoveAscendingCount<T>(x: seq<T>, indices: seq<int>)
    requires StrictlyIncreasing(indices)
    requires forall k :: 0 <= k < |indices| ==> 0 <= indices[k] < |x|
    ensures |RemoveByIndices(x, indices)| == |x| - |indices|
  {
    KeptAndListed(|x|, indices);
    ListedAscending(|x|, indices);
  }

  // ---------------------------------------------------------------------
  // outlier_filter

  /** The statistics of the list: mean, sample standard deviation, the
      quartiles and the two percentiles at the limit (computed by
      `statistics` and numpy; not modelled). */
  datatype Stats = Stats(mean: real, stdev: real, q1: real, q3: real, low: real, high: real)

  function Abs(v: real): real { if v < 0.0 then -v else v }

  /** `outlier_filter` rejects a percentile limit of 100 or more, a negative
      `z` and a negative IQR factor. */
  predicate ValidFilterParams(z: Option<real>, iqrFactor: Option<real>, percentileLimit: real)
  {
    !(percentileLimit >= 100.0 || (z.Some? && z.value < 0.0) || (iqrFactor.Some? && iqrFactor.value < 0.0))
  }

  /** The three tests chained by `elif`: far from the mean (only when the
      deviation is non-zero), outside the IQR fence, outside the percentiles. */
  predicate Outlier(val: real, z: Option<real>, iqrFactor: Option<real>, s: Stats)
  {
    (z.Some? && s.stdev != 0.0 && Abs(val - s.mean) / s.stdev > z.value) ||
    (iqrFactor.Some? && (val > s.q3 + iqrFactor.value * (s.q3 - s.q1) || val < s.q1 - iqrFactor.value * (s.q3 - s.q1))) ||
    val > s.high || val < s.low
  }

  /** The indices the loop appends, for the first `n` values. */
  function OutlierIndices(x: seq<real>, n: nat, z: Option<real>, iqrFactor: Option<real>, s: Stats): (r: seq<nat>)
    requires n <= |x|
    ensures forall k :: 0 <= k < |r| ==> r[k] < n
  {
    if n == 0 then []
    else
      var init := OutlierIndices(x, n - 1, z, iqrFactor, s);
      if Outlier(x[n - 1], z, iqrFactor, s) then init + [n - 1] else init
  }

  /** The outlier indices are strictly ascending, and an index is listed
      exactly when its value fails one of the tests. */
  lemma {:induction false} OutlierIndicesSpec(x: seq<real>, n: nat, z: Option<real>, iqrFactor: Option<real>, s: Stats)
    requires n <= |x|
    ensures var r := OutlierIndices(x, n, z, iqrFactor, s);
            StrictlyIncreasing(r) &&
            forall i :: 0 <= i < n ==> (i in r <==> Outlier(x[i], z, iqrFactor, s))
  {
    if n > 0 {
      OutlierIndicesSpec(x, n - 1, z, iqrFactor, s);
      var init := OutlierIndices(x, n - 1, z, iqrFactor, s);
      var last := Outlier(x[n - 1], z, iqrFactor, s);
      var r := OutlierIndices(x, n, z, iqrFactor, s);
      assert r == if last then init + [n - 1] else init;
      assert n - 1 !in init;
      if last {
        AppendAbove(init, n - 1);
      }
      forall i | 0 <= i < n
        ensures i in r <==> Outlier(x[i], z, iqrFactor, s)
      {
        if i < n - 1 {
          assert i in r <==> i in init;
        }
      }
    }
  }

  /** Appending an index above every listed one keeps the list ascending and
      adds exactly that index. */
  lemma AppendAbove(xs: seq<nat>, k: nat)
    requires StrictlyIncreasing(xs) && forall j :: 0 <= j < |xs| ==> xs[j] < k
    ensures StrictlyIncreasing(xs + [k])
    ensures forall i :: i in xs + [k] <==> i in xs || i == k
  {
  }

  /** `outlier_filter(x, z, iqr_factor, percentile_limit)`: the parameters
      are checked before the statistics are computed. */
  function Outliers(x: seq<real>, z: Option<real>, iqrFactor: Option<real>, percentileLimit: real,
                    stats: Result<Stats>): (r: Result<seq<nat>>)
    ensures !ValidFilterParams(z, iqrFactor, percentileLimit) ==> r == Err(ValueError)
    ensures ValidFilterParams(z, iqrFactor, percentileLimit) ==> (r.Err? <==> stats.Err?)
  {
    if !ValidFilterParams(z, iqrFactor, percentileLimit) then Err(ValueError)
    else if stats.Err? then Err(stats.error)
    else Ok(OutlierIndices(x, |x|, z, iqrFactor, stats.value))
  }

  /** Every index the filter returns is a position of `x`, each at most once
      and in ascending order, and it returns exactly the failing positions. */
  lemma OutliersSpec(x: seq<real>, z: Option<real>, iqrFactor: Option<real>, percentileLimit: real, stats: Result<Stats>)
    requires ValidFilterParams(z, iqrFactor, percentileLimit) && stats.Ok?
    ensures var r := Outliers(x, z, iqrFactor, percentileLimit, stats);
            r.Ok? && StrictlyIncreasing(r.value) && Distinct(r.value) &&
            (forall k :: 0 <= k < |r.value| ==> r.value[k] < |x|) &&
            (forall i :: 0 <= i < |x| ==> (i in r.value <==> Outlier(x[i], z, iqrFactor, stats.value)))
  {
    OutlierIndicesSpec(x, |x|, z, iqrFactor, stats.value);
  }

  /** With the deviation zero the distance test is skipped instead of
      dividing by zero. */
  lemma ZeroDeviationSkipsDistance(val: real, z: real, s: Stats)
    requires s.stdev == 0.0
    ensures Outlier(val, Some(z), None, s) <==> Outlier(val, None, None, s)
  {
  }

  method OutlierFilter(x: seq<real>, z: Option<real>, iqrFactor: Option<real>, percentileLimit: real,
                       stats: Result<Stats>) returns (r: Result<seq<nat>>)
    ensures r == Outliers(x, z, iqrFactor, percentileLimit, stats)
  {
    if !ValidFilterParams(z, iqrFactor, percentileLimit) {
      return Err(ValueError);
    }
    if stats.Err? {
      return Err(stats.error);
    }
    var s := stats.value;
    var indices: seq<nat> := [];
    for i := 0 to |x|
      invariant indices == OutlierIndices(x, i, z, iqrFactor, s)
    {
      if Outlier(x[i], z, iqrFactor, s) {
        indices := indices + [i];
      }
    }
    return Ok(indices);
  }

  // ---------------------------------------------------------------------
  // w2_normalisation

  /** The first peak in range, if any. */
  function FirstInRange(peaks: seq<real>, l: Option<real>, r: Option<real>): (k: Option<nat>)
    ensures k.Some? ==> k.value < |peaks| && InRange(peaks[k.value], l, r) &&
                        forall j :: 0 <= j < k.value ==> !InRange(peaks[j], l, r)
    ensures k.None? ==> forall j :: 0 <= j < |peaks| ==> !InRange(peaks[j], l, r)
  {
    if peaks == [] then None
    else if InRange(peaks[0], l, r) then Some(0)
    else
      match FirstInRange(peaks[1..], l, r)
      case None => None
      case Some(k) => Some(k + 1)
  }

  /** `lift / freq**2`. */
  function Normalised(lift: real, freq: real): real
    requires freq != 0.0
  {
    lift / (freq * freq)
  }

  /** What one frame contributes: `(t, lift / freq**2)` for its first peak in
      range, or nothing. Iterating a missing peak list raises TypeError, and
      a zero frequency ZeroDivisionError. */
  function Pick(f: FrameView, fl: Option<real>, fr: Option<real>): Result<Option<(real, real)>>
  {
    if f.peakFreq.None? then Err(TypeError)
    else
      var peaks := f.peakFreq.value;
      match FirstInRange(peaks, fl, fr)
      case None => Ok(None)
      case Some(k) =>
        var freq := peaks[k];
        if f.totalMass.Err? then Err(f.totalMass.error)
        else if freq == 0.0 then Err(ZeroDivisionError)
        else Ok(Some((f.t, Normalised(f.totalMass.value, freq))))
  }

  lemma PickAt(f: FrameView, fl: Option<real>, fr: Option<real>, k: nat)
    requires f.peakFreq.Some? && FirstInRange(f.peakFreq.value, fl, fr) == Some(k)
    requires f.totalMass.Ok? && f.peakFreq.value[k] != 0.0
    ensures Pick(f, fl, fr) == Ok(Some((f.t, Normalised(f.totalMass.value, f.peakFreq.value[k]))))
  {
  }

  /** The two lists the frame loop of `w2_normalisation` builds. */
  function Selection(frames: seq<FrameView>, fl: Option<real>, fr: Option<real>): (r: Result<(seq<real>, seq<real>)>)
    ensures r.Ok? ==> |r.value.0| == |r.value.1| <= |frames|
  {
    if frames == [] then Ok(([], []))
    else
      var init :- Selection(frames[..|frames| - 1], fl, fr);
      var p :- Pick(frames[|frames| - 1], fl, fr);
      if p.None? then Ok(init) else Ok((init.0 + [p.value.0], init.1 + [p.value.1]))
  }

  /** The number of frames with a peak in range. */
  function CountPicked(frames: seq<FrameView>, fl: Option<real>, fr: Option<real>): nat
  {
    if frames == [] then 0
    else
      var f := frames[|frames| - 1];
      CountPicked(frames[..|frames| - 1], fl, fr) +
        (if f.peakFreq.Some? && FirstInRange(f.peakFreq.value, fl, fr).Some? then 1 else 0)
  }

  /** One pair per frame with a peak in range and none for the others; every
      selected time is the time of a frame, in frame order. */
  lemma {:induction false} SelectionOnePerFrame(frames: seq<FrameView>, fl: Option<real>, fr: Option<real>)
    requires Selection(frames, fl, fr).Ok?
    ensures var r := Selection(frames, fl, fr).value;
            |r.0| == |r.1| == CountPicked(frames, fl, fr) &&
            forall k :: 0 <= k < |r.0| ==> exists i :: 0 <= i < |frames| && r.0[k] == frames[i].t
  {
    if frames != [] {
      var init := frames[..|frames| - 1];
      SelectionOnePerFrame(init, fl, fr);
      var r := Selection(frames, fl, fr).value;
      var ri := Selection(init, fl, fr).value;
      forall k | 0 <= k < |r.0|
        ensures exists i :: 0 <= i < |frames| && r.0[k] == frames[i].t
      {
        if k < |ri.0| {
          var i :| 0 <= i < |init| && ri.0[k] == init[i].t;
          assert frames[i] == init[i];
        } else {
          assert r.0[k] == frames[|frames| - 1].t;
        }
      }
    }
  }

  lemma {:induction false} SelectionErrPersists(frames: seq<FrameView>, j: nat, fl: Option<real>, fr: Option<real>)
    requires j <= |frames| && Selection(frames[..j], fl, fr).Err?
    ensures Selection(frames, fl, fr) == Selection(frames[..j], fl, fr)
  {
    if j < |frames| {
      assert frames[..|frames| - 1][..j] == frames[..j];
      SelectionErrPersists(frames[..|frames| - 1], j, fl, fr);
    } else {
      assert frames[..j] == frames;
    }
  }

  /** The body of the frame loop of `w2_normalisation`: the inner loop finds
      the first peak in range, and the pair is computed from it. */
  method PickPeak(frame: FrameView, fl: Option<real>, fr: Option<real>) returns (r: Result<Option<(real, real)>>)
    ensures r == Pick(frame, fl, fr)
  {
    if frame.peakFreq.None? {
      return Err(TypeError);
    }
    var peaks := frame.peakFreq.value;
    var j := 0;
    while j < |peaks| && !InRange(peaks[j], fl, fr)
      invariant j <= |peaks| && forall k :: 0 <= k < j ==> !InRange(peaks[k], fl, fr)
    {
      j := j + 1;
    }
    if j == |peaks| {
      assert FirstInRange(peaks, fl, fr) == None;
      return Ok(None);
    }
    assert FirstInRange(peaks, fl, fr) == Some(j);
    var freq := peaks[j];
    if frame.totalMass.Err? {
      return Err(frame.totalMass.error);
    }
    if freq == 0.0 {
      return Err(ZeroDivisionError);
    }
    PickAt(frame, fl, fr, j);
    return Ok(Some((frame.t, Normalised(frame.totalMass.value, freq))));
  }

  /** The frame loop of `w2_normalisation`. */
  method SelectPeaks(frames: seq<FrameView>, fl: Option<real>, fr: Option<real>) returns (r: Result<(seq<real>, seq<real>)>)
    ensures r == Selection(frames, fl, fr)
  {
    var normT: seq<real> := [];
    var normVal: seq<real> := [];
    for i := 0 to |frames|
      invariant Selection(frames[..i], fl, fr) == Ok((normT, normVal))
    {
      var frame := frames[i];
      assert frames[..i + 1][..i] == frames[..i] && frames[..i + 1][i] == frame;
      var p := PickPeak(frame, fl, fr);
      if p.Err? {
        assert Selection(frames[..i + 1], fl, fr) == Err(p.error);
        SelectionErrPersists(frames, i + 1, fl, fr);
        return Err(p.error);
      }
      if p.value.Some? {
        var (t, v) := p.value.value;
        assert Selection(frames[..i + 1], fl, fr) == Ok((normT + [t], normVal + [v]));
        normT := normT + [t];
        normVal := normVal + [v];
      } else {
        assert Selection(frames[..i + 1], fl, fr) == Ok((normT, normVal));
      }
    }
    assert frames[..|frames|] == frames;
    return Ok((normT, normVal));
  }

  /** `w2_normalisation(data, fl, fr)`: the selected pairs without the
      outliers of the values (z = 3, IQR factor 1.5, no percentile limit). */
  function W2Normalisation(frames: seq<FrameView>, fl: Option<real>, fr: Option<real>,
                           stats: seq<real> -> Result<Stats>): Result<(seq<real>, seq<real>)>
  {
    var sel :- Selection(frames, fl, fr);
    var outliers :- Outliers(sel.1, Some(3.0), Some(1.5), 0.0, stats(sel.1));
    Ok((RemoveByIndices(sel.0, outliers), RemoveByIndices(sel.1, outliers)))
  }

  /** The two results have equal length: the frames with a peak in range,
      less the outliers. */
  lemma W2NormalisationLengths(frames: seq<FrameView>, fl: Option<real>, fr: Option<real>,
                               stats: seq<real> -> Result<Stats>)
    requires W2Normalisation(frames, fl, fr, stats).Ok?
    ensures var sel := Selection(frames, fl, fr).value;
            var r := W2Normalisation(frames, fl, fr, stats).value;
            var outliers := Outliers(sel.1, Some(3.0), Some(1.5), 0.0, stats(sel.1)).value;
            |r.0| == |r.1| == CountPicked(frames, fl, fr) - |outliers|
  {
    var sel := Selection(frames, fl, fr).value;
    SelectionOnePerFrame(frames, fl, fr);
    var outliers := Outliers(sel.1, Some(3.0), Some(1.5), 0.0, stats(sel.1)).value;
    OutliersSpec(sel.1, Some(3.0), Some(1.5), 0.0, stats(sel.1));
    RemoveAscendingCount(sel.0, outliers);
    RemoveAscendingCount(sel.1, outliers);
  }

  // ---------------------------------------------------------------------
  // bin_by_w

  /** The first bin `i` whose open interval (endpoints[i], endpoints[i + 1])
      holds `freq`, searching from bin `from`. */
  function BinOf(freq: real, endpoints: seq<real>, from: nat): (k: Option<nat>)
    ensures k.Some? ==> from <= k.value && k.value + 1 < |endpoints| &&
                        InRange(freq, Some(endpoints[k.value]), Some(endpoints[k.value + 1])) &&
                        forall i :: from <= i < k.value ==> !InRange(freq, Some(endpoints[i]), Some(endpoints[i + 1]))
    ensures k.None? ==> forall i :: from <= i && i + 1 < |endpoints| ==> !InRange(freq, Some(endpoints[i]), Some(endpoints[i + 1]))
    decreases |endpoints| - from
  {
    if from + 1 >= |endpoints| then None
    else if InRange(freq, Some(endpoints[from]), Some(endpoints[from + 1])) then Some(from)
    else BinOf(freq, endpoints, from + 1)
  }

  predicate Sorted(endpoints: seq<real>)
  {
    forall i, j :: 0 <= i <= j < |endpoints| ==> endpoints[i] <= endpoints[j]
  }

  /** A peak exactly at an interior endpoint of sorted endpoints falls in no
      bin. */
  lemma InteriorEndpointUnbinned(endpoints: seq<real>, k: nat)
    requires Sorted(endpoints) && 0 < k < |endpoints| - 1
    ensures BinOf(endpoints[k], endpoints, 0).None?
  {
    forall i | 0 <= i && i + 1 < |endpoints|
      ensures !InRange(endpoints[k], Some(endpoints[i]), Some(endpoints[i + 1]))
    {
      if i < k {
        assert endpoints[i + 1] <= endpoints[k];
      } else {
        assert endpoints[k] <= endpoints[i];
      }
    }
  }

  /** Where one frame goes: its first peak in the whole range picks the bin;
      a peak in range but in no bin is consumed and binned nowhere. */
  function Place(f: FrameView, endpoints: seq<real>): (r: Result<Option<(nat, real)>>)
    requires |endpoints| >= 1
    ensures r.Ok? && r.value.Some? ==> r.value.value.0 + 1 < |endpoints|
  {
    if f.peakFreq.None? then Err(TypeError)
    else
      var peaks := f.peakFreq.value;
      match FirstInRange(peaks, Some(endpoints[0]), Some(endpoints[|endpoints| - 1]))
      case None => Ok(None)
      case Some(k) =>
        match BinOf(peaks[k], endpoints, 0)
        case None => Ok(None)
        case Some(i) => if f.totalMass.Err? then Err(f.totalMass.error) else Ok(Some((i, f.totalMass.value)))
  }

  /** The bins after the frame loop of `bin_by_w`. */
  function Bins(frames: seq<FrameView>, endpoints: seq<real>): (r: Result<seq<seq<real>>>)
    requires |endpoints| >= 1
    ensures r.Ok? ==> |r.value| == |endpoints| - 1
  {
    if frames == [] then Ok(NoBins(|endpoints| - 1))
    else
      var bins :- Bins(frames[..|frames| - 1], endpoints);
      var p :- Place(frames[|frames| - 1], endpoints);
      if p.None? then Ok(bins)
      else Ok(bins[p.value.0 := bins[p.value.0] + [p.value.1]])
  }

  /** `bin_by_w(data, endpoints)`: the record's height and one bin per pair
      of consecutive endpoints; no endpoints is an IndexError. */
  function BinByW(height: Json, frames: seq<FrameView>, endpoints: seq<real>): (r: Result<(Json, seq<seq<real>>)>)
    ensures endpoints == [] ==> r == Err(IndexError)
    ensures r.Ok? ==> r.value.0 == height && |r.value.1| + 1 == |endpoints|
  {
    if endpoints == [] then Err(IndexError)
    else
      var bins :- Bins(frames, endpoints);
      Ok((height, bins))
  }

  function TotalLen(bins: seq<seq<real>>): nat
  {
    if bins == [] then 0 else TotalLen(bins[..|bins| - 1]) + |bins[|bins| - 1]|
  }

  lemma {:induction false} TotalLenAppend(bins: seq<seq<real>>, i: nat, m: real)
    requires i < |bins|
    ensures TotalLen(bins[i := bins[i] + [m]]) == TotalLen(bins) + 1
  {
    var b := bins[i := bins[i] + [m]];
    assert b[..|b| - 1] == if i < |bins| - 1 then bins[..|bins| - 1][i := bins[i] + [m]] else bins[..|bins| - 1];
    if i < |bins| - 1 {
      TotalLenAppend(bins[..|bins| - 1], i, m);
    }
  }

  function NoBins(n: nat): (bins: seq<seq<real>>)
    ensures |bins| == n && forall i :: 0 <= i < n ==> bins[i] == []
  {
    seq(n, _ => [])
  }

  lemma {:induction false} TotalLenEmpty(n: nat)
    ensures TotalLen(NoBins(n)) == 0
  {
    if n > 0 {
      assert NoBins(n)[..n - 1] == NoBins(n - 1);
      TotalLenEmpty(n - 1);
    }
  }

  /** The number of frames `bin_by_w` places in a bin. */
  function CountPlaced(frames: seq<FrameView>, endpoints: seq<real>): nat
    requires |endpoints| >= 1
  {
    if frames == [] then 0
    else
      var p := Place(frames[|frames| - 1], endpoints);
      CountPlaced(frames[..|frames| - 1], endpoints) + (if p.Ok? && p.value.Some? then 1 else 0)
  }

  /** Each frame adds at most one mass: the bins together hold one value per
      placed frame. */
  lemma {:induction false} BinsOnePerFrame(frames: seq<FrameView>, endpoints: seq<real>)
    requires |endpoints| >= 1 && Bins(frames, endpoints).Ok?
    ensures TotalLen(Bins(frames, endpoints).value) == CountPlaced(frames, endpoints) <= |frames|
  {
    if frames == [] {
      TotalLenEmpty(|endpoints| - 1);
    } else {
      var init := frames[..|frames| - 1];
      BinsOnePerFrame(init, endpoints);
      var p := Place(frames[|frames| - 1], endpoints);
      if p.value.Some? {
        TotalLenAppend(Bins(init, endpoints).value, p.value.value.0, p.value.value.1);
      }
    }
  }

  lemma {:induction false} BinsErrPersists(frames: seq<FrameView>, j: nat, endpoints: seq<real>)
    requires |endpoints| >= 1 && j <= |frames| && Bins(frames[..j], endpoints).Err?
    ensures Bins(frames, endpoints) == Bins(frames[..j], endpoints)
  {
    if j < |frames| {
      assert frames[..|frames| - 1][..j] == frames[..j];
      BinsErrPersists(frames[..|frames| - 1], j, endpoints);
    } else {
      assert frames[..j] == frames;
    }
  }

  /** The body of the frame loop of `bin_by_w`: the first peak in the whole
      range, then the first bin holding it. */
  method PlaceFrame(frame: FrameView, endpoints: seq<real>) returns (r: Result<Option<(nat, real)>>)
    requires |endpoints| >= 1
    ensures r == Place(frame, endpoints)
  {
    if frame.peakFreq.None? {
      return Err(TypeError);
    }
    var fl := endpoints[0];
    var fr := endpoints[|endpoints| - 1];
    var peaks := frame.peakFreq.value;
    var j := 0;
    while j < |peaks| && !InRange(peaks[j], Some(fl), Some(fr))
      invariant j <= |peaks| && forall k :: 0 <= k < j ==> !InRange(peaks[k], Some(fl), Some(fr))
    {
      j := j + 1;
    }
    if j == |peaks| {
      return Ok(None);
    }
    assert FirstInRange(peaks, Some(fl), Some(fr)) == Some(j);
    var freq := peaks[j];
    var i := 0;
    while i < |endpoints| - 1 && !InRange(freq, Some(endpoints[i]), Some(endpoints[i + 1]))
      invariant i <= |endpoints| - 1
      invariant BinOf(freq, endpoints, 0) == BinOf(freq, endpoints, i)
    {
      i := i + 1;
    }
    if i == |endpoints| - 1 {
      return Ok(None);
    }
    if frame.totalMass.Err? {
      return Err(frame.totalMass.error);
    }
    return Ok(Some((i, frame.totalMass.value)));
  }

  method BinFrames(height: Json, frames: seq<FrameView>, endpoints: seq<real>) returns (r: Result<(Json, seq<seq<real>>)>)
    ensures r == BinByW(height, frames, endpoints)
  {
    if |endpoints| == 0 {
      return Err(IndexError);
    }
    var bins := NoBins(|endpoints| - 1);
    for n := 0 to |frames|
      invariant Bins(frames[..n], endpoints) == Ok(bins)
    {
      var f := frames[n];
      assert frames[..n + 1][..n] == frames[..n] && frames[..n + 1][n] == f;
      var p := PlaceFrame(f, endpoints);
      if p.Err? {
        assert Bins(frames[..n + 1], endpoints) == Err(p.error);
        BinsErrPersists(frames, n + 1, endpoints);
        return Err(p.error);
      }
      if p.value.Some? {
        var (i, mass) := p.value.value;
        assert Bins(frames[..n + 1], endpoints) == Ok(bins[i := bins[i] + [mass]]);
        bins := bins[i := bins[i] + [mass]];
      } else {
        assert Bins(frames[..n + 1], endpoints) == Ok(bins);
      }
    }
    assert frames[..|frames|] == frames;
    return Ok((height, bins));
  }
}
