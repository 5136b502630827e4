/** `Numerical.sort_peaks` (src/lib/utils.py:560-564, src/utils.py:513-517):
    the spectral peaks found in a recording, reordered strongest first.
    The FFT and the peak finder themselves are not part of this model. */
module Numerical {
  import opened Py

  /** One element of `zip(peak_y, peak_x)`: amplitude first, then frequency. */
  datatype Peak = Peak(y: real, x: real)

  /** `a` may come before `b` in `sorted(..., reverse = True)`: tuples compare
      by amplitude, then by frequency. */
  predicate Before(a: Peak, b: Peak)
  {
    a.y > b.y || (a.y == b.y && a.x >= b.x)
  }

  predicate Descending(ps: seq<Peak>)
  {
    forall i, j :: 0 <= i < j < |ps| ==> Before(ps[i], ps[j])
  }

  /** `zip(peak_y, peak_x)`: stops at the shorter list. */
  function Zip(xs: seq<real>, ys: seq<real>): (ps: seq<Peak>)
    ensures |ps| == Min(|xs|, |ys|)
    ensures forall i :: 0 <= i < |ps| ==> ps[i] == Peak(ys[i], xs[i])
  {
    seq(Min(|xs|, |ys|), i requires 0 <= i < Min(|xs|, |ys|) => Peak(ys[i], xs[i]))
  }

  /** Inserts `p` into a descending sequence. */
  function InsertPeak(p: Peak, ps: seq<Peak>): (r: seq<Peak>)
    ensures multiset(r) == multiset(ps) + multiset{p} && |r| == |ps| + 1
  {
    if ps == [] || Before(p, ps[0]) then [p] + ps
    else
      assert ps == [ps[0]] + ps[1..];
      [ps[0]] + InsertPeak(p, ps[1..])
  }

  lemma {:induction false} InsertPeakDescending(p: Peak, ps: seq<Peak>)
    requires Descending(ps)
    ensures Descending(InsertPeak(p, ps))
  {
    if ps != [] && !Before(p, ps[0]) {
      InsertPeakDescending(p, ps[1..]);
      var t := InsertPeak(p, ps[1..]);
      assert ps == [ps[0]] + ps[1..];
      forall k | 0 <= k < |t|
        ensures Before(ps[0], t[k])
      {
        assert t[k] in multiset(t);
        if t[k] != p {
          assert t[k] in multiset(ps[1..]);
          var j :| 0 <= j < |ps[1..]| && ps[1..][j] == t[k];
          assert ps[j + 1] == t[k];
        }
      }
    }
  }

  /** `sorted(ps, reverse = True)`. */
  function SortDescending(ps: seq<Peak>): (r: seq<Peak>)
    ensures multiset(r) == multiset(ps) && |r| == |ps|
  {
    if ps == [] then []
    else
      var init := ps[..|ps| - 1];
      assert ps == init + [ps[|ps| - 1]];
      InsertPeak(ps[|ps| - 1], SortDescending(init))
  }

  lemma {:induction false} SortDescendingSorted(ps: seq<Peak>)
    ensures Descending(SortDescending(ps))
  {
    if ps != [] {
      SortDescendingSorted(ps[..|ps| - 1]);
      InsertPeakDescending(ps[|ps| - 1], SortDescending(ps[..|ps| - 1]));
    }
  }

  /** `sort_peaks(peak_x, peak_y)`: the frequencies and the amplitudes of the
      sorted pairs. */
  function SortPeaks(xs: seq<real>, ys: seq<real>): (r: (seq<real>, seq<real>))
    ensures |r.0| == |r.1| == Min(|xs|, |ys|)
  {
    var sorted := SortDescending(Zip(xs, ys));
    (seq(|sorted|, i requires 0 <= i < |sorted| => sorted[i].x),
     seq(|sorted|, i requires 0 <= i < |sorted| => sorted[i].y))
  }

  /** The result pairs up again into a rearrangement of the input pairs
      (both lists keep the input length when the inputs have equal length),
      ordered by amplitude descending, ties broken by frequency descending. */
  lemma SortPeaksSpec(xs: seq<real>, ys: seq<real>)
    ensures var (sx, sy) := SortPeaks(xs, ys);
            multiset(Zip(sx, sy)) == multiset(Zip(xs, ys)) &&
            (|xs| == |ys| ==> |sx| == |xs| && |sy| == |ys|) &&
            forall i, j :: 0 <= i < j < |sx| ==> sy[i] > sy[j] || (sy[i] == sy[j] && sx[i] >= sx[j])
  {
    var sorted := SortDescending(Zip(xs, ys));
    SortDescendingSorted(Zip(xs, ys));
    var (sx, sy) := SortPeaks(xs, ys);
    assert Zip(sx, sy) == sorted;
    forall i, j | 0 <= i < j < |sx|
      ensures sy[i] > sy[j] || (sy[i] == sy[j] && sx[i] >= sx[j])
    {
      assert Before(sorted[i], sorted[j]);
    }
  }
}
