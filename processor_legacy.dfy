/** The outlier filter of the legacy src/processor.py. Its other helpers
    (`in_range`, `remove_by_indices`, `w2_normalisation`, `bin_by_w`) are the
    same code as in src/lib/processor.py and are modelled in Processor; this
    filter differs in that its distance test divides by the standard
    deviation without checking it for zero. */
module ProcessorLegacy {
  import opened Py
  import opened Processor

  /** The legacy loop over the first `n` values, as written: with `z` given,
      `abs(val - mean) / stdev` raises ZeroDivisionError when the deviation
      is zero. */
  function LegacyIndicesAsWritten(x: seq<real>, n: nat, z: Option<real>, iqrFactor: Option<real>, s: Stats): Result<seq<nat>>
    requires n <= |x|
  {
    if n == 0 then Ok([])
    else
      var init :- LegacyIndicesAsWritten(x, n - 1, z, iqrFactor, s);
      var val := x[n - 1];
      if z.Some? && s.stdev == 0.0 then Err(ZeroDivisionError)
      else if (z.Some? && Abs(val - s.mean) / s.stdev > z.value) ||
              (iqrFactor.Some? && (val > s.q3 + iqrFactor.value * (s.q3 - s.q1) || val < s.q1 - iqrFactor.value * (s.q3 - s.q1))) ||
              val > s.high || val < s.low
      then Ok(init + [n - 1])
      else Ok(init)
  }

  /** `outlier_filter` of src/processor.py, as written. */
  function LegacyOutliersAsWritten(x: seq<real>, z: Option<real>, iqrFactor: Option<real>, percentileLimit: real,
                                   stats: Result<Stats>): (r: Result<seq<nat>>)
    ensures !ValidFilterParams(z, iqrFactor, percentileLimit) ==> r == Err(ValueError)
  {
    if !ValidFilterParams(z, iqrFactor, percentileLimit) then Err(ValueError)
    else if stats.Err? then Err(stats.error)
    else LegacyIndicesAsWritten(x, |x|, z, iqrFactor, stats.value)
  }

  /** Whenever the deviation is non-zero (or no `z` is given) the legacy
      loop returns exactly the indices of the guarded one. */
  lemma {:induction false} LegacyIndicesAgree(x: seq<real>, n: nat, z: Option<real>, iqrFactor: Option<real>, s: Stats)
    requires n <= |x| && (z.None? || s.stdev != 0.0)
    ensures LegacyIndicesAsWritten(x, n, z, iqrFactor, s) == Ok(OutlierIndices(x, n, z, iqrFactor, s))
  {
    if n > 0 {
      LegacyIndicesAgree(x, n - 1, z, iqrFactor, s);
    }
  }

  lemma LegacyOutliersAgree(x: seq<real>, z: Option<real>, iqrFactor: Option<real>, percentileLimit: real,
                            stats: Result<Stats>)
    requires stats.Ok? ==> z.None? || stats.value.stdev != 0.0
    ensures LegacyOutliersAsWritten(x, z, iqrFactor, percentileLimit, stats) == Outliers(x, z, iqrFactor, percentileLimit, stats)
  {
    if stats.Ok? {
      LegacyIndicesAgree(x, |x|, z, iqrFactor, stats.value);
    }
  }

  /** With a `z` given and a zero deviation (every value equal), any
      non-empty list makes the legacy filter raise. */
  lemma {:induction false} LegacyZeroDeviationRaises(x: seq<real>, n: nat, z: real, iqrFactor: Option<real>, s: Stats)
    requires 0 < n <= |x| && s.stdev == 0.0
    ensures LegacyIndicesAsWritten(x, n, Some(z), iqrFactor, s) == Err(ZeroDivisionError)
  {
    if n > 1 {
      LegacyZeroDeviationRaises(x, n - 1, z, iqrFactor, s);
    }
  }

  /** The call `w2_normalisation` makes, on two equal values: the legacy
      filter raises, the guarded one finds no outlier. */
  lemma ConstantValuesExample(v: real)
    ensures var stats := Ok(Stats(v, 0.0, v, v, v, v));
            LegacyOutliersAsWritten([v, v], Some(3.0), Some(1.5), 0.0, stats) == Err(ZeroDivisionError) &&
            Outliers([v, v], Some(3.0), Some(1.5), 0.0, stats) == Ok([])
  {
    LegacyZeroDeviationRaises([v, v], 2, 3.0, Some(1.5), Stats(v, 0.0, v, v, v, v));
    var s := Stats(v, 0.0, v, v, v, v);
    assert !Outlier(v, Some(3.0), Some(1.5), s);
    assert OutlierIndices([v, v], 1, Some(3.0), Some(1.5), s) == [];
  }
}
