/** Volume scaling (`apply_scaling`, both trees): maps each smoothed band to
    a display level in `[0, 1]` and writes it over the band magnitudes,
    pairing the two sequences with `zip`, so only the shorter length is
    written. `log10` is a parameter. */
module Scaling {
  import opened Common
  import opened Transcendentals
  import SC = ScramConfig

  // ---------------------------------------------------------------------
  // Logarithmic

  /** The decibel floor, and the level that maps to the top of the range. */
  const MIN_DB: real := -60.0
  const MAX_DB: real := 0.0

  /** `20 * log10(s / 1.0)` for a positive smoothed value, the floor
      otherwise. */
  function Decibels(log10: real -> real, s: real): real
  {
    if s > 0.0 then 20.0 * log10(s / 1.0) else MIN_DB
  }

  /** One band on the logarithmic scale: `[-60, 0]` dB mapped linearly onto
      `[0, 1]` and clamped. */
  function LogLevel(log10: real -> real, s: real): (r: real)
    ensures 0.0 <= r <= 1.0
    ensures s <= 0.0 ==> r == 0.0
  {
    Clamp((Decibels(log10, s) - MIN_DB) / (MAX_DB - MIN_DB), 0.0, 1.0)
  }

  /** At or above the reference level 1.0 the output is full scale (given
      that `log10` is non-negative from 1 up). */
  lemma LogLevelSaturates(log10: real -> real, s: real)
    requires s >= 1.0 && log10(s) >= 0.0
    ensures LogLevel(log10, s) == 1.0
  {
    assert s / 1.0 == s;
    assert Decibels(log10, s) >= 0.0;
  }

  /** A louder band never shows lower (given that `log10` grows on the
      positive reals). */
  lemma LogLevelMonotone(log10: real -> real, s: real, t: real)
    requires s <= t
    requires IncreasingOnPositives(log10)
    ensures LogLevel(log10, s) <= LogLevel(log10, t)
  {
    if s > 0.0 {
      assert s / 1.0 == s && t / 1.0 == t;
      assert s == t || log10(s) < log10(t);
      assert Decibels(log10, s) <= Decibels(log10, t);
    }
  }

  /** The `zip` loop: entry `i` below the shorter length is `level(smoothed[i])`,
      later magnitudes are left alone. */
  function ZipWrite(smoothed: seq<real>, mags: seq<real>, level: real -> real): (r: seq<real>)
    ensures |r| == |mags|
    ensures forall i :: 0 <= i < |mags| && i < |smoothed| ==> r[i] == level(smoothed[i])
    ensures forall i :: |smoothed| <= i < |mags| ==> r[i] == mags[i]
  {
    seq(|mags|, i requires 0 <= i < |mags| => if i < |smoothed| then level(smoothed[i]) else mags[i])
  }

  /** `apply_scaling` of the older tree: logarithmic is the only mode. */
  function ApplyLogScaling(smoothed: seq<real>, mags: seq<real>, log10: real -> real): (r: seq<real>)
    ensures |r| == |mags|
    ensures forall i :: 0 <= i < |mags| && i < |smoothed| ==> 0.0 <= r[i] <= 1.0
    ensures forall i :: 0 <= i < |mags| && i < |smoothed| && smoothed[i] <= 0.0 ==> r[i] == 0.0
    ensures forall i :: |smoothed| <= i < |mags| ==> r[i] == mags[i]
  {
    ZipWrite(smoothed, mags, s => LogLevel(log10, s))
  }

  // ---------------------------------------------------------------------
  // Linear

  /** `f32::MIN`, the start of the fold for the largest smoothed value. */
  const F32_MIN: real := -340282346638528859811704183484516925440.0

  /** `iter().fold(f32::MIN, |a, &c| a.max(c))`. */
  function Largest(s: seq<real>): (r: real)
    ensures forall i :: 0 <= i < |s| ==> s[i] <= r
    ensures F32_MIN <= r
    ensures |s| == 0 ==> r == F32_MIN
    ensures r == F32_MIN || r in s
  {
    if |s| == 0 then F32_MIN else Max(Largest(s[..|s| - 1]), s[|s| - 1])
  }

  /** The linear divisor: twice the largest value clamped into `[0, 1]`. */
  function LinearDivisor(smoothed: seq<real>): (d: real)
    ensures 0.0 <= d <= 2.0
  {
    2.0 * Clamp(Largest(smoothed), 0.0, 1.0)
  }

  /** One band on the linear scale as written, where a zero divisor is
      possible: `None` stands for the NaN that `0.0 / 0.0` produces (a
      negative value over zero is `-inf`, which the clamp turns into 0). */
  function LinearLevelAsWritten(s: real, divisor: real): (r: Option<real>)
    ensures divisor != 0.0 ==> r.Some? && 0.0 <= r.value <= 1.0
  {
    if divisor != 0.0 then Some(Clamp(s / divisor, 0.0, 1.0))
    else if s == 0.0 then None
    else if s < 0.0 then Some(0.0)
    else Some(1.0)
  }

  /** The linear mode as written: with a non-zero divisor every written
      level is a level in `[0, 1]`; with a zero divisor exactly the zero
      inputs become NaN. Entries past the smoothed length are untouched. */
  function ApplyLinearAsWritten(smoothed: seq<real>, mags: seq<real>): (r: seq<Option<real>>)
    ensures |r| == |mags|
    ensures forall i :: |smoothed| <= i < |mags| ==> r[i] == Some(mags[i])
    ensures LinearDivisor(smoothed) != 0.0 ==>
              forall i :: 0 <= i < |mags| && i < |smoothed| ==> r[i].Some? && 0.0 <= r[i].value <= 1.0
    ensures forall i :: 0 <= i < |mags| && i < |smoothed| ==>
              (r[i].None? <==> LinearDivisor(smoothed) == 0.0 && smoothed[i] == 0.0)
  {
    var d := LinearDivisor(smoothed);
    seq(|mags|, i requires 0 <= i < |mags| =>
      if i < |smoothed| then LinearLevelAsWritten(smoothed[i], d) else Some(mags[i]))
  }

  /** Silence: once the smoothed state is all zeros the divisor is zero and
      every band that is written becomes NaN. */
  lemma {:induction false} SilenceIsNaN(smoothed: seq<real>, mags: seq<real>)
    requires |smoothed| > 0
    requires forall i :: 0 <= i < |smoothed| ==> smoothed[i] == 0.0
    ensures forall i :: 0 <= i < |mags| && i < |smoothed| ==> ApplyLinearAsWritten(smoothed, mags)[i] == None
  {
    LargestOfZeros(smoothed);
  }

  lemma {:induction false} LargestOfZeros(s: seq<real>)
    requires |s| > 0
    requires forall i :: 0 <= i < |s| ==> s[i] == 0.0
    ensures Largest(s) == 0.0
  {
    if |s| > 1 {
      LargestOfZeros(s[..|s| - 1]);
    }
  }

  /** One band on the linear scale, with the silent case mapped to 0. */
  function LinearLevel(s: real, divisor: real): (r: real)
    ensures 0.0 <= r <= 1.0
    ensures divisor != 0.0 ==> Some(r) == LinearLevelAsWritten(s, divisor)
  {
    if divisor == 0.0 then 0.0 else Clamp(s / divisor, 0.0, 1.0)
  }

  /** The linear mode with the silent case mapped to 0. */
  function ApplyLinearScaling(smoothed: seq<real>, mags: seq<real>): (r: seq<real>)
    ensures |r| == |mags|
    ensures forall i :: 0 <= i < |mags| && i < |smoothed| ==> 0.0 <= r[i] <= 1.0
    ensures forall i :: |smoothed| <= i < |mags| ==> r[i] == mags[i]
  {
    var d := LinearDivisor(smoothed);
    ZipWrite(smoothed, mags, s => LinearLevel(s, d))
  }

  /** Silence scales to silence. */
  lemma SilenceIsZero(smoothed: seq<real>, mags: seq<real>)
    requires |smoothed| > 0
    requires forall i :: 0 <= i < |smoothed| ==> smoothed[i] == 0.0
    ensures forall i :: 0 <= i < |mags| && i < |smoothed| ==> ApplyLinearScaling(smoothed, mags)[i] == 0.0
  {
    LargestOfZeros(smoothed);
  }

  /** With non-negative inputs whose largest value `m` lies in `(0, 1]`,
      the largest band shows at exactly one half and every band at most one
      half: the divisor is `2m`. */
  lemma LinearHalfScale(smoothed: seq<real>, mags: seq<real>)
    requires |smoothed| <= |mags|
    requires AllNonNegative(smoothed)
    requires 0.0 < Largest(smoothed) <= 1.0
    ensures forall i :: 0 <= i < |smoothed| ==> 0.0 <= ApplyLinearScaling(smoothed, mags)[i] <= 0.5
    ensures exists i :: 0 <= i < |smoothed| && ApplyLinearScaling(smoothed, mags)[i] == 0.5
  {
    var m := Largest(smoothed);
    var d := LinearDivisor(smoothed);
    assert d == 2.0 * m;
    var r := ApplyLinearScaling(smoothed, mags);
    forall i | 0 <= i < |smoothed|
      ensures 0.0 <= r[i] <= 0.5
    {
      assert 0.0 <= smoothed[i];
      assert smoothed[i] <= m;
      LevelBelowHalf(smoothed[i], m, d);
      assert r[i] == LinearLevel(smoothed[i], d);
    }
    assert m in smoothed;
    var k :| 0 <= k < |smoothed| && smoothed[k] == m;
    assert r[k] == LinearLevel(m, d);
    LevelBelowHalf(m, m, d);
  }

  lemma LevelBelowHalf(s: real, m: real, d: real)
    requires 0.0 <= s <= m && 0.0 < m && d == 2.0 * m
    ensures 0.0 <= LinearLevel(s, d) <= 0.5
    ensures s == m ==> LinearLevel(s, d) == 0.5
  {
    assert s / d <= m / d;
    assert m / d == 0.5;
  }

  /** `apply_scaling` of the newer tree. */
  function ApplyScaling(smoothed: seq<real>, mags: seq<real>, scale: SC.VolumeScale, log10: real -> real): (r: seq<real>)
    ensures |r| == |mags|
    ensures forall i :: 0 <= i < |mags| && i < |smoothed| ==> 0.0 <= r[i] <= 1.0
    ensures forall i :: |smoothed| <= i < |mags| ==> r[i] == mags[i]
  {
    match scale
    case LinearVolume => ApplyLinearScaling(smoothed, mags)
    case Logarithimic => ApplyLogScaling(smoothed, mags, log10)
  }

  /** `apply_scaling` of the newer tree as written: `None` marks a NaN
      level. It agrees with the corrected `ApplyScaling` everywhere except
      on the zero inputs of a linear frame whose divisor is zero. */
  function ApplyScalingAsWritten(smoothed: seq<real>, mags: seq<real>, scale: SC.VolumeScale,
                                 log10: real -> real): (r: seq<Option<real>>)
    ensures |r| == |mags|
    ensures forall i :: 0 <= i < |mags| ==>
              (r[i].None? <==>
                scale == SC.LinearVolume && i < |smoothed| && LinearDivisor(smoothed) == 0.0 && smoothed[i] == 0.0)
    ensures forall i :: 0 <= i < |mags| && r[i].Some? ==> r[i].value == ApplyScaling(smoothed, mags, scale, log10)[i]
  {
    match scale
    case LinearVolume => ApplyLinearAsWritten(smoothed, mags)
    case Logarithimic =>
      var levels := ApplyLogScaling(smoothed, mags, log10);
      seq(|mags|, i requires 0 <= i < |mags| => Some(levels[i]))
  }
}
