/** Band smoothing (`apply_band_smoothing`, both trees): updates the
    persistent smoothed-band state from this frame's band magnitudes, then
    clamps every smoothed value to be non-negative. The band count is the
    length of `band_magnitudes`; the smoothed state is indexed alongside it.
    `band_magnitudes` is only read: every operation here returns the new
    smoothed state alone. */
module BandSmoothing {
  import opened Common
  import SC = ScramConfig
  import PC = ProcessConfig

  // ---------------------------------------------------------------------
  // Exponential smoothing

  /** The exponential recurrence, band by band: band `i` mixes its new
      magnitude with the already-updated band `i - 1`; band 0 mixes with
      band 0 of the previous frame (`first`), because `0.saturating_sub(1)`
      is 0. */
  function ExpRef(first: real, mags: seq<real>, f: real, i: nat): real
    requires i < |mags|
    decreases i
  {
    var prev := if i == 0 then first else ExpRef(first, mags, f, i - 1);
    f * mags[i] + (1.0 - f) * prev
  }

  /** The smoothed state after the exponential pass: the first `|mags|`
      entries follow the recurrence, the rest are untouched. */
  function ExpSmoothed(smoothed: seq<real>, mags: seq<real>, f: real): (r: seq<real>)
    requires |mags| <= |smoothed|
    ensures |r| == |smoothed|
  {
    seq(|smoothed|, j requires 0 <= j < |smoothed| =>
      if j < |mags| then ExpRef(smoothed[0], mags, f, j) else smoothed[j])
  }

  /** The exponential pass as the source writes it: one left-to-right loop
      over the smoothed buffer, updating it in place, so that each step reads
      the value the previous step has just written. */
  method ExponentialPass(smoothed: seq<real>, mags: seq<real>, factor: real) returns (out: seq<real>)
    requires |mags| <= |smoothed|
    ensures out == ExpSmoothed(smoothed, mags, factor)
  {
    out := smoothed;
    var i := 0;
    while i < |mags|
      invariant 0 <= i <= |mags|
      invariant |out| == |smoothed|
      invariant forall j :: 0 <= j < i ==> out[j] == ExpRef(smoothed[0], mags, factor, j)
      invariant forall j :: i <= j < |out| ==> out[j] == smoothed[j]
    {
      var scale := (1.0 - factor) * out[SaturatingSub(i, 1)];
      out := out[i := factor * mags[i] + scale];
      i := i + 1;
    }
  }

  /** A convex mix of two values in `[lo, hi]` stays in `[lo, hi]`. */
  lemma MixWithin(f: real, a: real, b: real, lo: real, hi: real)
    requires 0.0 <= f <= 1.0
    requires lo <= a <= hi && lo <= b <= hi
    ensures lo <= f * a + (1.0 - f) * b <= hi
  {
    var g := 1.0 - f;
    MulNonNegative(f, a - lo);
    MulNonNegative(g, b - lo);
    MulNonNegative(f, hi - a);
    MulNonNegative(g, hi - b);
    assert f * a + g * b - lo == f * (a - lo) + g * (b - lo);
    assert hi - (f * a + g * b) == f * (hi - a) + g * (hi - b);
  }

  lemma MulNonNegative(x: real, y: real)
    requires x >= 0.0 && y >= 0.0
    ensures x * y >= 0.0
  {
  }

  /** A quotient by a positive count of a sum between `c * lo` and `c * hi`
      lies between `lo` and `hi`. */
  lemma DivWithin(s: real, c: real, lo: real, hi: real)
    requires c > 0.0 && c * lo <= s <= c * hi
    ensures lo <= s / c <= hi
  {
    var q := s / c;
    assert q * c == s;
    assert (q - lo) * c == s - c * lo;
    assert (hi - q) * c == c * hi - s;
  }

  /** With a factor in `[0, 1]`, every exponentially smoothed band lies
      between the smallest and largest of its inputs: the previous band 0 and
      this frame's magnitudes. */
  lemma {:induction false} ExpWithinInputs(first: real, mags: seq<real>, f: real, i: nat, lo: real, hi: real)
    requires 0.0 <= f <= 1.0 && i < |mags|
    requires lo <= first <= hi
    requires forall j :: 0 <= j < |mags| ==> lo <= mags[j] <= hi
    ensures lo <= ExpRef(first, mags, f, i) <= hi
  {
    if i > 0 {
      ExpWithinInputs(first, mags, f, i - 1, lo, hi);
    }
    var prev := if i == 0 then first else ExpRef(first, mags, f, i - 1);
    MixWithin(f, mags[i], prev, lo, hi);
  }

  /** A flat spectrum equal to the previous band 0 is a fixed point. */
  lemma ExpFlatIsFixed(first: real, mags: seq<real>, f: real, i: nat)
    requires 0.0 <= f <= 1.0 && i < |mags|
    requires forall j :: 0 <= j < |mags| ==> mags[j] == first
    ensures ExpRef(first, mags, f, i) == first
  {
    ExpWithinInputs(first, mags, f, i, first, first);
  }

  /** Factor 1 disables smoothing: every band takes its new magnitude. */
  lemma ExpFactorOne(first: real, mags: seq<real>, i: nat)
    requires i < |mags|
    ensures ExpRef(first, mags, 1.0, i) == mags[i]
  {
  }

  /** Factor 0 ignores the new frame entirely, and the in-pass coupling then
      spreads the previous band 0 across every band. */
  lemma {:induction false} ExpFactorZero(first: real, mags: seq<real>, i: nat)
    requires i < |mags|
    ensures ExpRef(first, mags, 0.0, i) == first
  {
    if i > 0 {
      ExpFactorZero(first, mags, i - 1);
    }
  }

  // ---------------------------------------------------------------------
  // Moving average

  /** The first band of the window around band `i`:
      `i.saturating_sub(window / 2)`. */
  function WindowStart(i: nat, w: nat): nat { SaturatingSub(i, w / 2) }

  /** One past the last band of the window: `(i + window / 2 + 1).min(n)`. */
  function WindowEnd(i: nat, w: nat, n: nat): nat { MinInt(i + w / 2 + 1, n) }

  /** The mean of the bands in the window around `i`, or 0 for an empty
      window (the source computes `0 / 0 * 0` there, a NaN that the final
      `max(0.0)` turns into 0). */
  function WindowMean(mags: seq<real>, w: nat, i: nat): real
    requires WindowStart(i, w) <= WindowEnd(i, w, |mags|)
  {
    var start := WindowStart(i, w);
    var end := WindowEnd(i, w, |mags|);
    if end > start then Sum(mags[start..end]) / (end - start) as real else 0.0
  }

  /** The moving-average pass over a smoothed buffer of length `len`. Each
      slot `i` reads the window around band `i`; a slot so far past the last
      band that its window starts after it ends makes the slice panic. */
  function MovingAverage(len: nat, mags: seq<real>, w: nat): (r: Checked<seq<real>>)
    ensures r.Panic? <==> len > |mags| + w / 2 + 1
    ensures r.Ok? ==> |r.value| == len
    ensures r.Ok? ==> forall i :: 0 <= i < len ==>
              WindowStart(i, w) <= WindowEnd(i, w, |mags|) && r.value[i] == WindowMean(mags, w, i)
  {
    if len > |mags| + w / 2 + 1 then Panic
    else Ok(seq(len, i requires 0 <= i < len => WindowMean(mags, w, i)))
  }

  /** For a real band, the window contains that band, stays within the
      bands, and holds at most `2 * (window / 2) + 1` of them: an even window
      size covers one band more than it names. */
  lemma WindowAroundBand(i: nat, w: nat, n: nat)
    requires i < n
    ensures WindowStart(i, w) <= i < WindowEnd(i, w, n) <= n
    ensures WindowEnd(i, w, n) - WindowStart(i, w) <= 2 * (w / 2) + 1
  {
  }

  /** The moving average of a band lies between the smallest and largest
      magnitude. */
  lemma WindowMeanWithin(mags: seq<real>, w: nat, i: nat, lo: real, hi: real)
    requires i < |mags|
    requires forall j :: 0 <= j < |mags| ==> lo <= mags[j] <= hi
    ensures WindowStart(i, w) <= WindowEnd(i, w, |mags|)
    ensures lo <= WindowMean(mags, w, i) <= hi
  {
    WindowAroundBand(i, w, |mags|);
    var start, end := WindowStart(i, w), WindowEnd(i, w, |mags|);
    var window := mags[start..end];
    SumBounds(window, lo, hi);
    var c := (end - start) as real;
    assert c > 0.0;
    DivWithin(Sum(window), c, lo, hi);
  }

  /** A flat spectrum is a fixed point of the moving average. */
  lemma WindowMeanOfFlat(mags: seq<real>, w: nat, i: nat, c: real)
    requires i < |mags|
    requires forall j :: 0 <= j < |mags| ==> mags[j] == c
    ensures WindowStart(i, w) <= WindowEnd(i, w, |mags|)
    ensures WindowMean(mags, w, i) == c
  {
    WindowMeanWithin(mags, w, i, c, c);
  }

  /** A window of one band is the identity. */
  lemma WindowOfOne(mags: seq<real>, i: nat)
    requires i < |mags|
    ensures WindowStart(i, 1) <= WindowEnd(i, 1, |mags|)
    ensures WindowMean(mags, 1, i) == mags[i]
  {
    assert mags[i..i + 1] == [mags[i]];
    assert Sum([mags[i]]) == Sum([]) + mags[i];
  }

  // ---------------------------------------------------------------------
  // The entry points

  /** The final loop: `mag.max(0.0)` on every smoothed value. */
  function ClampNonNegative(s: seq<real>): (r: seq<real>)
    ensures |r| == |s|
    ensures AllNonNegative(r)
    ensures forall i :: 0 <= i < |s| && s[i] >= 0.0 ==> r[i] == s[i]
  {
    seq(|s|, i requires 0 <= i < |s| => Max(s[i], 0.0))
  }

  /** `apply_band_smoothing` of the newer tree. With no bands nothing
      changes, not even the clamp. `None` copies the magnitudes; the copy
      and the exponential loop index the smoothed buffer at every band, so a
      shorter buffer panics. */
  function ApplyBandSmoothing(smoothed: seq<real>, mags: seq<real>, config: SC.BandSmoothing): (r: Checked<seq<real>>)
    ensures |mags| == 0 ==> r == Ok(smoothed)
    ensures r.Panic? <==>
              |mags| > 0 &&
              (if config.MovingAverage? then |smoothed| > |mags| + MaxInt(config.windowSize, 1) / 2 + 1
               else |smoothed| < |mags|)
    ensures r.Ok? ==> |r.value| == |smoothed|
    ensures r.Ok? && |mags| > 0 ==> AllNonNegative(r.value)
  {
    var n := |mags|;
    if n == 0 then Ok(smoothed)
    else
      match config
      case NoSmoothing =>
        if |smoothed| < n then Panic else Ok(ClampNonNegative(mags + smoothed[n..]))
      case Exponential(factor) =>
        if |smoothed| < n then Panic else Ok(ClampNonNegative(ExpSmoothed(smoothed, mags, Clamp(factor, 0.0, 1.0))))
      case MovingAverage(windowSize) =>
        match MovingAverage(|smoothed|, mags, MaxInt(windowSize, 1))
        case Panic => Panic
        case Ok(averaged) => Ok(ClampNonNegative(averaged))
  }

  /** `f32::round`: halves round away from zero. */
  function Round(x: real): (r: int)
    ensures x - 0.5 <= r as real <= x + 0.5
    ensures x >= 0.0 ==> r >= 0
  {
    if x >= 0.0 then Floor(x + 0.5) else -Floor(-x + 0.5)
  }

  /** The older tree's window: `window_size.max(1.0).round() as usize`. */
  function RoundedWindow(windowSize: real): (w: nat)
    ensures w >= 1
    ensures windowSize >= 1.0 ==> windowSize - 0.5 <= w as real <= windowSize + 0.5
  {
    Round(Max(windowSize, 1.0))
  }

  /** `apply_band_smoothing` of the older tree: no `None` variant and an
      `f32` window that is rounded to a band count. */
  function ApplyBandSmoothingProcess(smoothed: seq<real>, mags: seq<real>, config: PC.BandSmoothing): (r: Checked<seq<real>>)
    ensures |mags| == 0 ==> r == Ok(smoothed)
    ensures r.Panic? <==>
              |mags| > 0 &&
              (if config.MovingAverage? then |smoothed| > |mags| + RoundedWindow(config.windowSize) / 2 + 1
               else |smoothed| < |mags|)
    ensures r.Ok? ==> |r.value| == |smoothed|
    ensures r.Ok? && |mags| > 0 ==> AllNonNegative(r.value)
  {
    var n := |mags|;
    if n == 0 then Ok(smoothed)
    else
      match config
      case Exponential(factor) =>
        if |smoothed| < n then Panic else Ok(ClampNonNegative(ExpSmoothed(smoothed, mags, Clamp(factor, 0.0, 1.0))))
      case MovingAverage(windowSize) =>
        match MovingAverage(|smoothed|, mags, RoundedWindow(windowSize))
        case Panic => Panic
        case Ok(averaged) => Ok(ClampNonNegative(averaged))
  }

  /** `None` copies every band's magnitude, clamped, and clamps the slots
      past the last band in place. */
  lemma NoSmoothingCopies(smoothed: seq<real>, mags: seq<real>)
    requires 0 < |mags| <= |smoothed|
    ensures ApplyBandSmoothing(smoothed, mags, SC.NoSmoothing).Ok?
    ensures var r := ApplyBandSmoothing(smoothed, mags, SC.NoSmoothing).value;
            (forall i :: 0 <= i < |mags| ==> r[i] == Max(mags[i], 0.0)) &&
            (forall i :: |mags| <= i < |smoothed| ==> r[i] == Max(smoothed[i], 0.0))
  {
  }

  /** A flat, non-negative spectrum passes through every smoothing mode
      unchanged (for the exponential mode, once the previous band 0 already
      holds that level). */
  lemma FlatSpectrumIsFixed(smoothed: seq<real>, mags: seq<real>, config: SC.BandSmoothing, c: real)
    requires 0 < |mags| == |smoothed| && c >= 0.0
    requires forall j :: 0 <= j < |mags| ==> mags[j] == c
    requires config.Exponential? ==> smoothed[0] == c
    ensures ApplyBandSmoothing(smoothed, mags, config).Ok?
    ensures forall i :: 0 <= i < |mags| ==> ApplyBandSmoothing(smoothed, mags, config).value[i] == c
  {
    var r := ApplyBandSmoothing(smoothed, mags, config).value;
    match config {
      case NoSmoothing =>
      case Exponential(factor) =>
        var f := Clamp(factor, 0.0, 1.0);
        forall i | 0 <= i < |mags|
          ensures r[i] == c
        {
          ExpFlatIsFixed(smoothed[0], mags, f, i);
        }
      case MovingAverage(windowSize) =>
        var w := MaxInt(windowSize, 1);
        forall i | 0 <= i < |mags|
          ensures r[i] == c
        {
          WindowMeanOfFlat(mags, w, i, c);
        }
    }
  }

  /** The rounded window of a whole number of bands is that number. */
  lemma RoundedWholeWindow(k: nat)
    requires k >= 1
    ensures RoundedWindow(k as real) == k
  {
    assert (k as real + 0.5).Floor == k;
  }

  /** The two trees agree: the older tree's exponential mode is the newer
      one's, and its moving average is the newer one's at the rounded
      window. */
  lemma TreesAgree(smoothed: seq<real>, mags: seq<real>, config: PC.BandSmoothing)
    ensures ApplyBandSmoothingProcess(smoothed, mags, config) ==
            ApplyBandSmoothing(smoothed, mags,
              match config
              case Exponential(f) => SC.Exponential(f)
              case MovingAverage(ws) => SC.MovingAverage(RoundedWindow(ws)))
  {
  }
}
