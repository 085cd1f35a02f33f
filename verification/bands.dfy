/** Band aggregation (`aggregate_bands`): folds the magnitude bins of one
    channel into `num_bands` bands whose edges come from one of four
    frequency scales. Each band sums the bins between its floored start and
    ceiled end and divides by the total bin count. */
module Bands {
  import opened Common
  import opened Transcendentals
  import PC = ProcessConfig

  /** The per-call constants `aggregate_bands` hands to every scale. */
  datatype Opts = Opts(numBins: nat, numBands: nat, minFreq: real, maxFreq: real, hzPer: real)

  /** What the edge formulas need to be defined over exact reals: a positive
      bin width and at least one band (the band count divides in every scale
      but the linear one). */
  predicate ValidOpts(o: Opts)
  {
    o.hzPer > 0.0 && o.numBands >= 1
  }

  /** The logarithmic scale also divides by the low cutoff. */
  predicate EdgesDefined(scale: PC.Banding, o: Opts)
  {
    ValidOpts(o) && (scale == PC.Logarithmic ==> o.minFreq != 0.0)
  }

  /** Hertz per magnitude bin: the Nyquist frequency over `num_bins - 1`. */
  function HzPer(sampleRate: nat, numBins: nat): (r: real)
    requires numBins >= 2
    ensures sampleRate > 0 ==> r > 0.0
    ensures r * (numBins - 1) as real == sampleRate as real / 2.0
  {
    (sampleRate as real / 2.0) / (numBins - 1) as real
  }

  // ---------------------------------------------------------------------
  // apply_sample

  /** `(start_hz.floor() as usize).max(1).min(total)`. */
  function BinStart(startHz: real, total: nat): nat
  {
    MinInt(MaxInt(CastUsize(Floor(startHz)), 1), total)
  }

  /** `(end_hz.ceil() as usize).min(total)`. */
  function BinEnd(endHz: real, total: nat): nat
  {
    MinInt(CastUsize(Ceil(endHz)), total)
  }

  /** `apply_sample`: the sum of bins `[start, end)` over the total bin
      count, or 0 for an empty range. An end below the start makes the
      `usize` subtraction and the slice panic. */
  function ApplySample(mags: seq<real>, startHz: real, endHz: real): (r: Checked<real>)
    requires |mags| > 0
    ensures r.Panic? <==> BinEnd(endHz, |mags|) < BinStart(startHz, |mags|)
    ensures r.Ok? ==>
              r.value * |mags| as real == Sum(mags[BinStart(startHz, |mags|)..BinEnd(endHz, |mags|)])
    ensures r.Ok? && BinStart(startHz, |mags|) == BinEnd(endHz, |mags|) ==> r.value == 0.0
  {
    var total := |mags|;
    var start := BinStart(startHz, total);
    var end := BinEnd(endHz, total);
    if end < start then Panic
    else if end > start then Ok(Sum(mags[start..end]) / total as real)
    else Ok(0.0)
  }

  /** The DC bin never contributes: a band's value does not depend on
      `mags[0]`. */
  lemma ApplySampleIgnoresDc(mags: seq<real>, startHz: real, endHz: real, v: real)
    requires |mags| > 0
    ensures ApplySample(mags[0 := v], startHz, endHz) == ApplySample(mags, startHz, endHz)
  {
    var start := BinStart(startHz, |mags|);
    var end := BinEnd(endHz, |mags|);
    if start < end {
      assert start >= 1;
      assert mags[0 := v][start..end] == mags[start..end];
    }
  }

  /** Non-negative bins give a non-negative band. */
  lemma ApplySampleNonNegative(mags: seq<real>, startHz: real, endHz: real)
    requires |mags| > 0 && AllNonNegative(mags)
    ensures ApplySample(mags, startHz, endHz).Ok? ==> ApplySample(mags, startHz, endHz).value >= 0.0
  {
    var start := BinStart(startHz, |mags|);
    var end := BinEnd(endHz, |mags|);
    if start < end {
      SumNonNegative(mags[start..end]);
    }
  }

  /** Edges in order with a positive end never panic. */
  lemma ApplySampleOkWhenOrdered(mags: seq<real>, startHz: real, endHz: real)
    requires |mags| > 0
    requires startHz <= endHz && endHz > 0.0
    ensures ApplySample(mags, startHz, endHz).Ok?
  {
    assert Floor(startHz) <= Ceil(endHz);
    assert Ceil(endHz) >= 1;
  }

  // ---------------------------------------------------------------------
  // Scale conversions and band edges

  function HzToMel(m: Functions, hz: real): real { 2595.0 * m.log10(1.0 + hz / 700.0) }

  function MelToHz(m: Functions, mel: real): real { 700.0 * (m.powf(10.0, mel / 2595.0) - 1.0) }

  function HzToBark(m: Functions, hz: real): real
  {
    7.0 * Asinh(m, hz / 600.0)
  }

  function BarkToHz(m: Functions, bark: real): real { 600.0 * m.sinh(bark / 7.0) }

  /** The ratio between consecutive logarithmic edges:
      `(max / min)^(1 / num_bands)`. */
  function LogBase(m: Functions, o: Opts): real
    requires ValidOpts(o) && o.minFreq != 0.0
  {
    Root(m, o.maxFreq / o.minFreq, o.numBands)
  }

  /** One of `n` equal steps from `lo` to `hi`. */
  function Width(lo: real, hi: real, n: nat): real
    requires n >= 1
  {
    (hi - lo) / n as real
  }

  /** `k` steps of `per` above `lo`. */
  function Position(lo: real, per: real, k: nat): real
  {
    lo + k as real * per
  }

  /** The scale-domain width of one band on the mel scale. */
  function MelPer(m: Functions, o: Opts): real
    requires ValidOpts(o)
  {
    Width(HzToMel(m, o.minFreq), HzToMel(m, o.maxFreq), o.numBands)
  }

  /** The scale-domain width of one band on the Bark scale. */
  function BarkPer(m: Functions, o: Opts): real
    requires ValidOpts(o)
  {
    Width(HzToBark(m, o.minFreq), HzToBark(m, o.maxFreq), o.numBands)
  }

  /** The frequency, in Hz, of the `k`-th edge on each scale: `k` band
      widths above the low cutoff, measured in that scale's own domain and
      mapped back to Hz. */
  function LinearEdge(o: Opts, k: nat): real
  {
    Position(o.minFreq, o.hzPer, k)
  }

  function LogEdge(m: Functions, o: Opts, k: nat): real
    requires ValidOpts(o) && o.minFreq != 0.0
  {
    o.minFreq * m.powf(LogBase(m, o), k as real)
  }

  function MelEdge(m: Functions, o: Opts, k: nat): real
    requires ValidOpts(o)
  {
    MelToHz(m, Position(HzToMel(m, o.minFreq), MelPer(m, o), k))
  }

  function BarkEdge(m: Functions, o: Opts, k: nat): real
    requires ValidOpts(o)
  {
    BarkToHz(m, Position(HzToBark(m, o.minFreq), BarkPer(m, o), k))
  }

  /** The edge frequency `k` of a scale. */
  function EdgeHz(scale: PC.Banding, m: Functions, o: Opts, k: nat): real
    requires EdgesDefined(scale, o)
  {
    match scale
    case Linear => LinearEdge(o, k)
    case Logarithmic => LogEdge(m, o, k)
    case Mel => MelEdge(m, o, k)
    case Bark => BarkEdge(m, o, k)
  }

  /** The edges of band `i` in bins (fractional bin indices), as
      `apply_linear`, `apply_logarithmic`, `apply_mel` and `apply_bark` pass
      them to `apply_sample`: edge frequency `i` and edge frequency `i + 1`,
      each divided by the bin width. */
  function BandEdges(scale: PC.Banding, m: Functions, o: Opts, i: nat): (real, real)
    requires EdgesDefined(scale, o)
  {
    (EdgeHz(scale, m, o, i) / o.hzPer, EdgeHz(scale, m, o, i + 1) / o.hzPer)
  }

  /** Band `i`'s value: `apply_sample` between its two edges. */
  function BandValue(scale: PC.Banding, m: Functions, o: Opts, mags: seq<real>, i: nat): Checked<real>
    requires EdgesDefined(scale, o) && |mags| > 0
  {
    var edges := BandEdges(scale, m, o, i);
    ApplySample(mags, edges.0, edges.1)
  }

  /** Writing a run of per-band results into a zero-filled
      `band_magnitudes`: panics if any band panicked or if there are more
      bands than slots; otherwise the prefix holds the band values and the
      rest stays zero. */
  function WriteBands(bandMagnitudes: seq<real>, values: seq<Checked<real>>): (r: Checked<seq<real>>)
    ensures r.Ok? <==> |values| <= |bandMagnitudes| && forall i :: 0 <= i < |values| ==> values[i].Ok?
    ensures r.Ok? ==> |r.value| == |bandMagnitudes|
    ensures r.Ok? ==> forall i :: 0 <= i < |values| ==> values[i] == Ok(r.value[i])
    ensures r.Ok? ==> forall i :: |values| <= i < |bandMagnitudes| ==> r.value[i] == 0.0
  {
    if |values| > |bandMagnitudes| then Panic
    else
      match Collect(values)
      case Panic => Panic
      case Ok(vs) => Ok(vs + seq(|bandMagnitudes| - |values|, _ => 0.0))
  }

  /** Every band's value, in band order. */
  function BandValues(scale: PC.Banding, m: Functions, o: Opts, mags: seq<real>): (r: seq<Checked<real>>)
    requires EdgesDefined(scale, o) && |mags| > 0
    ensures |r| == o.numBands
    ensures forall i :: 0 <= i < o.numBands ==> r[i] == BandValue(scale, m, o, mags, i)
  {
    seq(o.numBands, i requires 0 <= i < o.numBands => BandValue(scale, m, o, mags, i))
  }

  /** The band loop of `aggregate_bands` once its options are fixed. On the
      logarithmic scale a zero low cutoff makes the base `max / 0` infinite
      or NaN, so edge 0 is `0 * base^0 = 0` and edge 1 is `0 * base`, a NaN;
      its `ceil() as usize` is 0, below the start bin 1, and the first band
      panics. */
  function Aggregate(bandMagnitudes: seq<real>, mags: seq<real>, scale: PC.Banding, m: Functions, o: Opts): (r: Checked<seq<real>>)
    requires ValidOpts(o) && |mags| > 0
    ensures !EdgesDefined(scale, o) ==> r == Panic
    ensures EdgesDefined(scale, o) ==>
              (r.Ok? <==>
                o.numBands <= |bandMagnitudes| &&
                forall i :: 0 <= i < o.numBands ==> BandValue(scale, m, o, mags, i).Ok?)
    ensures r.Ok? ==> |r.value| == |bandMagnitudes|
    ensures r.Ok? ==> forall i :: 0 <= i < o.numBands ==> Ok(r.value[i]) == BandValue(scale, m, o, mags, i)
    ensures r.Ok? ==> forall i :: o.numBands <= i < |bandMagnitudes| ==> r.value[i] == 0.0
  {
    if !EdgesDefined(scale, o) then Panic
    else WriteBands(bandMagnitudes, BandValues(scale, m, o, mags))
  }

  /** `aggregate_bands(channel, sample_rate, binning)`, with `num_bands` the
      length of the channel's output records. With no bands the result is
      all zeros. */
  function AggregateBands(bandMagnitudes: seq<real>, fftMagnitudes: seq<real>, numBands: nat,
                          sampleRate: nat, binning: PC.Binning, m: Functions): (r: Checked<seq<real>>)
    requires |fftMagnitudes| >= 2 && sampleRate > 0
    ensures r.Ok? ==> |r.value| == |bandMagnitudes|
    ensures r.Ok? ==> forall i :: numBands <= i < |bandMagnitudes| ==> r.value[i] == 0.0
    ensures numBands == 0 ==> r.Ok?
    ensures numBands >= 1 && binning.banding == PC.Logarithmic && binning.frequencyCutoff.low == 0.0 ==> r == Panic
    ensures numBands >= 1 ==>
              r == Aggregate(bandMagnitudes, fftMagnitudes, binning.banding, m,
                             BinningOpts(fftMagnitudes, numBands, sampleRate, binning))
  {
    if numBands == 0 then Ok(seq(|bandMagnitudes|, _ => 0.0))
    else Aggregate(bandMagnitudes, fftMagnitudes, binning.banding, m,
                   BinningOpts(fftMagnitudes, numBands, sampleRate, binning))
  }

  /** The `Opts` record `aggregate_bands` builds. */
  function BinningOpts(fftMagnitudes: seq<real>, numBands: nat, sampleRate: nat, binning: PC.Binning): (o: Opts)
    requires |fftMagnitudes| >= 2 && sampleRate > 0
    ensures numBands >= 1 ==> ValidOpts(o)
    ensures o.minFreq == binning.frequencyCutoff.low && o.maxFreq == binning.frequencyCutoff.high
    ensures o.numBins == |fftMagnitudes| && o.numBands == numBands
    ensures o.hzPer * (|fftMagnitudes| - 1) as real == sampleRate as real / 2.0
  {
    Opts(|fftMagnitudes|, numBands, binning.frequencyCutoff.low, binning.frequencyCutoff.high,
         HzPer(sampleRate, |fftMagnitudes|))
  }

  // ---------------------------------------------------------------------
  // Properties of the edges

  /** Bands are contiguous: band `i` ends exactly where band `i + 1` starts,
      on every scale. */
  lemma BandsAreContiguous(scale: PC.Banding, m: Functions, o: Opts, i: nat)
    requires EdgesDefined(scale, o)
    ensures BandEdges(scale, m, o, i).1 == BandEdges(scale, m, o, i + 1).0
  {
  }

  /** Linear edges are `min_freq / hz_per + i` and one bin apart, whatever
      the high cutoff: the linear scale never looks at `max_freq`. */
  lemma LinearEdgesAreUnitSteps(m: Functions, o: Opts, i: nat, high: real)
    requires ValidOpts(o)
    ensures BandEdges(PC.Linear, m, o, i) == (o.minFreq / o.hzPer + i as real, o.minFreq / o.hzPer + i as real + 1.0)
    ensures BandEdges(PC.Linear, m, o.(maxFreq := high), i) == BandEdges(PC.Linear, m, o, i)
  {
    assert BandEdges(PC.Linear, m, o, i) == (LinearEdge(o, i) / o.hzPer, LinearEdge(o, i + 1) / o.hzPer);
    DivSplit(o.minFreq, i as real, o.hzPer);
    DivSplit(o.minFreq, (i + 1) as real, o.hzPer);
    assert LinearEdge(o, i) / o.hzPer == o.minFreq / o.hzPer + i as real;
    assert LinearEdge(o, i + 1) / o.hzPer == o.minFreq / o.hzPer + (i + 1) as real;
    assert (i + 1) as real == i as real + 1.0;
    var o' := o.(maxFreq := high);
    assert LinearEdge(o', i) == LinearEdge(o, i) && LinearEdge(o', i + 1) == LinearEdge(o, i + 1);
  }

  lemma DivSplit(a: real, k: real, h: real)
    requires h != 0.0
    ensures (a + k * h) / h == a / h + k
  {
  }

  /** A linear band covers at most two bins. */
  lemma LinearBandSpansAtMostTwoBins(m: Functions, o: Opts, i: nat, total: nat)
    requires ValidOpts(o) && o.minFreq >= 0.0
    ensures var e := BandEdges(PC.Linear, m, o, i);
            BinEnd(e.1, total) <= BinStart(e.0, total) + 2
  {
    LinearEdgesAreUnitSteps(m, o, i, o.maxFreq);
    var x := o.minFreq / o.hzPer + i as real;
    assert x >= 0.0;
    assert Ceil(x + 1.0) <= Floor(x) + 2;
  }

  /** `mel_to_hz` undoes `hz_to_mel` on positive frequencies. */
  lemma MelRoundTrip(m: Functions, hz: real)
    requires PowTenInvertsLog10(m) && hz > 0.0
    ensures MelToHz(m, HzToMel(m, hz)) == hz
  {
    var y := m.log10(1.0 + hz / 700.0);
    assert HzToMel(m, hz) / 2595.0 == y;
    assert m.powf(10.0, y) == 1.0 + hz / 700.0;
  }

  /** `bark_to_hz` undoes `hz_to_bark`. */
  lemma BarkRoundTrip(m: Functions, hz: real)
    requires SinhInvertsAsinh(m)
    ensures BarkToHz(m, HzToBark(m, hz)) == hz
  {
    assert HzToBark(m, hz) / 7.0 == Asinh(m, hz / 600.0);
    assert m.sinh(Asinh(m, hz / 600.0)) == hz / 600.0;
  }

  /** `n` steps of one `n`-th of the way lead from `a` to `b`. */
  lemma WidthsAddUp(a: real, b: real, n: nat)
    requires n >= 1
    ensures Position(a, Width(a, b, n), n) == b
  {
  }

  /** On the logarithmic, mel and Bark scales edge 0 is the low cutoff and
      edge `num_bands` the high cutoff. */
  lemma LogSpan(m: Functions, o: Opts)
    requires ValidOpts(o) && 0.0 < o.minFreq && o.maxFreq > 0.0
    requires PowZero(m) && RootThenPower(m)
    ensures LogEdge(m, o, 0) == o.minFreq
    ensures LogEdge(m, o, o.numBands) == o.maxFreq
  {
    var n := o.numBands;
    assert m.powf(LogBase(m, o), 0 as real) == 1.0;
    assert m.powf(Root(m, o.maxFreq / o.minFreq, n), n as real) == o.maxFreq / o.minFreq;
  }

  /** The last mel edge is the high cutoff's mel value mapped back. */
  lemma MelLastEdge(m: Functions, o: Opts)
    requires ValidOpts(o)
    ensures MelEdge(m, o, o.numBands) == MelToHz(m, HzToMel(m, o.maxFreq))
  {
    WidthsAddUp(HzToMel(m, o.minFreq), HzToMel(m, o.maxFreq), o.numBands);
  }

  lemma MelSpan(m: Functions, o: Opts)
    requires ValidOpts(o) && 0.0 < o.minFreq && o.maxFreq > 0.0
    requires PowTenInvertsLog10(m)
    ensures MelEdge(m, o, 0) == o.minFreq
    ensures MelEdge(m, o, o.numBands) == o.maxFreq
  {
    assert Position(HzToMel(m, o.minFreq), MelPer(m, o), 0) == HzToMel(m, o.minFreq);
    MelRoundTrip(m, o.minFreq);
    MelLastEdge(m, o);
    MelRoundTrip(m, o.maxFreq);
  }

  /** The last Bark edge is the high cutoff's Bark value mapped back. */
  lemma BarkLastEdge(m: Functions, o: Opts)
    requires ValidOpts(o)
    ensures BarkEdge(m, o, o.numBands) == BarkToHz(m, HzToBark(m, o.maxFreq))
  {
    WidthsAddUp(HzToBark(m, o.minFreq), HzToBark(m, o.maxFreq), o.numBands);
  }

  lemma BarkSpan(m: Functions, o: Opts)
    requires ValidOpts(o)
    requires SinhInvertsAsinh(m)
    ensures BarkEdge(m, o, 0) == o.minFreq
    ensures BarkEdge(m, o, o.numBands) == o.maxFreq
  {
    assert Position(HzToBark(m, o.minFreq), BarkPer(m, o), 0) == HzToBark(m, o.minFreq);
    BarkRoundTrip(m, o.minFreq);
    BarkLastEdge(m, o);
    BarkRoundTrip(m, o.maxFreq);
  }

  /** On the logarithmic, mel and Bark scales the first band starts at the
      low cutoff and the last band ends at the high cutoff (in bins). */
  lemma BandsSpanCutoff(scale: PC.Banding, m: Functions, o: Opts)
    requires ValidOpts(o) && 0.0 < o.minFreq && o.maxFreq > 0.0
    requires scale != PC.Linear && Standard(m)
    ensures BandEdges(scale, m, o, 0).0 == o.minFreq / o.hzPer
    ensures BandEdges(scale, m, o, o.numBands - 1).1 == o.maxFreq / o.hzPer
  {
    match scale {
      case Logarithmic => LogSpan(m, o);
      case Mel => MelSpan(m, o);
      case Bark => BarkSpan(m, o);
    }
  }

  /** With a low cutoff below the high one, the edges of every scale are
      positive and strictly increasing. */
  lemma LinearEdgesIncrease(o: Opts, k: nat)
    requires ValidOpts(o) && o.minFreq > 0.0
    ensures 0.0 < LinearEdge(o, k) < LinearEdge(o, k + 1)
  {
    assert (k + 1) as real * o.hzPer == k as real * o.hzPer + o.hzPer;
  }

  lemma LogEdgesIncrease(m: Functions, o: Opts, k: nat)
    requires ValidOpts(o) && 0.0 < o.minFreq < o.maxFreq
    requires PowGrows(m) && PowAboveOne(m)
    ensures 0.0 < LogEdge(m, o, k) < LogEdge(m, o, k + 1)
  {
    LogBaseAboveOne(m, o);
    assert k as real < (k + 1) as real;
    ScaleKeepsOrder(o.minFreq, m.powf(LogBase(m, o), k as real), m.powf(LogBase(m, o), (k + 1) as real));
  }

  lemma LogBaseAboveOne(m: Functions, o: Opts)
    requires ValidOpts(o) && 0.0 < o.minFreq < o.maxFreq && PowAboveOne(m)
    ensures LogBase(m, o) > 1.0
  {
    RatioAboveOne(o.maxFreq, o.minFreq);
    assert 1.0 / o.numBands as real > 0.0;
  }

  lemma ScaleKeepsOrder(c: real, a: real, b: real)
    requires c > 0.0 && 0.0 < a < b
    ensures 0.0 < c * a < c * b
  {
  }

  lemma RatioAboveOne(a: real, b: real)
    requires 0.0 < b < a
    ensures a / b > 1.0
  {
    var r := a / b;
    assert r * b == a;
    assert (r - 1.0) * b == a - b;
  }

  lemma MelEdgesIncrease(m: Functions, o: Opts, k: nat)
    requires ValidOpts(o) && 0.0 < o.minFreq < o.maxFreq
    requires IncreasingOnPositives(m.log10) && PowTenIncreasing(m) && PowTenInvertsLog10(m)
    ensures 0.0 < MelEdge(m, o, k) < MelEdge(m, o, k + 1)
  {
    MelPerPositive(m, o);
    StepsAhead(HzToMel(m, o.minFreq), MelPer(m, o), k);
    MelRoundTrip(m, o.minFreq);
    MelToHzIncreasing(m, HzToMel(m, o.minFreq), Position(HzToMel(m, o.minFreq), MelPer(m, o), k));
    MelToHzIncreasing(m, Position(HzToMel(m, o.minFreq), MelPer(m, o), k),
                      Position(HzToMel(m, o.minFreq), MelPer(m, o), k + 1));
  }

  lemma MelPerPositive(m: Functions, o: Opts)
    requires ValidOpts(o) && 0.0 < o.minFreq < o.maxFreq && IncreasingOnPositives(m.log10)
    ensures MelPer(m, o) > 0.0
  {
    assert 1.0 + o.minFreq / 700.0 < 1.0 + o.maxFreq / 700.0;
    assert m.log10(1.0 + o.minFreq / 700.0) < m.log10(1.0 + o.maxFreq / 700.0);
    assert HzToMel(m, o.minFreq) < HzToMel(m, o.maxFreq);
  }

  lemma MelToHzIncreasing(m: Functions, x: real, y: real)
    requires PowTenIncreasing(m) && x <= y
    ensures MelToHz(m, x) <= MelToHz(m, y)
    ensures x < y ==> MelToHz(m, x) < MelToHz(m, y)
  {
    if x < y {
      assert x / 2595.0 < y / 2595.0;
    }
  }

  /** `asinh` grows on the positive reals. */
  lemma AsinhIncreasing(m: Functions, x: real, y: real)
    requires 0.0 < x < y
    requires IncreasingOnPositives(m.ln) && SqrtNonNegative(m.sqrt) && SqrtIncreasing(m)
    ensures Asinh(m, x) < Asinh(m, y)
  {
    assert x * x < x * y < y * y;
    assert m.sqrt(x * x + 1.0) < m.sqrt(y * y + 1.0);
    assert m.sqrt(x * x + 1.0) >= 0.0;
  }

  lemma BarkPerPositive(m: Functions, o: Opts)
    requires ValidOpts(o) && 0.0 < o.minFreq < o.maxFreq
    requires IncreasingOnPositives(m.ln) && SqrtNonNegative(m.sqrt) && SqrtIncreasing(m)
    ensures BarkPer(m, o) > 0.0
  {
    AsinhIncreasing(m, o.minFreq / 600.0, o.maxFreq / 600.0);
  }

  lemma {:induction false} BarkEdgesIncrease(m: Functions, o: Opts, k: nat)
    requires ValidOpts(o) && o.minFreq > 0.0 && BarkPer(m, o) > 0.0
    requires Increasing(m.sinh) && SinhInvertsAsinh(m)
    ensures 0.0 < BarkEdge(m, o, k) < BarkEdge(m, o, k + 1)
  {
    StepsAhead(HzToBark(m, o.minFreq), BarkPer(m, o), k);
    BarkRoundTrip(m, o.minFreq);
    BarkToHzIncreasing(m, HzToBark(m, o.minFreq), Position(HzToBark(m, o.minFreq), BarkPer(m, o), k));
    BarkToHzIncreasing(m, Position(HzToBark(m, o.minFreq), BarkPer(m, o), k),
                       Position(HzToBark(m, o.minFreq), BarkPer(m, o), k + 1));
  }

  lemma BarkToHzIncreasing(m: Functions, x: real, y: real)
    requires Increasing(m.sinh) && x <= y
    ensures BarkToHz(m, x) <= BarkToHz(m, y)
    ensures x < y ==> BarkToHz(m, x) < BarkToHz(m, y)
  {
    if x < y {
      assert x / 7.0 < y / 7.0;
    }
  }

  lemma StepsAhead(lo: real, per: real, k: nat)
    requires per > 0.0
    ensures lo <= Position(lo, per, k) < Position(lo, per, k + 1)
  {
    assert (k + 1) as real * per == k as real * per + per;
    assert k as real * per >= 0.0;
  }

  lemma EdgesIncrease(scale: PC.Banding, m: Functions, o: Opts, k: nat)
    requires ValidOpts(o) && 0.0 < o.minFreq < o.maxFreq && Standard(m)
    ensures 0.0 < EdgeHz(scale, m, o, k) < EdgeHz(scale, m, o, k + 1)
  {
    match scale {
      case Linear => LinearEdgesIncrease(o, k);
      case Logarithmic => LogEdgesIncrease(m, o, k);
      case Mel => MelEdgesIncrease(m, o, k);
      case Bark =>
        BarkPerPositive(m, o);
        BarkEdgesIncrease(m, o, k);
    }
  }

  /** The same ordering measured in bins. */
  lemma BandEdgesIncrease(scale: PC.Banding, m: Functions, o: Opts, i: nat)
    requires ValidOpts(o) && 0.0 < o.minFreq < o.maxFreq && Standard(m)
    ensures 0.0 < BandEdges(scale, m, o, i).0 < BandEdges(scale, m, o, i).1
  {
    EdgesIncrease(scale, m, o, i);
    DivideOrdered(EdgeHz(scale, m, o, i), EdgeHz(scale, m, o, i + 1), o.hzPer);
  }

  lemma DivideOrdered(a: real, b: real, h: real)
    requires 0.0 < a < b && h > 0.0
    ensures 0.0 < a / h < b / h
  {
  }

  /** With a valid cutoff, well-behaved library functions and room for
      every band, aggregation never panics, and with non-negative bins every
      band is non-negative. */
  lemma AggregateNeverPanics(bandMagnitudes: seq<real>, mags: seq<real>, scale: PC.Banding, m: Functions, o: Opts)
    requires ValidOpts(o) && |mags| > 0 && 0.0 < o.minFreq < o.maxFreq && Standard(m)
    requires o.numBands <= |bandMagnitudes|
    ensures Aggregate(bandMagnitudes, mags, scale, m, o).Ok?
    ensures AllNonNegative(mags) ==> AllNonNegative(Aggregate(bandMagnitudes, mags, scale, m, o).value)
  {
    forall i | 0 <= i < o.numBands
      ensures BandValue(scale, m, o, mags, i).Ok?
    {
      BandEdgesIncrease(scale, m, o, i);
      var e := BandEdges(scale, m, o, i);
      ApplySampleOkWhenOrdered(mags, e.0, e.1);
    }
    if AllNonNegative(mags) {
      var r := Aggregate(bandMagnitudes, mags, scale, m, o).value;
      forall i | 0 <= i < |r|
        ensures r[i] >= 0.0
      {
        if i < o.numBands {
          var e := BandEdges(scale, m, o, i);
          ApplySampleNonNegative(mags, e.0, e.1);
        }
      }
    }
  }

  /** The linear scale needs no positive low cutoff: from a zero cutoff up,
      each band's edges are one bin apart and end above bin 0, so no band
      panics. */
  lemma LinearNeverPanics(bandMagnitudes: seq<real>, mags: seq<real>, m: Functions, o: Opts)
    requires ValidOpts(o) && |mags| > 0 && o.minFreq >= 0.0
    requires o.numBands <= |bandMagnitudes|
    ensures Aggregate(bandMagnitudes, mags, PC.Linear, m, o).Ok?
  {
    forall i | 0 <= i < o.numBands
      ensures BandValue(PC.Linear, m, o, mags, i).Ok?
    {
      LinearEdgesAreUnitSteps(m, o, i, o.maxFreq);
      var e := BandEdges(PC.Linear, m, o, i);
      assert o.minFreq / o.hzPer >= 0.0;
      ApplySampleOkWhenOrdered(mags, e.0, e.1);
    }
  }

  /** A silent spectrum aggregates to silent bands. */
  lemma SilenceAggregatesToSilence(bandMagnitudes: seq<real>, mags: seq<real>, scale: PC.Banding, m: Functions, o: Opts)
    requires ValidOpts(o) && |mags| > 0 && 0.0 < o.minFreq < o.maxFreq && Standard(m)
    requires o.numBands <= |bandMagnitudes|
    requires forall k :: 0 <= k < |mags| ==> mags[k] == 0.0
    ensures Aggregate(bandMagnitudes, mags, scale, m, o).Ok?
    ensures forall i :: 0 <= i < |bandMagnitudes| ==> Aggregate(bandMagnitudes, mags, scale, m, o).value[i] == 0.0
  {
    AggregateNeverPanics(bandMagnitudes, mags, scale, m, o);
    var r := Aggregate(bandMagnitudes, mags, scale, m, o).value;
    forall i | 0 <= i < o.numBands
      ensures r[i] == 0.0
    {
      var e := BandEdges(scale, m, o, i);
      SilentSample(mags, e.0, e.1);
    }
  }

  lemma SilentSample(mags: seq<real>, startHz: real, endHz: real)
    requires |mags| > 0
    requires forall k :: 0 <= k < |mags| ==> mags[k] == 0.0
    ensures ApplySample(mags, startHz, endHz).Ok? ==> ApplySample(mags, startHz, endHz).value == 0.0
  {
    var start, end := BinStart(startHz, |mags|), BinEnd(endHz, |mags|);
    if start <= end {
      SumConstant(mags[start..end], 0.0);
      var v := ApplySample(mags, startHz, endHz).value;
      assert v * |mags| as real == 0.0;
    }
  }
}
