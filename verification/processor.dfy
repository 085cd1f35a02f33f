/** The `Processor` of the older tree: two channels of analysis state, the
    clock of the last update, and the frame pipeline that runs every stage
    on both channels in order. The FFT, the tapers and the library maths are
    parameters. */
module Processor {
  import opened Common
  import opened Transcendentals
  import PC = ProcessConfig
  import Magnitudes
  import Bands
  import BS = BandSmoothing
  import Scaling
  import PS = PeakSmoothing
  import Preprocess

  /** Interleaved stereo samples per block. */
  const SAMPLE_SIZE: nat := 4096
  /** Samples per channel, the length of the real FFT. */
  const FFT_SIZE: nat := SAMPLE_SIZE / 2
  /** The magnitude buffer as the source sizes it, `SAMPLE_SIZE / 2 + 1`. */
  const MAGNITUDES_AS_WRITTEN: nat := SAMPLE_SIZE / 2 + 1
  /** The bins an `FFT_SIZE`-point spectrum actually yields. */
  const MAGNITUDES: nat := Magnitudes.Bins(FFT_SIZE)

  datatype Channel = Channel(
    fftInput: seq<real>,
    fftMagnitudes: seq<real>,
    bandMagnitudes: seq<real>,
    smoothed: seq<real>,
    bars: seq<PS.Frequency>)

  datatype Processor = Processor(
    config: PC.Config,
    sampleRate: nat,
    left: Channel,
    right: Channel,
    lastUpdate: real)

  /** What the processor calls but does not define: the library maths, the
      in-place real FFT (`rfft_2048`) and the window tapers. */
  datatype Env = Env(m: Functions, rfft: seq<real> -> seq<real>, tapers: Preprocess.Tapers)

  /** The FFT works in place on a fixed-size array, so it keeps the length. */
  ghost predicate FixedSizeFft(env: Env)
  {
    forall x :: |x| == FFT_SIZE ==> |env.rfft(x)| == FFT_SIZE
  }

  /** The fixed array sizes of a channel (`Box<[f32; N]>`), for a magnitude
      buffer of `bins` entries. */
  predicate Sized(ch: Channel, bins: nat)
  {
    |ch.fftInput| == FFT_SIZE && |ch.fftMagnitudes| == bins
  }

  /** The three band sequences have one entry per band. */
  predicate Aligned(ch: Channel)
  {
    |ch.bandMagnitudes| == |ch.smoothed| == |ch.bars|
  }

  function Zeros(n: nat): (r: seq<real>)
    ensures |r| == n && forall i :: 0 <= i < n ==> r[i] == 0.0
  {
    seq(n, _ => 0.0)
  }

  function Silent(n: nat, now: real): (r: seq<PS.Frequency>)
    ensures |r| == n && forall i :: 0 <= i < n ==> r[i] == PS.Frequency(0.0, 0.0, now)
  {
    seq(n, _ => PS.Frequency(0.0, 0.0, now))
  }

  // ---------------------------------------------------------------------
  // Construction and resizing

  function EmptyChannel(bins: nat): (ch: Channel)
    ensures Sized(ch, bins) && Aligned(ch) && |ch.bars| == 0
    ensures forall i :: 0 <= i < FFT_SIZE ==> ch.fftInput[i] == 0.0
    ensures forall i :: 0 <= i < bins ==> ch.fftMagnitudes[i] == 0.0
  {
    Channel(Zeros(FFT_SIZE), Zeros(bins), [], [], [])
  }

  /** `Processor::new` as written: the magnitude buffer holds
      `SAMPLE_SIZE / 2 + 1` entries. */
  function NewAsWritten(sampleRate: nat, config: PC.Config, now: real): (p: Processor)
    ensures Sized(p.left, MAGNITUDES_AS_WRITTEN) && Sized(p.right, MAGNITUDES_AS_WRITTEN)
    ensures p.left == p.right && Aligned(p.left) && |p.left.bars| == 0
    ensures forall i :: 0 <= i < FFT_SIZE ==> p.left.fftInput[i] == 0.0
    ensures forall i :: 0 <= i < MAGNITUDES_AS_WRITTEN ==> p.left.fftMagnitudes[i] == 0.0
    ensures p.config == config && p.sampleRate == sampleRate && p.lastUpdate == now
  {
    Processor(config, sampleRate, EmptyChannel(MAGNITUDES_AS_WRITTEN), EmptyChannel(MAGNITUDES_AS_WRITTEN), now)
  }

  /** `Processor::new` with the magnitude buffer sized to the bins the
      spectrum yields. Both channels start with zeroed buffers and no
      bands. */
  function New(sampleRate: nat, config: PC.Config, now: real): (p: Processor)
    ensures Sized(p.left, MAGNITUDES) && Sized(p.right, MAGNITUDES)
    ensures p.left == p.right && Aligned(p.left) && |p.left.bars| == 0
    ensures forall i :: 0 <= i < FFT_SIZE ==> p.left.fftInput[i] == 0.0
    ensures forall i :: 0 <= i < MAGNITUDES ==> p.left.fftMagnitudes[i] == 0.0
    ensures p.config == config && p.sampleRate == sampleRate && p.lastUpdate == now
  {
    Processor(config, sampleRate, EmptyChannel(MAGNITUDES), EmptyChannel(MAGNITUDES), now)
  }

  /** `Vec::resize(n, fill)`: truncate, or pad with `fill`. */
  function Resize<T>(s: seq<T>, n: nat, fill: T): (r: seq<T>)
    ensures |r| == n
    ensures forall i :: 0 <= i < n && i < |s| ==> r[i] == s[i]
    ensures forall i :: |s| <= i < n ==> r[i] == fill
  {
    if n <= |s| then s[..n] else s + seq(n - |s|, _ => fill)
  }

  /** One channel of `set_bands`. */
  function ResizeChannel(ch: Channel, n: nat, now: real): (r: Channel)
    ensures Aligned(r) && |r.bars| == n
    ensures r.fftInput == ch.fftInput && r.fftMagnitudes == ch.fftMagnitudes
    ensures forall i :: 0 <= i < n && i < |ch.bandMagnitudes| ==> r.bandMagnitudes[i] == ch.bandMagnitudes[i]
    ensures forall i :: |ch.bandMagnitudes| <= i < n ==> r.bandMagnitudes[i] == 0.0
    ensures forall i :: 0 <= i < n ==> r.smoothed[i] == 0.0 && r.bars[i] == PS.Frequency(0.0, 0.0, now)
  {
    ch.(bandMagnitudes := Resize(ch.bandMagnitudes, n, 0.0),
        smoothed := Zeros(n),
        bars := Silent(n, now))
  }

  /** `set_bands(n)`: both channels get `n` bands, with zeroed smoothing
      state and silent bars stamped `now`; nothing else changes. */
  function SetBands(p: Processor, n: nat, now: real): (r: Processor)
    ensures Aligned(r.left) && Aligned(r.right) && |r.left.bars| == n && |r.right.bars| == n
    ensures r.config == p.config && r.sampleRate == p.sampleRate && r.lastUpdate == p.lastUpdate
    ensures r.left.fftInput == p.left.fftInput && r.left.fftMagnitudes == p.left.fftMagnitudes
    ensures r.right.fftInput == p.right.fftInput && r.right.fftMagnitudes == p.right.fftMagnitudes
  {
    p.(left := ResizeChannel(p.left, n, now), right := ResizeChannel(p.right, n, now))
  }

  /** `current_frequencies`: the bars on display, left channel first. */
  function CurrentFrequencies(p: Processor): (r: (seq<PS.Frequency>, seq<PS.Frequency>))
    ensures r.0 == p.left.bars && r.1 == p.right.bars
  {
    (p.left.bars, p.right.bars)
  }

  /** Right after `set_bands(n)` the display shows `n` silent bars per
      channel. */
  lemma SetBandsShowsSilence(p: Processor, n: nat, now: real)
    ensures var f := CurrentFrequencies(SetBands(p, n, now));
            |f.0| == |f.1| == n &&
            forall i :: 0 <= i < n ==> f.0[i] == f.1[i] == PS.Frequency(0.0, 0.0, now)
  {
  }

  /** Setting the same band count twice is the same as setting it once. */
  lemma SetBandsIdempotent(p: Processor, n: nat, now: real)
    ensures SetBands(SetBands(p, n, now), n, now) == SetBands(p, n, now)
  {
    var once := SetBands(p, n, now);
    assert Resize(once.left.bandMagnitudes, n, 0.0) == once.left.bandMagnitudes;
    assert Resize(once.right.bandMagnitudes, n, 0.0) == once.right.bandMagnitudes;
  }

  /** Shrinking then growing back keeps the surviving band magnitudes and
      zero-fills the regrown tail. */
  lemma ShrinkThenGrow(p: Processor, k: nat, n: nat, now: real)
    requires k <= n <= |p.left.bandMagnitudes|
    ensures var r := SetBands(SetBands(p, k, now), n, now);
            (forall i :: 0 <= i < k ==> r.left.bandMagnitudes[i] == p.left.bandMagnitudes[i]) &&
            (forall i :: k <= i < n ==> r.left.bandMagnitudes[i] == 0.0)
  {
  }

  // ---------------------------------------------------------------------
  // One frame

  /** The frame clock: `dt` is the time since the last update (saturating
      at zero), and the update time moves to now. */
  function Clock(lastUpdate: real, current: real): (r: (real, real))
    ensures r.0 >= 0.0 && r.1 == current
    ensures current >= lastUpdate ==> r.0 + lastUpdate == current
  {
    (Elapsed(current, lastUpdate), current)
  }

  /** The stages after the FFT for one channel: magnitudes, bands, band
      smoothing, logarithmic scaling and peak smoothing, each feeding the
      next. A panic in any stage ends the frame. */
  function ProcessChannel(ch: Channel, spectrum: seq<real>, sampleRate: nat, config: PC.Config,
                          m: Functions, current: real, dt: real): (r: Checked<Channel>)
    requires |spectrum| == FFT_SIZE && |ch.fftMagnitudes| >= MAGNITUDES
    requires sampleRate > 0
    ensures var mags := Magnitudes.CalculateMagnitudes(ch.fftMagnitudes, spectrum, m.sqrt);
            var bands := Bands.AggregateBands(ch.bandMagnitudes, mags, |ch.bars|, sampleRate, config.binning, m);
            (r.Ok? <==> bands.Ok? && BS.ApplyBandSmoothingProcess(ch.smoothed, bands.value, config.bandSmoothing).Ok?) &&
            (r.Ok? ==>
              r.value.fftMagnitudes == mags &&
              r.value.smoothed == BS.ApplyBandSmoothingProcess(ch.smoothed, bands.value, config.bandSmoothing).value &&
              r.value.bandMagnitudes == Scaling.ApplyLogScaling(r.value.smoothed, bands.value, m.log10))
    ensures r.Ok? ==> r.value.bars == PS.ApplyPeakSmoothing(ch.bars, r.value.bandMagnitudes, current, dt, config.peakSmoothing)
    ensures r.Ok? ==> r.value.fftInput == spectrum && |r.value.fftMagnitudes| == |ch.fftMagnitudes|
    ensures r.Ok? ==> |r.value.bandMagnitudes| == |ch.bandMagnitudes| && |r.value.smoothed| == |ch.smoothed|
    ensures r.Ok? ==> |r.value.bars| == |ch.bars|
    ensures r.Ok? ==> forall i :: 0 <= i < |ch.bars| && i < |ch.bandMagnitudes| ==>
              PS.InUnitRange(r.value.bars[i].value) && PS.InUnitRange(r.value.bars[i].peak)
  {
    var mags := Magnitudes.CalculateMagnitudes(ch.fftMagnitudes, spectrum, m.sqrt);
    match Bands.AggregateBands(ch.bandMagnitudes, mags, |ch.bars|, sampleRate, config.binning, m)
    case Panic => Panic
    case Ok(bands) =>
      match BS.ApplyBandSmoothingProcess(ch.smoothed, bands, config.bandSmoothing)
      case Panic => Panic
      case Ok(smoothed) =>
        var scaled := Scaling.ApplyLogScaling(smoothed, bands, m.log10);
        var bars := PS.ApplyPeakSmoothing(ch.bars, scaled, current, dt, config.peakSmoothing);
        Ok(Channel(spectrum, mags, scaled, smoothed, bars))
  }

  /** `process_samples`: take the frame clock, split and taper the block,
      transform both channels, run the stages on each, and record the
      update time. */
  function ProcessSamples(p: Processor, samples: seq<real>, env: Env, current: real): (r: Checked<Processor>)
    requires |samples| == SAMPLE_SIZE
    requires FixedSizeFft(env)
    requires Sized(p.left, |p.left.fftMagnitudes|) && Sized(p.right, |p.right.fftMagnitudes|)
    requires |p.left.fftMagnitudes| >= MAGNITUDES && |p.right.fftMagnitudes| >= MAGNITUDES
    requires p.sampleRate > 0
    ensures r.Ok? ==> r.value.config == p.config && r.value.sampleRate == p.sampleRate
    ensures r.Ok? ==> r.value.lastUpdate == current
    ensures var s := Preprocess.Split(samples, Preprocess.Taper(env.tapers, p.config.window));
            r.Ok? ==> r.value.left.fftInput == env.rfft(s.0) && r.value.right.fftInput == env.rfft(s.1)
    ensures var s := Preprocess.Split(samples, Preprocess.Taper(env.tapers, p.config.window));
            var dt := Elapsed(current, p.lastUpdate);
            var left := ProcessChannel(p.left, env.rfft(s.0), p.sampleRate, p.config, env.m, current, dt);
            var right := ProcessChannel(p.right, env.rfft(s.1), p.sampleRate, p.config, env.m, current, dt);
            (r.Ok? <==> left.Ok? && right.Ok?) &&
            (r.Ok? ==> r.value.left == left.value && r.value.right == right.value)
    ensures r.Ok? ==> r.value.left.bars == PS.ApplyPeakSmoothing(p.left.bars, r.value.left.bandMagnitudes, current,
                                                                Elapsed(current, p.lastUpdate), p.config.peakSmoothing)
    ensures r.Ok? ==> r.value.right.bars == PS.ApplyPeakSmoothing(p.right.bars, r.value.right.bandMagnitudes, current,
                                                                 Elapsed(current, p.lastUpdate), p.config.peakSmoothing)
    ensures r.Ok? ==> Sized(r.value.left, |p.left.fftMagnitudes|) && Sized(r.value.right, |p.right.fftMagnitudes|)
    ensures r.Ok? && Aligned(p.left) ==> Aligned(r.value.left)
    ensures r.Ok? && Aligned(p.right) ==> Aligned(r.value.right)
  {
    var clock := Clock(p.lastUpdate, current);
    var split := Preprocess.Split(samples, Preprocess.Taper(env.tapers, p.config.window));
    var l := env.rfft(split.0);
    var rt := env.rfft(split.1);
    match ProcessChannel(p.left, l, p.sampleRate, p.config, env.m, current, clock.0)
    case Panic => Panic
    case Ok(left) =>
      match ProcessChannel(p.right, rt, p.sampleRate, p.config, env.m, current, clock.0)
      case Panic => Panic
      case Ok(right) => Ok(Processor(p.config, p.sampleRate, left, right, clock.1))
  }

  /** `update`: a missing block leaves the processor as it was; a block is
      processed. */
  function Update(p: Processor, block: Option<seq<real>>, env: Env, current: real): (r: Checked<Processor>)
    requires block.Some? ==> |block.value| == SAMPLE_SIZE && FixedSizeFft(env)
    requires block.Some? ==> Sized(p.left, |p.left.fftMagnitudes|) && Sized(p.right, |p.right.fftMagnitudes|)
    requires block.Some? ==> |p.left.fftMagnitudes| >= MAGNITUDES && |p.right.fftMagnitudes| >= MAGNITUDES
    requires block.Some? ==> p.sampleRate > 0
    ensures block.None? ==> r == Ok(p)
    ensures block.Some? && r.Ok? ==> r.value.lastUpdate == current && r.value.config == p.config
    ensures block.Some? ==> r == ProcessSamples(p, block.value, env, current)
    ensures block.Some? && r.Ok? ==>
              r.value.left.bars == PS.ApplyPeakSmoothing(p.left.bars, r.value.left.bandMagnitudes, current,
                                                         Elapsed(current, p.lastUpdate), p.config.peakSmoothing)
    ensures block.Some? && r.Ok? ==>
              r.value.right.bars == PS.ApplyPeakSmoothing(p.right.bars, r.value.right.bandMagnitudes, current,
                                                          Elapsed(current, p.lastUpdate), p.config.peakSmoothing)
    ensures block.Some? && r.Ok? ==>
              var s := Preprocess.Split(block.value, Preprocess.Taper(env.tapers, p.config.window));
              r.value.left.fftInput == env.rfft(s.0) && r.value.right.fftInput == env.rfft(s.1)
  {
    match block
    case None => Ok(p)
    case Some(samples) => ProcessSamples(p, samples, env, current)
  }

  /** Two frames in a row: the peak stage of the second steps the bars the
      first left behind, with `dt` exactly the time between the frames. */
  lemma NextFrameSeesThisFrame(p: Processor, first: seq<real>, second: seq<real>, env: Env, t: real, t': real)
    requires |first| == SAMPLE_SIZE && |second| == SAMPLE_SIZE && FixedSizeFft(env)
    requires Sized(p.left, |p.left.fftMagnitudes|) && Sized(p.right, |p.right.fftMagnitudes|)
    requires |p.left.fftMagnitudes| >= MAGNITUDES && |p.right.fftMagnitudes| >= MAGNITUDES
    requires p.sampleRate > 0 && t <= t'
    ensures var r1 := ProcessSamples(p, first, env, t);
            r1.Ok? ==>
              var r2 := ProcessSamples(r1.value, second, env, t');
              r2.Ok? ==>
                r2.value.left.bars == PS.ApplyPeakSmoothing(r1.value.left.bars, r2.value.left.bandMagnitudes, t', t' - t,
                                                            p.config.peakSmoothing) &&
                r2.value.right.bars == PS.ApplyPeakSmoothing(r1.value.right.bars, r2.value.right.bandMagnitudes, t', t' - t,
                                                             p.config.peakSmoothing)
    {
    var r1 := ProcessSamples(p, first, env, t);
    if r1.Ok? {
      var q := r1.value;
      assert q.lastUpdate == t && q.config == p.config;
      assert Elapsed(t', q.lastUpdate) == t' - t;
    }
  }

  // ---------------------------------------------------------------------
  // Whole frames

  /** With one entry per band, a sensible cutoff and well-behaved library
      maths, no stage of a channel panics, and the bands stay aligned. */
  lemma ChannelNeverPanics(ch: Channel, spectrum: seq<real>, sampleRate: nat, config: PC.Config,
                           m: Functions, current: real, dt: real)
    requires |spectrum| == FFT_SIZE && |ch.fftMagnitudes| >= MAGNITUDES
    requires sampleRate > 0 && 0.0 < config.binning.frequencyCutoff.low < config.binning.frequencyCutoff.high
    requires Aligned(ch) && Standard(m)
    ensures ProcessChannel(ch, spectrum, sampleRate, config, m, current, dt).Ok?
    ensures Aligned(ProcessChannel(ch, spectrum, sampleRate, config, m, current, dt).value)
  {
    var mags := Magnitudes.CalculateMagnitudes(ch.fftMagnitudes, spectrum, m.sqrt);
    var n := |ch.bars|;
    if n > 0 {
      var o := Bands.BinningOpts(mags, n, sampleRate, config.binning);
      Bands.AggregateNeverPanics(ch.bandMagnitudes, mags, config.binning.banding, m, o);
    }
  }

  /** After `set_bands`, frames never panic (given well-behaved library
      maths and a cutoff with low below high). */
  lemma FramesNeverPanic(p: Processor, samples: seq<real>, env: Env, current: real)
    requires |samples| == SAMPLE_SIZE && FixedSizeFft(env) && Standard(env.m)
    requires Sized(p.left, |p.left.fftMagnitudes|) && Sized(p.right, |p.right.fftMagnitudes|)
    requires |p.left.fftMagnitudes| >= MAGNITUDES && |p.right.fftMagnitudes| >= MAGNITUDES
    requires p.sampleRate > 0 && 0.0 < p.config.binning.frequencyCutoff.low < p.config.binning.frequencyCutoff.high
    requires Aligned(p.left) && Aligned(p.right)
    ensures ProcessSamples(p, samples, env, current).Ok?
  {
    var clock := Clock(p.lastUpdate, current);
    var split := Preprocess.Split(samples, Preprocess.Taper(env.tapers, p.config.window));
    ChannelNeverPanics(p.left, env.rfft(split.0), p.sampleRate, p.config, env.m, current, clock.0);
    ChannelNeverPanics(p.right, env.rfft(split.1), p.sampleRate, p.config, env.m, current, clock.0);
  }

  /** A bar at rest: value and peak zero. */
  predicate AtRest(bar: PS.Frequency)
  {
    bar.value == 0.0 && bar.peak == 0.0
  }

  /** A silent spectrum leaves a channel whose smoothing state is zero and
      whose bars are at rest exactly as it was: the bars are not even
      re-stamped. */
  lemma SilentChannelStaysAtRest(ch: Channel, spectrum: seq<real>, sampleRate: nat, config: PC.Config,
                                 m: Functions, current: real, dt: real)
    requires spectrum == Zeros(FFT_SIZE) && |ch.fftMagnitudes| == MAGNITUDES
    requires sampleRate > 0 && 0.0 < config.binning.frequencyCutoff.low < config.binning.frequencyCutoff.high
    requires Aligned(ch) && Standard(m) && m.sqrt(0.0) == 0.0
    requires forall i :: 0 <= i < |ch.smoothed| ==> ch.smoothed[i] == 0.0
    requires forall i :: 0 <= i < |ch.bars| ==> AtRest(ch.bars[i])
    ensures ProcessChannel(ch, spectrum, sampleRate, config, m, current, dt).Ok?
    ensures ProcessChannel(ch, spectrum, sampleRate, config, m, current, dt).value.bars == ch.bars
  {
    ChannelNeverPanics(ch, spectrum, sampleRate, config, m, current, dt);
    var mags := Magnitudes.CalculateMagnitudes(ch.fftMagnitudes, spectrum, m.sqrt);
    SilentSpectrumSilentBins(ch.fftMagnitudes, spectrum, m);
    SilentBinsSilentStages(ch, mags, sampleRate, config, m);
    var bands := Bands.AggregateBands(ch.bandMagnitudes, mags, |ch.bars|, sampleRate, config.binning, m).value;
    var smoothed := BS.ApplyBandSmoothingProcess(ch.smoothed, bands, config.bandSmoothing).value;
    var scaled := Scaling.ApplyLogScaling(smoothed, bands, m.log10);
    var bars := PS.ApplyPeakSmoothing(ch.bars, scaled, current, dt, config.peakSmoothing);
    forall i | 0 <= i < |ch.bars|
      ensures bars[i] == ch.bars[i]
    {
      assert scaled[i] == 0.0;
      PS.HoldOnlyClamps(ch.bars[i], current, dt, config.peakSmoothing);
    }
  }

  lemma SilentSpectrumSilentBins(fftMagnitudes: seq<real>, spectrum: seq<real>, m: Functions)
    requires spectrum == Zeros(FFT_SIZE) && |fftMagnitudes| == MAGNITUDES && m.sqrt(0.0) == 0.0
    ensures var mags := Magnitudes.CalculateMagnitudes(fftMagnitudes, spectrum, m.sqrt);
            forall k :: 0 <= k < |mags| ==> mags[k] == 0.0
  {
    var mags := Magnitudes.CalculateMagnitudes(fftMagnitudes, spectrum, m.sqrt);
    forall k | 0 <= k < |mags|
      ensures mags[k] == 0.0
    {
      if 0 < k < MAGNITUDES - 1 {
        assert Abs(0.0) * Abs(0.0) + Abs(0.0) * Abs(0.0) == 0.0;
        assert mags[k] == Magnitudes.PairMagnitude(0.0, 0.0, m.sqrt);
      }
    }
  }

  /** Silent bins aggregate to silent bands, and a zero smoothing state
      stays zero. */
  lemma SilentBinsSilentStages(ch: Channel, mags: seq<real>, sampleRate: nat, config: PC.Config, m: Functions)
    requires |mags| == MAGNITUDES && forall k :: 0 <= k < |mags| ==> mags[k] == 0.0
    requires sampleRate > 0 && 0.0 < config.binning.frequencyCutoff.low < config.binning.frequencyCutoff.high
    requires Aligned(ch) && Standard(m)
    requires forall i :: 0 <= i < |ch.smoothed| ==> ch.smoothed[i] == 0.0
    ensures var b := Bands.AggregateBands(ch.bandMagnitudes, mags, |ch.bars|, sampleRate, config.binning, m);
            b.Ok? && BS.ApplyBandSmoothingProcess(ch.smoothed, b.value, config.bandSmoothing).Ok?
    ensures var b := Bands.AggregateBands(ch.bandMagnitudes, mags, |ch.bars|, sampleRate, config.binning, m).value;
            forall i :: 0 <= i < |b| ==> b[i] == 0.0
    ensures var b := Bands.AggregateBands(ch.bandMagnitudes, mags, |ch.bars|, sampleRate, config.binning, m).value;
            var sm := BS.ApplyBandSmoothingProcess(ch.smoothed, b, config.bandSmoothing).value;
            forall i :: 0 <= i < |sm| ==> sm[i] == 0.0
  {
    var n := |ch.bars|;
    if n > 0 {
      var o := Bands.BinningOpts(mags, n, sampleRate, config.binning);
      Bands.SilenceAggregatesToSilence(ch.bandMagnitudes, mags, config.binning.banding, m, o);
      var bands := Bands.AggregateBands(ch.bandMagnitudes, mags, n, sampleRate, config.binning, m).value;
      var crates := match config.bandSmoothing
        case Exponential(f) => BS.SC.Exponential(f)
        case MovingAverage(ws) => BS.SC.MovingAverage(BS.RoundedWindow(ws));
      BS.TreesAgree(ch.smoothed, bands, config.bandSmoothing);
      BS.FlatSpectrumIsFixed(ch.smoothed, bands, crates, 0.0);
    }
  }

  /** Digital silence in, nothing moves: a frame of zero samples leaves
      bars at rest untouched, given a transform that maps silence to
      silence and `sqrt(0) == 0`. */
  lemma SilenceLeavesBarsAtRest(p: Processor, samples: seq<real>, env: Env, current: real)
    requires |samples| == SAMPLE_SIZE && FixedSizeFft(env) && Standard(env.m)
    requires forall k :: 0 <= k < |samples| ==> samples[k] == 0.0
    requires env.rfft(Zeros(FFT_SIZE)) == Zeros(FFT_SIZE) && env.m.sqrt(0.0) == 0.0
    requires Sized(p.left, MAGNITUDES) && Sized(p.right, MAGNITUDES)
    requires p.sampleRate > 0 && 0.0 < p.config.binning.frequencyCutoff.low < p.config.binning.frequencyCutoff.high
    requires Aligned(p.left) && Aligned(p.right)
    requires forall i :: 0 <= i < |p.left.smoothed| ==> p.left.smoothed[i] == 0.0
    requires forall i :: 0 <= i < |p.right.smoothed| ==> p.right.smoothed[i] == 0.0
    requires forall i :: 0 <= i < |p.left.bars| ==> AtRest(p.left.bars[i])
    requires forall i :: 0 <= i < |p.right.bars| ==> AtRest(p.right.bars[i])
    ensures ProcessSamples(p, samples, env, current).Ok?
    ensures CurrentFrequencies(ProcessSamples(p, samples, env, current).value) == CurrentFrequencies(p)
  {
    var clock := Clock(p.lastUpdate, current);
    var f := Preprocess.Taper(env.tapers, p.config.window);
    var split := Preprocess.Split(samples, f);
    Preprocess.SilenceStaysSilent(samples, f);
    assert split.0 == Zeros(FFT_SIZE) && split.1 == Zeros(FFT_SIZE);
    SilentChannelStaysAtRest(p.left, env.rfft(split.0), p.sampleRate, p.config, env.m, current, clock.0);
    SilentChannelStaysAtRest(p.right, env.rfft(split.1), p.sampleRate, p.config, env.m, current, clock.0);
  }

  // ---------------------------------------------------------------------
  // The magnitude buffer size

  /** As written, the magnitude buffer has `SAMPLE_SIZE / 2 + 1 = 2049`
      entries but a 2048-point spectrum fills only the first 1025: the rest
      stay zero forever, and band aggregation, which takes the bin spacing
      from the buffer length, works with half the real spacing, so a
      frequency `f` is looked up at twice its bin index. */
  lemma StaleUpperBins(sampleRate: nat, config: PC.Config, t0: real, samples: seq<real>, env: Env, t: real)
    requires |samples| == SAMPLE_SIZE && FixedSizeFft(env)
    requires sampleRate > 0
    requires ProcessSamples(NewAsWritten(sampleRate, config, t0), samples, env, t).Ok?
    ensures var q := ProcessSamples(NewAsWritten(sampleRate, config, t0), samples, env, t).value;
            forall k :: MAGNITUDES <= k < MAGNITUDES_AS_WRITTEN ==>
              q.left.fftMagnitudes[k] == 0.0 && q.right.fftMagnitudes[k] == 0.0
    ensures Bands.HzPer(sampleRate, MAGNITUDES_AS_WRITTEN) * FFT_SIZE as real == sampleRate as real / 2.0
  {
    AsWrittenBinSpacing(sampleRate);
  }

  lemma AsWrittenBinSpacing(sampleRate: nat)
    ensures Bands.HzPer(sampleRate, MAGNITUDES_AS_WRITTEN) * FFT_SIZE as real == sampleRate as real / 2.0
  {
    assert MAGNITUDES_AS_WRITTEN - 1 == FFT_SIZE == 2048;
  }

  /** With the buffer sized to the spectrum, every entry is a bin of the
      latest spectrum: nothing stale survives a frame. */
  lemma BinsMatchSpectrum(p: Processor, samples: seq<real>, env: Env, t: real)
    requires |samples| == SAMPLE_SIZE && FixedSizeFft(env)
    requires Sized(p.left, MAGNITUDES) && Sized(p.right, MAGNITUDES)
    requires p.sampleRate > 0
    requires ProcessSamples(p, samples, env, t).Ok?
    ensures var q := ProcessSamples(p, samples, env, t).value;
            forall k :: 0 <= k < MAGNITUDES ==>
              q.left.fftMagnitudes[k] == Magnitudes.BinMagnitude(q.left.fftInput, k, env.m.sqrt) &&
              q.right.fftMagnitudes[k] == Magnitudes.BinMagnitude(q.right.fftInput, k, env.m.sqrt)
  {
    var clock := Clock(p.lastUpdate, t);
    var split := Preprocess.Split(samples, Preprocess.Taper(env.tapers, p.config.window));
    var l := ProcessChannel(p.left, env.rfft(split.0), p.sampleRate, p.config, env.m, t, clock.0);
    var r := ProcessChannel(p.right, env.rfft(split.1), p.sampleRate, p.config, env.m, t, clock.0);
    assert l.Ok? && r.Ok?;
    var q := ProcessSamples(p, samples, env, t).value;
    assert q.left == l.value && q.right == r.value;
    ChannelBinsFresh(p.left, env.rfft(split.0), p.sampleRate, p.config, env.m, t, clock.0);
    ChannelBinsFresh(p.right, env.rfft(split.1), p.sampleRate, p.config, env.m, t, clock.0);
  }

  /** With the buffer sized to the spectrum, the spacing banding uses is the
      real one, `sample_rate / FFT_SIZE`. */
  lemma BinSpacing(sampleRate: nat)
    ensures Bands.HzPer(sampleRate, MAGNITUDES) * FFT_SIZE as real == sampleRate as real
  {
    assert MAGNITUDES - 1 == 1024 && FFT_SIZE == 2048;
    var h := Bands.HzPer(sampleRate, MAGNITUDES);
    assert h * 1024.0 == sampleRate as real / 2.0;
  }

  lemma ChannelBinsFresh(ch: Channel, spectrum: seq<real>, sampleRate: nat, config: PC.Config,
                         m: Functions, current: real, dt: real)
    requires |spectrum| == FFT_SIZE && |ch.fftMagnitudes| == MAGNITUDES
    requires sampleRate > 0
    ensures var r := ProcessChannel(ch, spectrum, sampleRate, config, m, current, dt);
            r.Ok? ==> forall k :: 0 <= k < MAGNITUDES ==>
              r.value.fftMagnitudes[k] == Magnitudes.BinMagnitude(r.value.fftInput, k, m.sqrt)
  {
  }
}
