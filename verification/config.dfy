/** Configuration records of the newer tree (`scram_process::config`).
    `f32` fields are reals and `usize` fields are naturals. */
module ScramConfig {

  datatype FrequencyScale = Linear | Logarithmic | Bark | Mel

  /** `Window::None` leaves the samples untapered. */
  datatype Window = NoWindow | Hann | Hamming | Blackman

  datatype VolumeScale = LinearVolume | Logarithimic

  datatype PeakSmoothing = PeakSmoothing(attackRate: real, decayRate: real, decayLimit: real, peakThreshold: real)

  datatype BandSmoothing =
    | NoSmoothing
    | Exponential(factor: real)
    | MovingAverage(windowSize: nat)

  datatype FrequencyCutoff = FrequencyCutoff(low: real, high: real)

  datatype Banding = Banding(frequencyCutoff: FrequencyCutoff, scale: FrequencyScale)

  datatype Config = Config(
    banding: Banding,
    window: Window,
    scaling: VolumeScale,
    bandSmoothing: BandSmoothing,
    peakSmoothing: PeakSmoothing)

  predicate ValidPeakSmoothing(p: PeakSmoothing)
  {
    p.attackRate > 0.0 && p.decayRate > 0.0 && p.decayLimit > 0.0 && p.peakThreshold > 0.0
  }

  /** `PeakSmoothing::default()`: attack 20/s, decay 0.5/s, a one-second decay
      limit and a threshold of 1e-4, all positive. */
  function DefaultPeakSmoothing(): (p: PeakSmoothing)
    ensures ValidPeakSmoothing(p)
    ensures p.peakThreshold < p.decayRate < p.decayLimit < p.attackRate
  {
    PeakSmoothing(20.0, 0.5, 1.0, 0.0001)
  }

  /** `BandSmoothing::default()`: exponential, factor one half. */
  function DefaultBandSmoothing(): (b: BandSmoothing)
    ensures b.Exponential? && 0.0 <= b.factor <= 1.0
  {
    Exponential(0.5)
  }

  /** `FrequencyCutoff::default()`: 20 Hz to 18 kHz. */
  function DefaultFrequencyCutoff(): (c: FrequencyCutoff)
    ensures 0.0 < c.low < c.high
  {
    FrequencyCutoff(20.0, 18000.0)
  }

  /** `Config::default()`: Mel scale, Blackman window, logarithmic volume. */
  function DefaultConfig(): (c: Config)
    ensures c.banding.scale == Mel && c.window == Blackman && c.scaling == Logarithimic
    ensures 0.0 < c.banding.frequencyCutoff.low < c.banding.frequencyCutoff.high
    ensures ValidPeakSmoothing(c.peakSmoothing)
    ensures c.bandSmoothing.Exponential? && 0.0 <= c.bandSmoothing.factor <= 1.0
  {
    Config(Banding(DefaultFrequencyCutoff(), Mel), Blackman, Logarithimic,
           DefaultBandSmoothing(), DefaultPeakSmoothing())
  }
}

/** Configuration records of the older tree (`crate::process::config`):
    there is no `None` window or smoothing, the moving-average window is an
    `f32`, and logarithmic is the only volume scale. */
module ProcessConfig {

  datatype Banding = Linear | Logarithmic | Bark | Mel

  datatype Window = Hann | Hamming | Blackman

  datatype Scaling = Logarithimic

  datatype PeakSmoothing = PeakSmoothing(attackRate: real, decayRate: real, decayLimit: real, peakThreshold: real)

  datatype BandSmoothing =
    | Exponential(factor: real)
    | MovingAverage(windowSize: real)

  datatype FrequencyCutoff = FrequencyCutoff(low: real, high: real)

  datatype Binning = Binning(frequencyCutoff: FrequencyCutoff, banding: Banding)

  datatype Config = Config(
    binning: Binning,
    window: Window,
    scaling: Scaling,
    bandSmoothing: BandSmoothing,
    peakSmoothing: PeakSmoothing)

  predicate ValidPeakSmoothing(p: PeakSmoothing)
  {
    p.attackRate > 0.0 && p.decayRate > 0.0 && p.decayLimit > 0.0 && p.peakThreshold > 0.0
  }

  function DefaultPeakSmoothing(): (p: PeakSmoothing)
    ensures ValidPeakSmoothing(p)
    ensures p.peakThreshold < p.decayRate < p.decayLimit < p.attackRate
  {
    PeakSmoothing(20.0, 0.5, 1.0, 0.0001)
  }

  function DefaultBandSmoothing(): (b: BandSmoothing)
    ensures b.Exponential? && 0.0 <= b.factor <= 1.0
  {
    Exponential(0.5)
  }

  function DefaultFrequencyCutoff(): (c: FrequencyCutoff)
    ensures 0.0 < c.low < c.high
  {
    FrequencyCutoff(20.0, 18000.0)
  }

  /** `Config::default()`: Mel banding, Blackman window, logarithmic
      scaling. */
  function DefaultConfig(): (c: Config)
    ensures c.binning.banding == Mel && c.window == Blackman && c.scaling == Logarithimic
    ensures 0.0 < c.binning.frequencyCutoff.low < c.binning.frequencyCutoff.high
    ensures ValidPeakSmoothing(c.peakSmoothing)
    ensures c.bandSmoothing.Exponential? && 0.0 <= c.bandSmoothing.factor <= 1.0
  {
    Config(Binning(DefaultFrequencyCutoff(), Mel), Blackman, Logarithimic,
           DefaultBandSmoothing(), DefaultPeakSmoothing())
  }
}
