/** Peak-envelope ballistics (`apply_peak_smoothing`): each displayed bar
    rises towards its band at the attack rate, falls at the decay rate but
    never below a target that shrinks linearly from the last peak over
    `decay_limit` seconds, resets to zero under the threshold, and is
    clamped into `[0, 1]`. Instants are seconds on the real line. */
module PeakSmoothing {
  import opened Common
  import PC = ProcessConfig

  /** `Frequency`: the displayed value, the peak it last reached and when. */
  datatype Frequency = Frequency(value: real, peak: real, ts: real)

  /** `(elapsed / decay_limit).min(1.0)`. A zero limit divides to infinity
      (or NaN when nothing has elapsed), and `min` turns both into 1. */
  function Progress(elapsed: real, decayLimit: real): (p: real)
    ensures p <= 1.0
    ensures decayLimit == 0.0 ==> p == 1.0
    ensures decayLimit > 0.0 && elapsed >= 0.0 ==> 0.0 <= p
    ensures decayLimit > 0.0 && elapsed >= decayLimit ==> p == 1.0
  {
    if decayLimit == 0.0 then 1.0
    else
      QuotientBounds(elapsed, decayLimit);
      Min(elapsed / decayLimit, 1.0)
  }

  lemma QuotientBounds(e: real, l: real)
    requires l != 0.0
    ensures l > 0.0 && e >= 0.0 ==> e / l >= 0.0
    ensures l > 0.0 && e >= l ==> e / l >= 1.0
  {
    if l > 0.0 {
      assert (e / l) * l == e;
    }
  }

  /** The level the peak has decayed to by `current`. */
  function Target(bar: Frequency, current: real, c: PC.PeakSmoothing): real
  {
    bar.peak * (1.0 - Progress(Elapsed(current, bar.ts), c.decayLimit))
  }

  /** The attack branch, before the final clamps. */
  function Attack(bar: Frequency, band: real, current: real, dt: real, c: PC.PeakSmoothing): (r: Frequency)
    ensures r.ts == current && r.peak == r.value
    ensures r.value <= band
    ensures r.value == band <==> bar.value + c.attackRate * dt >= band
    ensures c.attackRate * dt >= 0.0 && bar.value <= band ==> bar.value <= r.value
  {
    var v := Min(bar.value + c.attackRate * dt, band);
    Frequency(v, v, current)
  }

  /** The decay branch, before the final clamps. */
  function Decay(bar: Frequency, band: real, current: real, dt: real, c: PC.PeakSmoothing): (r: Frequency)
    ensures r.ts == bar.ts
    ensures 0.0 <= r.value <= 1.0
    ensures r.peak == bar.peak || (r.value == 0.0 && r.peak == 0.0)
    ensures r.value >= c.peakThreshold || (r.value == 0.0 && r.peak == 0.0)
    ensures r.value == 0.0 || r.value >= Clamp(band, 0.0, 1.0)
  {
    var fallen := Max(bar.value - c.decayRate * dt, band);
    var v := Clamp(Max(Max(fallen, Target(bar, current, c)), band), 0.0, 1.0);
    if v < c.peakThreshold then Frequency(0.0, 0.0, bar.ts) else Frequency(v, bar.peak, bar.ts)
  }

  /** One bar for one frame: attack, decay or hold, then clamp both value
      and peak into `[0, 1]`. */
  function Step(bar: Frequency, band: real, current: real, dt: real, c: PC.PeakSmoothing): (r: Frequency)
    ensures 0.0 <= r.value <= 1.0 && 0.0 <= r.peak <= 1.0
    ensures band > bar.value ==> r.ts == current && r.peak == r.value
    ensures band <= bar.value ==> r.ts == bar.ts
  {
    var b :=
      if band > bar.value then Attack(bar, band, current, dt, c)
      else if band < bar.value then Decay(bar, band, current, dt, c)
      else bar;
    Frequency(Clamp(b.value, 0.0, 1.0), Clamp(b.peak, 0.0, 1.0), b.ts)
  }

  /** `apply_peak_smoothing`: the `zip` of bars with band magnitudes steps
      the first `min` bars and leaves the rest alone. */
  function ApplyPeakSmoothing(bars: seq<Frequency>, bands: seq<real>, current: real, dt: real, c: PC.PeakSmoothing): (r: seq<Frequency>)
    ensures |r| == |bars|
    ensures forall i :: 0 <= i < |bars| && i < |bands| ==>
              r[i] == Step(bars[i], bands[i], current, dt, c)
    ensures forall i :: 0 <= i < |bars| && i < |bands| ==>
              0.0 <= r[i].value <= 1.0 && 0.0 <= r[i].peak <= 1.0
    ensures forall i :: |bands| <= i < |bars| ==> r[i] == bars[i]
  {
    seq(|bars|, i requires 0 <= i < |bars| =>
      if i < |bands| then Step(bars[i], bands[i], current, dt, c) else bars[i])
  }

  predicate InUnitRange(x: real) { 0.0 <= x <= 1.0 }

  /** Attack: with a non-negative step the value moves up from where it
      was without overshooting the band, and becomes the new peak, stamped
      now. */
  lemma AttackApproaches(bar: Frequency, band: real, current: real, dt: real, c: PC.PeakSmoothing)
    requires band > bar.value
    requires c.attackRate * dt >= 0.0
    requires 0.0 <= bar.value && band <= 1.0
    ensures var r := Step(bar, band, current, dt, c);
            bar.value <= r.value <= band && r.peak == r.value && r.ts == current
  {
  }

  /** Decay keeps the timestamp; it keeps the peak unless the threshold
      reset zeroes value and peak together. */
  lemma DecayKeepsPeak(bar: Frequency, band: real, current: real, dt: real, c: PC.PeakSmoothing)
    requires band < bar.value
    requires InUnitRange(bar.peak)
    ensures var r := Step(bar, band, current, dt, c);
            r.ts == bar.ts && (r.peak == bar.peak || (r.peak == 0.0 && r.value == 0.0))
    ensures var r := Step(bar, band, current, dt, c);
            r.value == 0.0 || r.value >= c.peakThreshold
  {
  }

  /** A band equal to the value changes nothing but the clamps. */
  lemma HoldOnlyClamps(bar: Frequency, current: real, dt: real, c: PC.PeakSmoothing)
    requires InUnitRange(bar.value) && InUnitRange(bar.peak)
    ensures Step(bar, bar.value, current, dt, c) == bar
  {
  }

  /** Once the time target has run out and the decay step covers the rest
      of the value, a silent band brings the bar to zero. */
  lemma ReleaseReachesZero(bar: Frequency, band: real, current: real, dt: real, c: PC.PeakSmoothing)
    requires band <= 0.0 < bar.value
    requires c.decayLimit > 0.0 && Elapsed(current, bar.ts) >= c.decayLimit
    requires bar.value - c.decayRate * dt <= 0.0
    ensures Step(bar, band, current, dt, c).value == 0.0
  {
    assert Target(bar, current, c) == 0.0;
  }

  // ---------------------------------------------------------------------
  // The decay envelope

  /** The bar is at or above the level its peak has decayed to by `t`. */
  predicate AboveEnvelope(bar: Frequency, t: real, c: PC.PeakSmoothing)
  {
    Target(bar, t, c) <= bar.value
  }

  /** With a positive decay limit the target only shrinks as time passes. */
  lemma TargetShrinks(bar: Frequency, t: real, t': real, c: PC.PeakSmoothing)
    requires c.decayLimit > 0.0 && bar.peak >= 0.0 && t <= t'
    ensures Target(bar, t', c) <= Target(bar, t, c)
  {
    var e, e' := Elapsed(t, bar.ts), Elapsed(t', bar.ts);
    assert e <= e';
    assert e / c.decayLimit <= e' / c.decayLimit by {
      assert (e' - e) / c.decayLimit >= 0.0;
    }
    var p, p' := Progress(e, c.decayLimit), Progress(e', c.decayLimit);
    assert p <= p';
    assert bar.peak * (p' - p) >= 0.0;
  }

  /** In decay, a bar that sits above its envelope never rises: the value
      only falls. */
  lemma DecayNeverRaises(bar: Frequency, band: real, current: real, dt: real, c: PC.PeakSmoothing)
    requires band < bar.value && InUnitRange(bar.value)
    requires c.decayRate * dt >= 0.0
    requires AboveEnvelope(bar, current, c)
    ensures Step(bar, band, current, dt, c).value <= bar.value
  {
    FallNoHigher(bar, band, dt, c);
    var fallen := Max(bar.value - c.decayRate * dt, band);
    var top := Max(Max(fallen, Target(bar, current, c)), band);
    assert top <= bar.value;
    assert Clamp(top, 0.0, 1.0) <= bar.value;
    var d := Decay(bar, band, current, dt, c);
    assert d.value <= bar.value;
  }

  /** A non-negative decay step, floored at a lower band, stays at or below
      the value it starts from. */
  lemma FallNoHigher(bar: Frequency, band: real, dt: real, c: PC.PeakSmoothing)
    requires band < bar.value && c.decayRate * dt >= 0.0
    ensures Max(bar.value - c.decayRate * dt, band) <= bar.value
  {
  }

  /** At the instant it was stamped, a bar's target is its peak. */
  lemma TargetAtStamp(f: Frequency, c: PC.PeakSmoothing)
    requires c.decayLimit > 0.0
    ensures Target(f, f.ts, c) == f.peak
  {
    assert Elapsed(f.ts, f.ts) == 0.0;
    assert Progress(0.0, c.decayLimit) == 0.0;
  }

  /** A peak in `[0, 1]` decays to a target between zero and the peak. */
  lemma TargetWithinPeak(f: Frequency, t: real, c: PC.PeakSmoothing)
    requires c.decayLimit > 0.0 && InUnitRange(f.peak)
    ensures 0.0 <= Target(f, t, c) <= f.peak
  {
    var p := Progress(Elapsed(t, f.ts), c.decayLimit);
    assert 0.0 <= 1.0 - p <= 1.0;
    assert f.peak * (1.0 - p) <= f.peak * 1.0;
  }

  /** The bar a step produces sits on or above its own target at the
      step's instant. */
  lemma StepAboveTarget(bar: Frequency, band: real, current: real, dt: real, c: PC.PeakSmoothing)
    requires c.decayLimit > 0.0
    requires InUnitRange(bar.value) && InUnitRange(bar.peak)
    requires AboveEnvelope(bar, current, c)
    ensures AboveEnvelope(Step(bar, band, current, dt, c), current, c)
  {
    var r := Step(bar, band, current, dt, c);
    if band > bar.value {
      TargetAtStamp(r, c);
    } else if band < bar.value {
      DecayAboveTarget(bar, band, current, dt, c);
    } else {
      HoldOnlyClamps(bar, current, dt, c);
    }
  }

  lemma DecayAboveTarget(bar: Frequency, band: real, current: real, dt: real, c: PC.PeakSmoothing)
    requires c.decayLimit > 0.0 && band < bar.value
    requires InUnitRange(bar.peak)
    ensures AboveEnvelope(Step(bar, band, current, dt, c), current, c)
  {
    var r := Step(bar, band, current, dt, c);
    var d := Decay(bar, band, current, dt, c);
    TargetWithinPeak(bar, current, c);
    assert r.ts == bar.ts;
    if d.peak == 0.0 {
      assert r.peak == 0.0;
      assert Target(r, current, c) == 0.0;
    } else {
      assert d.peak == bar.peak && r.peak == bar.peak;
      assert Target(r, current, c) == Target(bar, current, c);
      assert Target(bar, current, c) <= d.value;
    }
  }

  /** Every frame keeps a bar above its envelope, from the frame's instant
      on: attack resets the envelope to the new value, decay takes the
      maximum with the target, and the threshold reset clears the peak. */
  lemma StepStaysAboveEnvelope(bar: Frequency, band: real, current: real, later: real, dt: real, c: PC.PeakSmoothing)
    requires c.decayLimit > 0.0 && current <= later
    requires InUnitRange(bar.value) && InUnitRange(bar.peak)
    requires AboveEnvelope(bar, current, c)
    ensures AboveEnvelope(Step(bar, band, current, dt, c), later, c)
  {
    var r := Step(bar, band, current, dt, c);
    StepAboveTarget(bar, band, current, dt, c);
    TargetShrinks(r, current, later, c);
  }

  // ---------------------------------------------------------------------
  // Several frames

  /** One frame per instant of `times`, each `dt` after the last, all
      seeing the same band. */
  function Frames(bar: Frequency, band: real, times: seq<real>, dt: real, c: PC.PeakSmoothing): Frequency
  {
    if |times| == 0 then bar
    else Step(Frames(bar, band, times[..|times| - 1], dt, c), band, times[|times| - 1], dt, c)
  }

  /** Where a ramp of `k` steps of `a` from `v` ends, before capping. */
  function Ramp(v: real, a: real, k: nat): (r: real)
    ensures a >= 0.0 ==> r >= v
  {
    if k == 0 then v else Ramp(v, a, k - 1) + a
  }

  /** A step up in the input ramps the bar by the attack step each frame,
      stopping exactly at the band. */
  lemma {:induction false} AttackRamp(bar: Frequency, band: real, times: seq<real>, dt: real, c: PC.PeakSmoothing)
    requires 0.0 <= bar.value <= band <= 1.0
    requires c.attackRate * dt > 0.0
    ensures Frames(bar, band, times, dt, c).value == Min(Ramp(bar.value, c.attackRate * dt, |times|), band)
  {
    if |times| > 0 {
      var k := |times|;
      var earlier := times[..k - 1];
      AttackRamp(bar, band, earlier, dt, c);
      var prev := Frames(bar, band, earlier, dt, c);
      RampStep(prev, band, times[k - 1], dt, c);
      CapThenStep(Ramp(bar.value, c.attackRate * dt, k - 1), c, dt, band);
    }
  }

  /** Capping before or after one more attack step ends in the same place. */
  lemma CapThenStep(x: real, c: PC.PeakSmoothing, dt: real, band: real)
    requires c.attackRate * dt > 0.0
    ensures Min(Min(x, band) + c.attackRate * dt, band) == Min(x + c.attackRate * dt, band)
  {
  }

  /** `k` steps of `a` add up to `k * a`. */
  lemma {:induction false} RampIsLinear(v: real, a: real, k: nat)
    ensures Ramp(v, a, k) == v + k as real * a
  {
    if k > 0 {
      RampIsLinear(v, a, k - 1);
      assert (k - 1) as real * a + a == k as real * a;
    }
  }

  /** One frame of the ramp: below or at the band, the value moves by one
      attack step, capped at the band. */
  lemma RampStep(bar: Frequency, band: real, current: real, dt: real, c: PC.PeakSmoothing)
    requires 0.0 <= bar.value <= band <= 1.0
    requires c.attackRate * dt > 0.0
    ensures Step(bar, band, current, dt, c).value == Min(bar.value + c.attackRate * dt, band)
  {
  }

  /** The bar reaches the band after enough frames to cover the gap. */
  lemma {:induction false} AttackReachesBand(bar: Frequency, band: real, times: seq<real>, dt: real, c: PC.PeakSmoothing)
    requires 0.0 <= bar.value <= band <= 1.0
    requires c.attackRate * dt > 0.0
    requires Covers(|times|, c.attackRate * dt, band - bar.value)
    ensures Frames(bar, band, times, dt, c).value == band
  {
    AttackRamp(bar, band, times, dt, c);
    RampCovers(bar.value, c.attackRate * dt, |times|, band);
  }

  /** `k` steps of `a` cover a gap of `gap`. */
  predicate Covers(k: nat, a: real, gap: real)
  {
    k as real * a >= gap
  }

  lemma {:induction false} RampCovers(v: real, a: real, k: nat, band: real)
    requires Covers(k, a, band - v)
    ensures Min(Ramp(v, a, k), band) == band
  {
    RampIsLinear(v, a, k);
  }
}
