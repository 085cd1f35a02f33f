/** Magnitude extraction (`calculate_magnitudes`): turns the packed real
    spectrum of one channel into bin magnitudes. The packed layout read here
    is DC at index 0, then (re, im) pairs, then Nyquist at the last index.
    The square root is a parameter; only its sign matters to the
    properties. */
module Magnitudes {
  import opened Common
  import opened Transcendentals

  /** `nyquist / 2 + 1` bins for a packed spectrum of length `nyquist`. */
  function Bins(n: nat): nat { n / 2 + 1 }

  /** `(|re|^2 + |im|^2).sqrt()` for one complex bin. */
  function PairMagnitude(re: real, im: real, sqrt: real -> real): real
  {
    sqrt(Abs(re) * Abs(re) + Abs(im) * Abs(im))
  }

  /** The magnitude of bin `k` of the packed spectrum `raw`, as the loop
      computes it. */
  function BinMagnitude(raw: seq<real>, k: nat, sqrt: real -> real): real
    requires |raw| >= 2 && k < Bins(|raw|)
  {
    if k == 0 then Abs(raw[0])
    else if k < Bins(|raw|) - 1 then PairMagnitude(raw[2 * k - 1], raw[2 * k], sqrt)
    else Abs(raw[|raw| - 1])
  }

  /** `calculate_magnitudes(magnitudes, raw)`. The source indexes `raw[0]`
      and computes `bins - 2` in `usize`, so it needs at least two packed
      values, and it writes `magnitudes[bins - 1]`, so the output must hold
      all bins. Entries past the last bin are left as they were. */
  function CalculateMagnitudes(magnitudes: seq<real>, raw: seq<real>, sqrt: real -> real): (r: seq<real>)
    requires |raw| >= 2
    requires |magnitudes| >= Bins(|raw|)
    ensures |r| == |magnitudes|
    ensures r[0] == Abs(raw[0])
    ensures r[Bins(|raw|) - 1] == Abs(raw[|raw| - 1])
    ensures forall k :: 0 < k < Bins(|raw|) - 1 ==>
              r[k] == PairMagnitude(raw[2 * k - 1], raw[2 * k], sqrt)
    ensures forall j :: Bins(|raw|) <= j < |magnitudes| ==> r[j] == magnitudes[j]
  {
    var bins := Bins(|raw|);
    seq(|magnitudes|, j requires 0 <= j < |magnitudes| =>
      if j < bins then BinMagnitude(raw, j, sqrt) else magnitudes[j])
  }

  /** Every bin that is written holds a non-negative magnitude. */
  lemma WrittenBinsNonNegative(magnitudes: seq<real>, raw: seq<real>, sqrt: real -> real)
    requires |raw| >= 2 && |magnitudes| >= Bins(|raw|)
    requires SqrtNonNegative(sqrt)
    ensures forall j :: 0 <= j < Bins(|raw|) ==> CalculateMagnitudes(magnitudes, raw, sqrt)[j] >= 0.0
  {
    var r := CalculateMagnitudes(magnitudes, raw, sqrt);
    forall j | 0 <= j < Bins(|raw|)
      ensures r[j] >= 0.0
    {
      if 0 < j < Bins(|raw|) - 1 {
        var re := Abs(raw[2 * j - 1]);
        var im := Abs(raw[2 * j]);
        assert re * re + im * im >= 0.0;
      }
    }
  }

  /** The bin that reads packed value `idx`: DC, the pair it belongs to, or
      Nyquist. */
  function BinOf(n: nat, idx: nat): nat
    requires n >= 2 && idx < n
  {
    if idx == 0 then 0 else if idx == n - 1 then Bins(n) - 1 else (idx + 1) / 2
  }

  /** For an even spectrum length (every supported FFT size), each packed
      value feeds exactly one bin: changing it changes that bin's magnitude
      at most and no other entry of the output. */
  lemma EachValueFeedsOneBin(magnitudes: seq<real>, raw: seq<real>, sqrt: real -> real, idx: nat, v: real)
    requires |raw| >= 2 && |raw| % 2 == 0 && |magnitudes| >= Bins(|raw|)
    requires idx < |raw|
    ensures BinOf(|raw|, idx) < Bins(|raw|)
    ensures forall j :: 0 <= j < |magnitudes| && j != BinOf(|raw|, idx) ==>
              CalculateMagnitudes(magnitudes, raw[idx := v], sqrt)[j] == CalculateMagnitudes(magnitudes, raw, sqrt)[j]
  {
    var n := |raw|;
    var raw' := raw[idx := v];
    forall j | 0 <= j < |magnitudes| && j != BinOf(n, idx)
      ensures CalculateMagnitudes(magnitudes, raw', sqrt)[j] == CalculateMagnitudes(magnitudes, raw, sqrt)[j]
    {
      if j < Bins(n) {
        if j == 0 {
          assert idx != 0;
          assert BinMagnitude(raw', j, sqrt) == BinMagnitude(raw, j, sqrt);
        } else if j < Bins(n) - 1 {
          assert 2 * j - 1 != idx && 2 * j != idx;
          assert raw'[2 * j - 1] == raw[2 * j - 1] && raw'[2 * j] == raw[2 * j];
          assert BinMagnitude(raw', j, sqrt) == BinMagnitude(raw, j, sqrt);
        } else {
          assert idx != n - 1;
          assert BinMagnitude(raw', j, sqrt) == BinMagnitude(raw, j, sqrt);
        }
      }
    }
  }

  /** A spectrum whose only energy lies in the components of bin `k` yields
      zero magnitude in every other bin. */
  lemma EnergyStaysInItsBin(magnitudes: seq<real>, raw: seq<real>, sqrt: real -> real, k: nat)
    requires |raw| >= 2 && |raw| % 2 == 0 && |magnitudes| >= Bins(|raw|)
    requires sqrt(0.0) == 0.0
    requires k < Bins(|raw|)
    requires forall idx :: 0 <= idx < |raw| && BinOf(|raw|, idx) != k ==> raw[idx] == 0.0
    ensures forall j :: 0 <= j < Bins(|raw|) && j != k ==> CalculateMagnitudes(magnitudes, raw, sqrt)[j] == 0.0
  {
    var n := |raw|;
    forall j | 0 <= j < Bins(n) && j != k
      ensures CalculateMagnitudes(magnitudes, raw, sqrt)[j] == 0.0
    {
      if j == 0 {
        assert BinOf(n, 0) == 0;
      } else if j < Bins(n) - 1 {
        assert BinOf(n, 2 * j - 1) == j && BinOf(n, 2 * j) == j;
      } else {
        assert BinOf(n, n - 1) == j;
      }
    }
  }
}
