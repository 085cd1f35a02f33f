/** The windowing stage (`preprocess`): splits one interleaved stereo block
    into the two channels' FFT inputs, scaling both samples of pair `i` by
    the same taper factor `w(i)`. The cosine tapers themselves are
    parameters, selected by the configured window. */
module Preprocess {
  import PC = ProcessConfig

  /** The three taper functions of the older tree, indexed by the sample
      pair. */
  datatype Tapers = Tapers(hann: real -> real, hamming: real -> real, blackman: real -> real)

  /** The match on the configured window. */
  function Taper(t: Tapers, w: PC.Window): (f: real -> real)
    ensures w.Hann? ==> f == t.hann
    ensures w.Hamming? ==> f == t.hamming
    ensures w.Blackman? ==> f == t.blackman
  {
    match w
    case Hann => t.hann
    case Hamming => t.hamming
    case Blackman => t.blackman
  }

  /** The left (`side == 0`) or right (`side == 1`) channel of an
      interleaved block, each sample scaled by the taper at its pair
      index. */
  function Channel(samples: seq<real>, side: nat, f: real -> real): (r: seq<real>)
    requires |samples| % 2 == 0 && side < 2
    ensures |r| == |samples| / 2
  {
    seq(|samples| / 2, i requires 0 <= i < |samples| / 2 => samples[2 * i + side] * f(i as real))
  }

  /** `preprocess(samples, left, right, window)`: both FFT inputs are
      overwritten in full, so the result does not depend on what they held
      before. */
  function Split(samples: seq<real>, f: real -> real): (r: (seq<real>, seq<real>))
    requires |samples| % 2 == 0
    ensures |r.0| == |r.1| == |samples| / 2
  {
    (Channel(samples, 0, f), Channel(samples, 1, f))
  }

  /** Pair `i` of the block lands at index `i` of both channels, scaled by
      the same factor `f(i)`. */
  lemma SplitAt(samples: seq<real>, f: real -> real, n: nat, i: nat)
    requires |samples| == 2 * n && i < n
    ensures |samples| % 2 == 0 && |Split(samples, f).0| == n
    ensures Split(samples, f).0[i] == samples[2 * i] * f(i as real)
    ensures Split(samples, f).1[i] == samples[2 * i + 1] * f(i as real)
  {
    assert |samples| / 2 == n;
  }

  /** Pairs two channels back into one interleaved block. */
  function Interleave(left: seq<real>, right: seq<real>): (r: seq<real>)
    requires |left| == |right|
    ensures |r| == 2 * |left|
    ensures forall i :: 0 <= i < |left| ==> r[2 * i] == left[i] && r[2 * i + 1] == right[i]
  {
    if |left| == 0 then []
    else Interleave(left[..|left| - 1], right[..|right| - 1]) + [left[|left| - 1], right[|right| - 1]]
  }

  /** With a unit taper the split is lossless: interleaving the two channels
      gives back the block. */
  lemma SplitRoundTrip(samples: seq<real>, f: real -> real)
    requires |samples| % 2 == 0
    requires forall x :: f(x) == 1.0
    ensures var r := Split(samples, f);
            Interleave(r.0, r.1) == samples
  {
    var n := |samples| / 2;
    var r := Split(samples, f);
    var back := Interleave(r.0, r.1);
    forall k | 0 <= k < |samples|
      ensures back[k] == samples[k]
    {
      var i := k / 2;
      SplitAt(samples, f, n, i);
      if k % 2 == 0 {
        assert k == 2 * i;
        assert back[2 * i] == r.0[i];
      } else {
        assert k == 2 * i + 1;
        assert back[2 * i + 1] == r.1[i];
      }
    }
  }

  /** Splitting an interleaved pair of channels with a unit taper recovers
      them. */
  lemma InterleaveRoundTrip(left: seq<real>, right: seq<real>, f: real -> real)
    requires |left| == |right|
    requires forall x :: f(x) == 1.0
    ensures Split(Interleave(left, right), f) == (left, right)
  {
    SplitsInto(left, right, Interleave(left, right), f);
  }

  lemma SplitsInto(left: seq<real>, right: seq<real>, s: seq<real>, f: real -> real)
    requires |left| == |right| && |s| == 2 * |left|
    requires forall i :: 0 <= i < |left| ==> s[2 * i] == left[i] && s[2 * i + 1] == right[i]
    requires forall x :: f(x) == 1.0
    ensures |s| % 2 == 0
    ensures Split(s, f) == (left, right)
  {
    var n := |left|;
    var r := Split(s, f);
    forall i | 0 <= i < n
      ensures r.0[i] == left[i] && r.1[i] == right[i]
    {
      SplitAt(s, f, n, i);
    }
    assert r.0 == left && r.1 == right;
  }

  /** A silent block stays silent under every taper. */
  lemma SilenceStaysSilent(samples: seq<real>, f: real -> real)
    requires |samples| % 2 == 0
    requires forall k :: 0 <= k < |samples| ==> samples[k] == 0.0
    ensures var r := Split(samples, f);
            (forall i :: 0 <= i < |r.0| ==> r.0[i] == 0.0) && (forall i :: 0 <= i < |r.1| ==> r.1[i] == 0.0)
  {
    var r := Split(samples, f);
    forall i | 0 <= i < |r.0|
      ensures r.0[i] == 0.0 && r.1[i] == 0.0
    {
      SplitAt(samples, f, |samples| / 2, i);
    }
  }
}
