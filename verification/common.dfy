/** Shared vocabulary: optional and panicking results, and the handful of
    numeric helpers (clamps, floor/ceil, saturating integer casts, sums) that
    the pipeline stages use. Reals stand for `f32`; NaN and infinities are
    not modelled unless a stage says otherwise. */
module Common {

  /** Rust's `Option`. */
  datatype Option<+T> = None | Some(value: T)

  /** The outcome of an operation that can panic in the source (an index out of
      bounds, an unsigned subtraction below zero, an arithmetic overflow in a
      debug build). */
  datatype Checked<+T> = Ok(value: T) | Panic

  /** The values of a run of checked steps, or `Panic` as soon as any step
      panics. */
  function Collect<T>(cs: seq<Checked<T>>): (r: Checked<seq<T>>)
    ensures r.Ok? <==> forall i :: 0 <= i < |cs| ==> cs[i].Ok?
    ensures r.Ok? ==> |r.value| == |cs| && forall i :: 0 <= i < |cs| ==> cs[i] == Ok(r.value[i])
  {
    if |cs| == 0 then Ok([])
    else
      match Collect(cs[..|cs| - 1])
      case Panic => Panic
      case Ok(vs) => if cs[|cs| - 1].Panic? then Panic else Ok(vs + [cs[|cs| - 1].value])
  }

  function Min(a: real, b: real): real { if a <= b then a else b }
  function Max(a: real, b: real): real { if a >= b then a else b }
  function MinInt(a: int, b: int): int { if a <= b then a else b }
  function MaxInt(a: int, b: int): int { if a >= b then a else b }

  /** `f32::clamp(x, lo, hi)` for `lo <= hi`. */
  function Clamp(x: real, lo: real, hi: real): (r: real)
    requires lo <= hi
    ensures lo <= r <= hi
    ensures lo <= x <= hi ==> r == x
  {
    if x < lo then lo else if x > hi then hi else x
  }

  /** `f32::abs`. */
  function Abs(x: real): (r: real)
    ensures r >= 0.0
    ensures r == x || r == -x
  {
    if x < 0.0 then -x else x
  }

  function Floor(x: real): int { x.Floor }

  function Ceil(x: real): (r: int)
    ensures x <= r as real < x + 1.0
  {
    -((-x).Floor)
  }

  /** `f as usize` for a float that has already been floored or ceiled: the
      cast saturates, so a negative value becomes 0. (Saturation at
      `usize::MAX` is absorbed by the `min` every caller applies.) */
  function CastUsize(x: int): nat { if x < 0 then 0 else x }

  /** `usize::saturating_sub`. */
  function SaturatingSub(a: nat, b: nat): nat { if a >= b then a - b else 0 }

  /** `Instant::duration_since`, with instants as seconds on a real line: it
      saturates to zero when `earlier` is actually later. */
  function Elapsed(later: real, earlier: real): (r: real)
    ensures r >= 0.0
    ensures later >= earlier ==> r == later - earlier
  {
    if later >= earlier then later - earlier else 0.0
  }

  /** `iter().sum::<f32>()`. */
  function Sum(s: seq<real>): real
  {
    if |s| == 0 then 0.0 else Sum(s[..|s| - 1]) + s[|s| - 1]
  }

  predicate AllNonNegative(s: seq<real>)
  {
    forall i :: 0 <= i < |s| ==> s[i] >= 0.0
  }

  lemma {:induction false} SumNonNegative(s: seq<real>)
    requires AllNonNegative(s)
    ensures Sum(s) >= 0.0
  {
    if |s| > 0 {
      SumNonNegative(s[..|s| - 1]);
    }
  }

  /** The sum of `n` copies of `c` is `n * c`. */
  lemma {:induction false} SumConstant(s: seq<real>, c: real)
    requires forall i :: 0 <= i < |s| ==> s[i] == c
    ensures Sum(s) == |s| as real * c
  {
    if |s| > 0 {
      SumConstant(s[..|s| - 1], c);
    }
  }

  /** A sum is bounded by its length times any bound on its elements. */
  lemma {:induction false} SumBounds(s: seq<real>, lo: real, hi: real)
    requires forall i :: 0 <= i < |s| ==> lo <= s[i] <= hi
    ensures |s| as real * lo <= Sum(s) <= |s| as real * hi
  {
    if |s| > 0 {
      SumBounds(s[..|s| - 1], lo, hi);
    }
  }

  /** Extending a sequence by one element adds that element to its sum. */
  lemma SumAppend(s: seq<real>, x: real)
    ensures Sum(s + [x]) == Sum(s) + x
  {
    assert (s + [x])[..|s|] == s;
  }
}
