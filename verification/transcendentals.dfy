/** The `f32` library functions the analysis pipeline calls (`sqrt`,
    `log10`, `ln`, `powf`, `sinh`), bundled as parameters. Nothing about them
    is assumed by default; each property that needs one of the facts below
    takes it as a precondition. */
module Transcendentals {

  datatype Functions = Functions(
    sqrt: real -> real,
    log10: real -> real,
    ln: real -> real,
    powf: (real, real) -> real,
    sinh: real -> real)

  ghost predicate Increasing(f: real -> real)
  {
    forall x, y :: x < y ==> f(x) < f(y)
  }

  /** Strictly increasing on the positive reals, where `ln` and `log10` are
      defined. */
  ghost predicate IncreasingOnPositives(f: real -> real)
  {
    forall x, y :: 0.0 < x < y ==> f(x) < f(y)
  }

  /** `sqrt` of a non-negative number is non-negative. */
  ghost predicate SqrtNonNegative(sqrt: real -> real)
  {
    forall x :: x >= 0.0 ==> sqrt(x) >= 0.0
  }

  /** `sqrt` grows strictly on the non-negative reals. */
  ghost predicate SqrtIncreasing(m: Functions)
  {
    forall x, y :: 0.0 <= x < y ==> m.sqrt(x) < m.sqrt(y)
  }

  /** `10^x` grows strictly with `x`. */
  ghost predicate PowTenIncreasing(m: Functions)
  {
    forall x, y :: x < y ==> m.powf(10.0, x) < m.powf(10.0, y)
  }

  /** `10^(log10 x) == x` for positive `x`. */
  ghost predicate PowTenInvertsLog10(m: Functions)
  {
    forall x :: x > 0.0 ==> m.powf(10.0, m.log10(x)) == x
  }

  /** `asinh x`, written as `ln(x + sqrt(x² + 1))`. */
  function Asinh(m: Functions, x: real): real
  {
    m.ln(x + m.sqrt(x * x + 1.0))
  }

  /** `sinh(asinh x) == x`. */
  ghost predicate SinhInvertsAsinh(m: Functions)
  {
    forall x :: m.sinh(Asinh(m, x)) == x
  }

  /** `a^(1/n)`. */
  function Root(m: Functions, a: real, n: nat): real
    requires n >= 1
  {
    m.powf(a, 1.0 / n as real)
  }

  /** `(a^(1/n))^n == a` for positive `a` and `n >= 1`. */
  ghost predicate RootThenPower(m: Functions)
  {
    forall a: real, n: nat :: a > 0.0 && n >= 1 ==> m.powf(Root(m, a, n), n as real) == a
  }

  /** `x^0 == 1`. */
  ghost predicate PowZero(m: Functions)
  {
    forall b :: m.powf(b, 0.0) == 1.0
  }

  /** For a base above one, `b^x` is positive and grows strictly with `x`. */
  ghost predicate PowGrows(m: Functions)
  {
    forall b, x, y :: b > 1.0 && x < y ==> 0.0 < m.powf(b, x) < m.powf(b, y)
  }

  /** A positive power of a number above one is above one. */
  ghost predicate PowAboveOne(m: Functions)
  {
    forall a, e :: a > 1.0 && e > 0.0 ==> m.powf(a, e) > 1.0
  }

  /** Every fact above at once: what the real functions satisfy and what the
      band-edge properties rely on. */
  ghost predicate Standard(m: Functions)
  {
    && Increasing(m.sinh)
    && IncreasingOnPositives(m.log10)
    && IncreasingOnPositives(m.ln)
    && SqrtNonNegative(m.sqrt)
    && SqrtIncreasing(m)
    && PowTenIncreasing(m)
    && PowTenInvertsLog10(m)
    && SinhInvertsAsinh(m)
    && RootThenPower(m)
    && PowZero(m)
    && PowGrows(m)
    && PowAboveOne(m)
  }
}
