/** JavaScript's `Math.round`, `Math.floor` and `Math.ceil` over exact reals.
    The views compute ratios in double precision; this model computes them
    exactly, so only the rounding rules themselves are kept. */
module JsNumber {

  /** `Math.round(x)`: the nearest integer, halves rounded up (towards +inf). */
  function Round(x: real): (r: int)
    ensures x - 0.5 < r as real <= x + 0.5
  {
    (x + 0.5).Floor
  }

  /** `Math.round(x * 10) / 10`: `x` to one decimal place, that is the whole
      number of tenths nearest to `x`, halves rounded up. */
  function Round1(x: real): (r: real)
    ensures x - 0.05 < r <= x + 0.05
    ensures (r * 10.0).Floor as real == r * 10.0
  {
    Round(x * 10.0) as real / 10.0
  }

  /** A whole number rounds to itself at one decimal. */
  lemma Round1OfInt(n: int)
    ensures Round1(n as real) == n as real
  {
    assert n as real * 10.0 == (10 * n) as real;
    RoundOfInt(10 * n);
  }

  /** `Math.ceil(a / b)` for a positive divisor. */
  function CeilDiv(a: int, b: int): (q: int)
    requires b > 0
    ensures (q - 1) * b < a <= q * b
  {
    (a + b - 1) / b
  }

  /** `Math.floor(a / b)` for a positive divisor (Dafny's `/` already floors). */
  function FloorDiv(a: int, b: int): (q: int)
    requires b > 0
    ensures q * b <= a < (q + 1) * b
  {
    a / b
  }

  /** Rounding is monotone: a larger value never rounds to a smaller integer. */
  lemma RoundMonotone(x: real, y: real)
    requires x <= y
    ensures Round(x) <= Round(y)
  {
  }

  /** An integer rounds to itself. */
  lemma RoundOfInt(n: int)
    ensures Round(n as real) == n
  {
  }
}
