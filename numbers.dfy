/** Integer arithmetic that the pages spell with floating-point division and `Math.ceil`. */
module Numbers {

  /** `Math.ceil(n / d)` for a positive divisor, as an integer. */
  function CeilDiv(n: int, d: int): (r: int)
    requires d > 0
    ensures d * (r - 1) < n <= d * r
  {
    if n % d == 0 then n / d else n / d + 1
  }

  /** Multiplying by the same positive factor keeps a strict order. */
  lemma MulCancel(a: int, b: int, c: int)
    requires c > 0 && a * c < b * c
    ensures a < b
  {
    assert (b - a) * c == b * c - a * c;
  }
}
