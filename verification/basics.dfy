/**
 Small building blocks shared by the rest of the model: an optional value,
 the integer percentages the reveal sliders produce, and JavaScript's
 remainder operator, which truncates toward zero where Dafny's is Euclidean.
 */
module Basics {

  /** A value that may be absent (JavaScript's `undefined` / React's `null` render). */
  datatype Option<+T> = None | Some(value: T)

  /** A reveal-slider position: the slider has range 0..100 and step 1. */
  type Percent = v: int | 0 <= v <= 100

  /**
   JavaScript's `a % n` for a positive divisor: the result takes the sign of
   the dividend, so it can differ from Dafny's `%` only when `a` is negative.
   */
  function JsRem(a: int, n: int): (r: int)
    requires n > 0
    ensures a >= 0 ==> 0 <= r < n
    ensures a < 0 ==> -n < r <= 0
    ensures (a - r) % n == 0
  {
    if a >= 0 then
      DivModUnique(a - a % n, n, a / n, 0);
      a % n
    else
      DivModUnique(a + (-a) % n, n, -((-a) / n), 0);
      -((-a) % n)
  }

  /** Multiplication distributes over subtraction. */
  lemma MulSubDistributes(a: int, b: int, n: int)
    ensures (a - b) * n == a * n - b * n
  {
  }

  /** A positive multiple of a positive `n` is at least `n`. */
  lemma MulAtLeast(k: int, n: int)
    requires k >= 1 && n > 0
    ensures k * n >= n
  {
  }

  /** Division by a positive `n` has exactly one quotient and remainder. */
  lemma DivModUnique(a: int, n: int, q: int, r: int)
    requires n > 0 && 0 <= r < n && a == q * n + r
    ensures a / n == q && a % n == r
  {
    var q', r' := a / n, a % n;
    assert a == q' * n + r';
    MulSubDistributes(q, q', n);
    if q > q' {
      MulAtLeast(q - q', n);
    } else if q < q' {
      MulAtLeast(q' - q, n);
      MulSubDistributes(q', q, n);
    }
  }
}
