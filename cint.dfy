/** Integer division and remainder as C and C++ compute them on `int`:
    the quotient is truncated toward zero and the remainder takes the sign
    of the dividend. Dafny's own `/` and `%` are Euclidean, so they differ
    from these for a negative dividend. */
module CInt {

  /** `a / b` in C++ for a positive divisor. */
  function Div(a: int, b: int): (q: int)
    requires b > 0
    ensures 0 <= a ==> 0 <= a - q * b < b
    ensures a < 0 ==> -b < a - q * b <= 0
  {
    if 0 <= a then a / b else -((-a) / b)
  }

  /** `a % b` in C++ for a positive divisor. */
  function Rem(a: int, b: int): (r: int)
    requires b > 0
    ensures a == Div(a, b) * b + r
    ensures 0 <= a ==> 0 <= r < b
    ensures a < 0 ==> -b < r <= 0
  {
    a - Div(a, b) * b
  }

  /** For a non-negative dividend the C operators agree with Dafny's. */
  lemma AgreeOnNonNegative(a: int, b: int)
    requires 0 <= a && b > 0
    ensures Div(a, b) == a / b && Rem(a, b) == a % b
  {
  }
}
