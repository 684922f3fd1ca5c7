/**
 * The integer semantics of the C code: the ranges of `int` and `long long`
 * under the LP64 data model, which is assumed, and division and remainder
 * that truncate toward zero (Dafny's own `/` and `%` are Euclidean).
 */
module CInt {

  const INT_MIN: int := -0x8000_0000
  const INT_MAX: int := 0x7fff_ffff
  const LLONG_MIN: int := -0x8000_0000_0000_0000
  const LLONG_MAX: int := 0x7fff_ffff_ffff_ffff

  /** `x` is representable in a 32-bit C `int`. */
  predicate IsInt(x: int) {
    INT_MIN <= x <= INT_MAX
  }

  /** `x` is representable in a 64-bit C `long long` (and `long`). */
  predicate IsLongLong(x: int) {
    LLONG_MIN <= x <= LLONG_MAX
  }

  /** C's `a / b` for a positive divisor: the quotient rounded toward zero. */
  function CDiv(a: int, b: int): (q: int)
    requires b > 0
    ensures a >= 0 ==> 0 <= a - q * b < b
    ensures a < 0 ==> -b < a - q * b <= 0
    ensures a >= 0 ==> 0 <= q <= a
    ensures a < 0 ==> a <= q <= 0
  {
    DivBounds(if a >= 0 then a else -a, b);
    if a >= 0 then a / b else -((-a) / b)
  }

  /** Euclidean division of a natural number by a positive divisor. */
  lemma DivBounds(n: int, b: int)
    requires n >= 0 && b > 0
    ensures 0 <= n - (n / b) * b < b
    ensures 0 <= n / b <= n
  {
    var q, r := n / b, n % b;
    assert n == q * b + r && 0 <= r < b;
    if q < 0 {
      MulMonotone(q, -1, b);
      assert false;
    }
    MulMonotone(1, b, q);
  }

  /** Multiplying by a non-negative number preserves `<=`. */
  lemma MulMonotone(x: int, y: int, c: int)
    requires x <= y && c >= 0
    ensures x * c <= y * c
  {
    assert y * c - x * c == (y - x) * c;
  }

  /** C's `a % b` for a positive divisor: the remainder takes the sign of `a`. */
  function CMod(a: int, b: int): (r: int)
    requires b > 0
    ensures a >= 0 ==> r == a % b
    ensures a < 0 ==> -b < r <= 0
    ensures r == a - CDiv(a, b) * b
  {
    a - CDiv(a, b) * b
  }

  /** Truncation and Euclidean division part ways on negative dividends. */
  lemma NegativeDividends()
    ensures CDiv(-1, 10) == 0 && -1 / 10 == -1
    ensures CMod(-1, 10) == -1 && -1 % 10 == 9
    ensures CDiv(-251399, 1000) == -251 && -251399 / 1000 == -252
  {
  }

  /** Quotient and remainder of a negative dividend mirror those of its magnitude. */
  lemma CDivOdd(a: int, b: int)
    requires b > 0
    ensures CDiv(-a, b) == -CDiv(a, b)
    ensures CMod(-a, b) == -CMod(a, b)
  {
  }
}
