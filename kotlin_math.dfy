/** Kotlin's integer and conversion arithmetic where it differs from
    Dafny's: division truncates toward zero, and `Double.toInt` saturates
    at the bounds of `Int`. */
module KotlinMath {
  const INT_MAX: int := 0x7fff_ffff
  const INT_MIN: int := -0x8000_0000

  /** `a / b` on `Int`/`Long`, and `toInt` of a real quotient: truncated
      toward zero. */
  function TruncDiv(a: int, b: int): (q: int)
    requires b != 0
    ensures 0 <= a && 0 < b ==> q == a / b
    ensures a < 0 && 0 < b ==> q == -((-a) / b)
  {
    var q := (if a < 0 then -a else a) / (if b < 0 then -b else b);
    if (a < 0) != (b < 0) then -q else q
  }

  /** A negative dividend that is smaller than the divisor in size gives 0,
      where Dafny's Euclidean division gives -1. */
  lemma TruncatesTowardZero(a: int, b: int)
    requires 0 < b && -b < a < 0
    ensures TruncDiv(a, b) == 0 && a / b == -1
  {
    var q, r := a / b, a % b;
    assert a == q * b + r && 0 <= r < b;
    if q >= 0 {
      MulSign(q, b);
    } else if q <= -2 {
      MulSign(q + 2, b);
    }
    var n := -a;
    var qn, rn := n / b, n % b;
    assert n == qn * b + rn && 0 <= rn < b;
    if qn >= 1 {
      MulSign(qn - 1, b);
    } else if qn < 0 {
      MulSign(-qn - 1, b);
    }
  }

  lemma MulSign(x: int, b: int)
    requires x >= 0 && b > 0
    ensures x * b >= 0
  {
  }

  /** `Double.toInt`: out-of-range values saturate. */
  function Saturate(x: int): (r: int)
    ensures INT_MIN <= r <= INT_MAX
    ensures INT_MIN <= x <= INT_MAX ==> r == x
    ensures x > INT_MAX ==> r == INT_MAX
    ensures x < INT_MIN ==> r == INT_MIN
  {
    if x > INT_MAX then INT_MAX else if x < INT_MIN then INT_MIN else x
  }
}
