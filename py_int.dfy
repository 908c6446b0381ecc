/** Python's integer operators `//`, `%` and `**`, as the calculator's operator table
    (`operator.floordiv`, `operator.mod`, `operator.pow`) applies them to two ints.
    Python rounds the quotient toward negative infinity and gives the remainder the
    sign of the divisor; Dafny's `/` and `%` are Euclidean, so both are written out. */
module PyInt {

  function Abs(x: int): (r: nat)
    ensures r == x || r == -x
  {
    if x < 0 then -x else x
  }

  /** `a // b`: the largest `q` with `q * b <= a` when `b > 0`, mirrored when `b < 0`. */
  function FloorDiv(a: int, b: int): (q: int)
    requires b != 0
    ensures b > 0 ==> q * b <= a < q * b + b
    ensures b < 0 ==> q * b + b < a <= q * b
  {
    if b > 0 then a / b else (-a) / (-b)
  }

  /** `a % b`: what remains after `a // b`; zero or of the sign of `b`, smaller than `b` in size. */
  function FloorMod(a: int, b: int): (m: int)
    requires b != 0
    ensures a == FloorDiv(a, b) * b + m
    ensures b > 0 ==> 0 <= m < b
    ensures b < 0 ==> b < m <= 0
  {
    if b > 0 then a % b else -((-a) % (-b))
  }

  /** The floor quotient is the only integer with the bracketing property of `FloorDiv`. */
  lemma FloorDivUnique(a: int, b: int, q: int)
    requires b != 0
    requires b > 0 ==> q * b <= a < q * b + b
    requires b < 0 ==> q * b + b < a <= q * b
    ensures q == FloorDiv(a, b)
  {
    var f := FloorDiv(a, b);
    if b > 0 {
      assert (q - f) * b == q * b - f * b && (f - q) * b == f * b - q * b;
      SmallMultiple(q - f, b);
      SmallMultiple(f - q, b);
    } else {
      assert (q - f) * -b == f * b - q * b && (f - q) * -b == q * b - f * b;
      SmallMultiple(q - f, -b);
      SmallMultiple(f - q, -b);
    }
  }

  /** A multiple of a positive `c` that is smaller than `c` is a multiple by less than one. */
  lemma SmallMultiple(x: int, c: int)
    requires c > 0
    ensures x * c < c ==> x < 1
  {
    if x >= 1 {
      MulMonotone(1, x, c);
    }
  }

  lemma MulMonotone(x: int, y: int, c: nat)
    requires x <= y
    ensures x * c <= y * c
  {
  }

  /** The remainder is zero or has the sign of the divisor, and is smaller than it in size. */
  lemma FloorModSignAndSize(a: int, b: int)
    requires b != 0
    ensures FloorMod(a, b) == 0 || (FloorMod(a, b) > 0 <==> b > 0)
    ensures Abs(FloorMod(a, b)) < Abs(b)
  {
  }

  /** `a ** n` for a non-negative exponent; `0 ** 0` is 1 as in Python. */
  function Power(a: int, n: nat): (r: int)
    ensures n == 0 ==> r == 1
    ensures a > 0 ==> r > 0
    ensures a != 0 ==> r != 0
    ensures a == 0 && n > 0 ==> r == 0
  {
    if n == 0 then 1 else a * Power(a, n - 1)
  }

  /** Exponents add: the law that makes `(a ** m) * (a ** n)` and `a ** (m + n)` agree. */
  lemma {:induction false} PowerAdd(a: int, m: nat, n: nat)
    ensures Power(a, m + n) == Power(a, m) * Power(a, n)
  {
    if m > 0 {
      PowerAdd(a, m - 1, n);
      assert Power(a, m + n) == a * Power(a, m - 1 + n);
    }
  }

  /** Python and Dafny disagree once the divisor is negative: `7 // -2 == -4` and `7 % -2 == -1`,
      while Dafny's Euclidean `7 / -2` is -3 and `7 % -2` is 1. */
  lemma NegativeDivisorExample()
    ensures FloorDiv(7, -2) == -4 && FloorMod(7, -2) == -1
    ensures 7 / -2 == -3 && 7 % -2 == 1
  {
  }
}
