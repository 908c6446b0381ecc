/** The Python string operations the calculator's editing buffer relies on: `str.strip()`
    with no argument, and `str()` of an integer (with its inverse, `int()` of a canonical
    decimal numeral, and the limit on how many digits it writes). */
module Text {
  import PyInt

  /** `str.isspace()` for one character: the ASCII controls tab to carriage return and the
      four separators U+001C to U+001F, the space, NEL, NO-BREAK SPACE and Unicode's other
      space separators, LINE SEPARATOR and PARAGRAPH SEPARATOR. */
  predicate IsSpace(c: char) {
    || '\t' <= c <= '\r'
    || '\U{1C}' <= c <= ' '
    || c == '\U{85}' || c == '\U{A0}' || c == '\U{1680}'
    || '\U{2000}' <= c <= '\U{200A}'
    || c == '\U{2028}' || c == '\U{2029}' || c == '\U{202F}' || c == '\U{205F}' || c == '\U{3000}'
  }

  /** Among the ASCII characters, the whitespace is exactly tab, line feed, vertical tab, form
      feed, carriage return, the four information separators and the space. */
  lemma AsciiSpaces(c: char)
    ensures IsSpace(c) && c < '\U{80}' <==> c in "\t\n\U{B}\U{C}\r\U{1C}\U{1D}\U{1E}\U{1F} "
  {
  }

  predicate AllSpace(s: string) {
    forall i :: 0 <= i < |s| ==> IsSpace(s[i])
  }

  /** How many whitespace characters `s` starts with. */
  function LeadingSpaces(s: string): (k: nat)
    ensures k <= |s|
    ensures forall i :: 0 <= i < k ==> IsSpace(s[i])
    ensures k < |s| ==> !IsSpace(s[k])
  {
    if s == [] || !IsSpace(s[0]) then 0 else 1 + LeadingSpaces(s[1..])
  }

  /** How many whitespace characters `s` ends with. */
  function TrailingSpaces(s: string): (k: nat)
    ensures k <= |s|
    ensures forall i :: |s| - k <= i < |s| ==> IsSpace(s[i])
    ensures k < |s| ==> !IsSpace(s[|s| - 1 - k])
  {
    if s == [] || !IsSpace(s[|s| - 1]) then 0 else 1 + TrailingSpaces(s[..|s| - 1])
  }

  /** `s.strip()`: `s` without its leading and trailing whitespace. Only whitespace is
      removed, the result is empty exactly when `s` is all whitespace, and otherwise it
      starts and ends with a character that is not whitespace. */
  function Strip(s: string): (r: string)
    ensures LeadingSpaces(s) + |r| <= |s|
    ensures r == s[LeadingSpaces(s)..LeadingSpaces(s) + |r|]
    ensures AllSpace(s[..LeadingSpaces(s)]) && AllSpace(s[LeadingSpaces(s) + |r|..])
    ensures r == [] <==> AllSpace(s)
    ensures r != [] ==> !IsSpace(r[0]) && !IsSpace(r[|r| - 1])
  {
    var lo := LeadingSpaces(s);
    if lo == |s| then [] else s[lo..|s| - TrailingSpaces(s)]
  }

  /** Stripping twice is stripping once. */
  lemma StripIdempotent(s: string)
    ensures Strip(Strip(s)) == Strip(s)
  {
  }

  predicate IsDigit(c: char) {
    '0' <= c <= '9'
  }

  function DigitChar(d: nat): (c: char)
    requires d < 10
    ensures IsDigit(c)
  {
    (d + '0' as int) as char
  }

  function DigitValue(c: char): (d: nat)
    requires IsDigit(c)
    ensures d < 10 && DigitChar(d) == c
  {
    (c as int - '0' as int)
  }

  /** `str(n)` for `n >= 0`: decimal digits, with no leading zero unless the number is 0. */
  function NatToDecimal(n: nat): (s: string)
    ensures IsNatNumeral(s)
  {
    if n < 10 then [DigitChar(n)] else NatToDecimal(n / 10) + [DigitChar(n % 10)]
  }

  /** `str(n)` for any integer: a minus sign in front of a negative number's digits. */
  function IntToDecimal(n: int): (s: string)
    ensures IsIntNumeral(s)
    ensures s[0] == '-' <==> n < 0
  {
    if n < 0 then "-" + NatToDecimal(-n) else NatToDecimal(n)
  }

  /** The most digits `str()` writes for an int: CPython's default `sys.int_max_str_digits`
      (3.11 and later, and the security releases of 3.7 to 3.10). Converting an int with
      more digits raises ValueError. */
  const MaxStrDigits: nat := 4300

  /** How many decimal digits `n` has, its sign not counted. */
  function DigitCount(n: int): (k: nat)
    ensures k >= 1 && (n < 0 ==> k == |IntToDecimal(n)| - 1) && (n >= 0 ==> k == |IntToDecimal(n)|)
  {
    |NatToDecimal(PyInt.Abs(n))|
  }

  /** Whether `str(n)` succeeds instead of raising ValueError for too many digits. */
  predicate WithinStrLimit(n: int) {
    DigitCount(n) <= MaxStrDigits
  }

  /** With `k >= 1`, a natural number has more than `k` digits exactly when it is at least
      `10 ** k`. */
  lemma {:induction false} NatDigitsThreshold(m: nat, k: nat)
    requires k >= 1
    ensures |NatToDecimal(m)| > k <==> m >= PyInt.Power(10, k)
    decreases m
  {
    assert PyInt.Power(10, k) == 10 * PyInt.Power(10, k - 1);
    if m >= 10 {
      assert |NatToDecimal(m)| == |NatToDecimal(m / 10)| + 1;
      if k > 1 {
        NatDigitsThreshold(m / 10, k - 1);
      }
    }
  }

  /** `str(n)` raises for too many digits exactly when `n` is at least `10 ** 4300` in size. */
  lemma StrLimitThreshold(n: int)
    ensures !WithinStrLimit(n) <==> PyInt.Abs(n) >= PyInt.Power(10, MaxStrDigits)
  {
    NatDigitsThreshold(PyInt.Abs(n), MaxStrDigits);
  }

  /** What `str` produces for a non-negative integer: digits, and no leading zero. */
  predicate IsNatNumeral(s: string) {
    |s| >= 1 && (forall i :: 0 <= i < |s| ==> IsDigit(s[i])) && (|s| > 1 ==> s[0] != '0')
  }

  /** What `str` produces for an integer: a numeral for a natural number, or a minus sign
      followed by a numeral for a positive one. */
  predicate IsIntNumeral(s: string) {
    IsNatNumeral(s) || (|s| >= 2 && s[0] == '-' && IsNatNumeral(s[1..]) && s[1..] != "0")
  }

  /** The value of a string of decimal digits. */
  function DigitsValue(s: string): (v: nat)
    requires forall i :: 0 <= i < |s| ==> IsDigit(s[i])
  {
    if s == [] then 0 else DigitsValue(s[..|s| - 1]) * 10 + DigitValue(s[|s| - 1])
  }

  /** `int(s)` for a numeral `str` can produce. */
  function DecimalToInt(s: string): (n: int)
    requires IsIntNumeral(s)
  {
    if s[0] == '-' then -(DigitsValue(s[1..]) as int) else DigitsValue(s)
  }

  lemma {:induction false} NatNumeralRoundTrip(n: nat)
    ensures DigitsValue(NatToDecimal(n)) == n
  {
    if n >= 10 {
      var s := NatToDecimal(n);
      assert s[..|s| - 1] == NatToDecimal(n / 10);
      NatNumeralRoundTrip(n / 10);
    }
  }

  /** Reading back what `str` wrote gives the number again. */
  lemma IntToDecimalRoundTrip(n: int)
    ensures DecimalToInt(IntToDecimal(n)) == n
  {
    if n < 0 {
      assert IntToDecimal(n)[1..] == NatToDecimal(-n);
      NatNumeralRoundTrip(-n);
    } else {
      NatNumeralRoundTrip(n);
    }
  }

  lemma {:induction false} NatNumeralCanonical(s: string)
    requires IsNatNumeral(s)
    ensures NatToDecimal(DigitsValue(s)) == s
  {
    if |s| > 1 {
      var init := s[..|s| - 1];
      assert IsNatNumeral(init) by {
        assert init[0] == s[0];
        forall i | 0 <= i < |init| ensures IsDigit(init[i]) {
          assert init[i] == s[i];
        }
      }
      NatNumeralCanonical(init);
      DigitsValuePositive(init);
    }
  }

  lemma DigitsValuePositive(s: string)
    requires IsNatNumeral(s) && s[0] != '0'
    ensures DigitsValue(s) >= 1
  {
  }

  /** Writing out what was read from a numeral gives back the same text: the numerals `str`
      produces are exactly the canonical ones. */
  lemma DecimalToIntRoundTrip(s: string)
    requires IsIntNumeral(s)
    ensures IntToDecimal(DecimalToInt(s)) == s
  {
    if s[0] == '-' {
      NatNumeralCanonical(s[1..]);
      assert "-" + s[1..] == s;
    } else {
      NatNumeralCanonical(s);
    }
  }
}
