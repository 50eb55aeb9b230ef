/**
 * Money as integer cents and its display: the pages print amounts with `toFixed(2)`
 * behind a `$` sign. On a whole number of cents that is the decimal numeral of the
 * dollars, a point, and exactly two digits of cents.
 */
module Money {
  import opened Optional

  function Abs(x: int): nat {
    if x < 0 then -x else x
  }

  predicate IsDigit(c: char) {
    '0' <= c <= '9'
  }

  predicate AllDigits(s: string) {
    forall i :: 0 <= i < |s| ==> IsDigit(s[i])
  }

  function DigitChar(d: nat): (c: char)
    requires d < 10
    ensures IsDigit(c)
  {
    ('0' as int + d) as char
  }

  function DigitValue(c: char): (d: nat)
    requires IsDigit(c)
    ensures d < 10
  {
    c as int - '0' as int
  }

  /** The decimal numeral of `n`, without leading zeros. */
  function Decimal(n: nat): (r: string)
    ensures |r| >= 1 && AllDigits(r)
    decreases n
  {
    if n < 10 then [DigitChar(n)] else Decimal(n / 10) + [DigitChar(n % 10)]
  }

  /** The number a string of digits denotes. */
  function ValueOf(s: string): nat
    requires AllDigits(s)
    decreases |s|
  {
    if s == [] then 0 else ValueOf(s[..|s| - 1]) * 10 + DigitValue(s[|s| - 1])
  }

  lemma {:induction false} DecimalRoundTrip(n: nat)
    ensures ValueOf(Decimal(n)) == n
    decreases n
  {
    if n >= 10 {
      DecimalRoundTrip(n / 10);
      var d := Decimal(n);
      assert d[..|d| - 1] == Decimal(n / 10);
    }
  }

  /** `(c / 100).toFixed(2)` for an amount of `c` cents. */
  function FormatCents(c: nat): string {
    Decimal(c / 100) + "." + [DigitChar(c % 100 / 10), DigitChar(c % 10)]
  }

  /** Reads back a `FormatCents` text: digits, a point, two digits. */
  function ParseCents(s: string): Option<nat> {
    var n := |s|;
    if n < 4 || s[n - 3] != '.' || !AllDigits(s[..n - 3]) || !IsDigit(s[n - 2]) || !IsDigit(s[n - 1]) then None
    else Some(ValueOf(s[..n - 3]) * 100 + DigitValue(s[n - 2]) * 10 + DigitValue(s[n - 1]))
  }

  /** The two-decimal text of an amount determines the amount. */
  lemma FormatCentsRoundTrip(c: nat)
    ensures ParseCents(FormatCents(c)) == Some(c)
  {
    var s := FormatCents(c);
    var whole := Decimal(c / 100);
    assert s[..|s| - 3] == whole;
    DecimalRoundTrip(c / 100);
  }
}
