/** JavaScript's rendering of a non-negative integer Number as a decimal string (what `n + ""` and
    `n + ':'` produce for the small integers the dashboard prints), and a reader that inverts it. */
module Decimal {

  predicate IsDigit(c: char) {
    '0' <= c <= '9'
  }

  predicate AllDigits(s: string) {
    forall i :: 0 <= i < |s| ==> IsDigit(s[i])
  }

  function Digit(d: nat): (c: char)
    requires d < 10
    ensures IsDigit(c) && c as int - '0' as int == d
  {
    ('0' as int + d) as char
  }

  function DigitValue(c: char): nat
    requires IsDigit(c)
  {
    c as int - '0' as int
  }

  /** The shortest decimal numeral of `n`: no sign and no leading zero. */
  function DecimalString(n: nat): (s: string)
    ensures |s| >= 1 && AllDigits(s)
    decreases n
  {
    if n < 10 then [Digit(n)] else DecimalString(n / 10) + [Digit(n % 10)]
  }

  /** JavaScript's `String(n)` for an integer Number: an optional minus sign, then the digits. JavaScript
      switches to exponent notation from 1e21 on; this model ignores that limit and prints every integer
      in plain decimal. */
  function IntString(n: int): (s: string)
    ensures n >= 0 ==> AllDigits(s) && ParseDecimal(s) == n
    ensures n < 0 ==> |s| >= 2 && s[0] == '-' && AllDigits(s[1..]) && ParseDecimal(s[1..]) == -n
    ensures n >= 0 ==> |s| >= 1 && (s[0] == '0' <==> n == 0)
    ensures n < 0 ==> s[1] != '0'
  {
    ParseDecimalString(if n < 0 then -n else n);
    DecimalStringCanonical(if n < 0 then -n else n);
    if n < 0 then
      var digits := DecimalString(-n);
      assert ("-" + digits)[1..] == digits;
      "-" + digits
    else
      DecimalString(n)
  }

  /** The value of a string of decimal digits, most significant first. */
  function ParseDecimal(s: string): nat
    requires AllDigits(s)
    decreases |s|
  {
    if s == [] then 0 else ParseDecimal(s[..|s| - 1]) * 10 + DigitValue(s[|s| - 1])
  }

  /** Reading back the numeral gives the number: DecimalString loses nothing. */
  lemma {:induction false} ParseDecimalString(n: nat)
    ensures ParseDecimal(DecimalString(n)) == n
    decreases n
  {
    var s := DecimalString(n);
    if n >= 10 {
      ParseDecimalString(n / 10);
      assert s[..|s| - 1] == DecimalString(n / 10);
    }
  }

  /** The numeral has no leading zero (so hours are printed without padding), and its length is fixed by the
      number's size for the one- and two-digit numbers the clock prints. */
  lemma {:induction false} DecimalStringCanonical(n: nat)
    ensures DecimalString(n)[0] == '0' <==> n == 0
    ensures n < 10 ==> DecimalString(n) == [Digit(n)]
    ensures 10 <= n < 100 ==> DecimalString(n) == [Digit(n / 10), Digit(n % 10)]
    decreases n
  {
    if n >= 10 {
      DecimalStringCanonical(n / 10);
    }
  }
}
