/**
 * Go's `%d` verb for an `int`, as `fmt.Sprintf("%s:%d", apiURL, apiPort)` uses it
 * (pkg/client/client.go:51), together with the reading-back that shows the rendering
 * loses nothing.
 */
module Format {

  import opened Wrappers

  predicate IsDigit(c: char) {
    '0' <= c <= '9'
  }

  predicate IsDigits(s: string) {
    forall i :: 0 <= i < |s| ==> IsDigit(s[i])
  }

  function DigitChar(d: nat): (c: char)
    requires d < 10
    ensures IsDigit(c)
  {
    ('0' as int + d) as char
  }

  function DigitValue(c: char): (d: nat)
    requires IsDigit(c)
    ensures d < 10 && DigitChar(d) == c
  {
    c as int - '0' as int
  }

  /** The decimal digits of `n`, most significant first, without leading zeros. */
  function NatDigits(n: nat): (s: string)
    ensures |s| >= 1 && IsDigits(s)
    ensures s[0] == '0' ==> n == 0
    decreases n
  {
    if n < 10 then [DigitChar(n)] else NatDigits(n / 10) + [DigitChar(n % 10)]
  }

  /** `%d`: a minus sign for a negative value, then the digits of its magnitude. */
  function Decimal(n: int): (s: string)
    ensures |s| >= 1 && ':' !in s
    ensures IsDigits(s) <==> n >= 0
  {
    if n < 0 then
      var s := "-" + NatDigits(-n);
      assert !IsDigit(s[0]);
      s
    else NatDigits(n)
  }

  /** The value of a string of decimal digits, most significant first. */
  function ValueOf(s: string): nat
    requires IsDigits(s)
    decreases |s|
  {
    if s == [] then 0 else 10 * ValueOf(s[..|s| - 1]) + DigitValue(s[|s| - 1])
  }

  /** Reads back what `%d` writes; None for anything that is not an optionally signed numeral. */
  function ParseDecimal(s: string): Option<int> {
    if |s| >= 2 && s[0] == '-' && IsDigits(s[1..]) then
      var magnitude: int := ValueOf(s[1..]);
      Some(-magnitude)
    else if |s| >= 1 && IsDigits(s) then Some(ValueOf(s))
    else None
  }

  lemma {:induction false} NatDigitsValue(n: nat)
    ensures ValueOf(NatDigits(n)) == n
    decreases n
  {
    if n >= 10 {
      var s := NatDigits(n / 10) + [DigitChar(n % 10)];
      assert s[..|s| - 1] == NatDigits(n / 10);
      NatDigitsValue(n / 10);
    }
  }

  /** `%d` is injective: the rendering of a port can be read back exactly. */
  lemma DecimalRoundTrip(n: int)
    ensures ParseDecimal(Decimal(n)) == Some(n)
  {
    var s := Decimal(n);
    if n < 0 {
      NatDigitsValue(-n);
      assert s == "-" + NatDigits(-n);
      assert s[1..] == NatDigits(-n);
      assert |s| >= 2 && s[0] == '-';
    } else {
      NatDigitsValue(n);
      assert s == NatDigits(n);
      assert IsDigit(s[0]);
    }
  }
}
