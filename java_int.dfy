/**
 * Java `int` arithmetic and the two library conversions the tracker relies on:
 * `Integer.parseInt` (radix 10) and `Integer.toString`.
 */
module JavaInt {
  import opened Wrappers

  const MIN_VALUE: int := -0x8000_0000
  const MAX_VALUE: int := 0x7fff_ffff

  /** The values a Java `int` can hold. */
  predicate IsInt(x: int) {
    MIN_VALUE <= x <= MAX_VALUE
  }

  /** Two's-complement wrap-around of a Java `int` result. */
  function Wrap(x: int): (r: int)
    ensures IsInt(r)
    ensures IsInt(x) ==> r == x
    ensures x == MAX_VALUE + 1 ==> r == MIN_VALUE
  {
    (x - MIN_VALUE) % 0x1_0000_0000 + MIN_VALUE
  }

  predicate IsDigit(c: char) {
    '0' <= c <= '9'
  }

  predicate AllDigits(s: string) {
    forall i :: 0 <= i < |s| ==> IsDigit(s[i])
  }

  /** The value of a string of ASCII decimal digits, most significant first. */
  function DigitsValue(s: string): nat
    requires AllDigits(s)
  {
    if s == [] then 0
    else 10 * DigitsValue(s[..|s| - 1]) + (s[|s| - 1] as int - '0' as int)
  }

  /**
   * `Integer.parseInt(s)`: an optional `-` or `+`, then at least one digit,
   * and a value that fits in an `int`; anything else is a NumberFormatException,
   * modelled as None.
   */
  function ParseInt(s: string): (r: Option<int>)
    ensures r.Some? ==> IsInt(r.value) && |s| > 0
    ensures r.Some? && s[0] == '-' ==> r.value <= 0
    ensures r.Some? && s[0] != '-' ==> r.value >= 0
    ensures r.Some? && s[0] != '-' && s[0] != '+' ==> AllDigits(s)
    ensures r.Some? && (s[0] == '-' || s[0] == '+') ==> |s| > 1 && AllDigits(s[1..])
  {
    if |s| == 0 then None
    else
      var digits := if s[0] == '-' || s[0] == '+' then s[1..] else s;
      if |digits| == 0 || !AllDigits(digits) then None
      else
        var v: int := if s[0] == '-' then 0 - DigitsValue(digits) as int else DigitsValue(digits);
        if IsInt(v) then Some(v) else None
  }

  /**
   * A digit string, bare or after `+`, parses to its decimal value exactly
   * when that value is at most MAX_VALUE.
   */
  lemma ParseIntUnsigned(d: string)
    requires |d| > 0 && AllDigits(d)
    ensures ParseInt(d) == (if DigitsValue(d) <= MAX_VALUE then Some(DigitsValue(d) as int) else None)
    ensures ParseInt("+" + d) == ParseInt(d)
  {
  }

  /** A digit string after `-` parses to minus its value exactly when that is at least MIN_VALUE. */
  lemma ParseIntNegative(d: string)
    requires |d| > 0 && AllDigits(d)
    ensures ParseInt("-" + d) == (if 0 - DigitsValue(d) as int >= MIN_VALUE then Some(0 - DigitsValue(d) as int) else None)
  {
  }

  function DigitChar(d: nat): (c: char)
    requires d < 10
    ensures IsDigit(c) && c as int - '0' as int == d
  {
    ('0' as int + d) as char
  }

  /** Decimal digits of `n`, most significant first, without leading zeros. */
  function FormatNat(n: nat): (s: string)
    ensures |s| > 0 && AllDigits(s)
    ensures |s| > 1 ==> s[0] != '0'
  {
    if n < 10 then [DigitChar(n)] else FormatNat(n / 10) + [DigitChar(n % 10)]
  }

  /**
   * `Integer.toString(n)`, the inverse of `ParseInt` on Java `int`s (see
   * `ParseFormatRoundTrip`); the program's printing is not modelled.
   */
  function FormatInt(n: int): string {
    if n < 0 then "-" + FormatNat(-n) else FormatNat(n)
  }

  lemma {:induction false} FormatNatValue(n: nat)
    ensures DigitsValue(FormatNat(n)) == n
  {
    if n >= 10 {
      FormatNatValue(n / 10);
      var s := FormatNat(n);
      assert s[..|s| - 1] == FormatNat(n / 10);
    }
  }

  /** Every Java `int` survives a print followed by a parse. */
  lemma ParseFormatRoundTrip(n: int)
    requires IsInt(n)
    ensures ParseInt(FormatInt(n)) == Some(n)
  {
    var s := FormatInt(n);
    if n < 0 {
      FormatNatValue(-n);
      assert s[1..] == FormatNat(-n);
    } else {
      FormatNatValue(n);
    }
  }
}
