/** The two pieces of Python's text/number conversion that room validation relies on:
    `str(n)` for an integer n, and `int(c)` for a one-character string c. */
module PyText {
  import opened Results

  /** The character `str()` writes for the decimal digit d. */
  function DigitChar(d: int): (c: char)
    requires 0 <= d <= 9
    ensures '0' <= c <= '9'
    ensures c as int - '0' as int == d
  {
    ('0' as int + d) as char
  }

  /** `int(c)` on a character that `str()` of an integer can produce (`-` or `0`-`9`): the digit's
      value, or None where Python raises ValueError. Other Unicode decimal digits, which `int()` also
      accepts, never occur in such text and are not modelled. */
  function ParseDigit(c: char): (r: Option<int>)
    ensures r.Some? <==> '0' <= c <= '9'
    ensures r.Some? ==> 0 <= r.value <= 9 && DigitChar(r.value) == c
  {
    if '0' <= c <= '9' then Some(c as int - '0' as int) else None
  }

  /** `str(n)` for a non-negative integer: its decimal digits, most significant first, no padding. */
  function DecimalString(n: nat): (s: string)
    ensures 1 <= |s|
    ensures n < 10 <==> |s| == 1
    ensures forall i | 0 <= i < |s| :: '0' <= s[i] <= '9'
  {
    if n < 10 then [DigitChar(n)] else DecimalString(n / 10) + [DigitChar(n % 10)]
  }

  /** `str(n)` for any integer: a minus sign in front of the digits of a negative number. */
  function IntToStr(n: int): (s: string)
    ensures 1 <= |s|
    ensures s[0] == '-' <==> n < 0
  {
    if n < 0 then ['-'] + DecimalString(-n) else DecimalString(n)
  }

  /** `int(s)` for a string of decimal digits: the number they spell. */
  function DecimalValue(s: string): int
    requires forall i | 0 <= i < |s| :: '0' <= s[i] <= '9'
  {
    if s == [] then 0
    else DecimalValue(s[..|s| - 1]) * 10 + (s[|s| - 1] as int - '0' as int)
  }

  /** `int(str(n)) == n`: reading the rendering back gives the number. */
  lemma {:induction false} DecimalRoundTrip(n: nat)
    ensures DecimalValue(DecimalString(n)) == n
  {
    var s := DecimalString(n);
    if n >= 10 {
      DecimalRoundTrip(n / 10);
      assert s[..|s| - 1] == DecimalString(n / 10);
    }
  }

  /** `str(n)` has two characters and starts with a digit exactly when n has two decimal digits,
      and that digit is then n's tens digit. */
  lemma TwoDigitRendering(n: int)
    ensures (|IntToStr(n)| == 2 && ParseDigit(IntToStr(n)[0]).Some?) <==> 10 <= n <= 99
    ensures 10 <= n <= 99 ==> ParseDigit(IntToStr(n)[0]) == Some(n / 10)
  {
    if n >= 100 {
      assert |DecimalString(n / 10)| >= 2;
    } else if 10 <= n {
      assert DecimalString(n) == [DigitChar(n / 10), DigitChar(n % 10)];
    }
  }
}
