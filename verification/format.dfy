/**
 * Decimal formatting of integers, as Go's `fmt` `%d` verb writes them. The worker formats
 * GPU layer counts (go-worker/internal/ai/service.go:46-54) and HTTP status codes
 * (service.go:220) this way.
 */
module Format {
  import opened Wrappers

  predicate IsDigit(c: char) { '0' <= c <= '9' }

  function DigitChar(d: nat): (c: char)
    requires d < 10
    ensures IsDigit(c)
  {
    ('0' as int + d) as char
  }

  function DigitValue(c: char): (d: nat)
    requires IsDigit(c)
    ensures d < 10
  {
    c as int - '0' as int
  }

  /** The decimal digits of `n`, most significant first, without leading zeros. */
  function NatString(n: nat): (s: string)
    ensures |s| > 0
    ensures forall i :: 0 <= i < |s| ==> IsDigit(s[i])
    ensures s[0] == '0' ==> n == 0 && s == "0"
    decreases n
  {
    if n < 10 then [DigitChar(n)] else NatString(n / 10) + [DigitChar(n % 10)]
  }

  /** `%d`: an optional minus sign and the decimal digits of the magnitude. */
  function DecimalString(n: int): (s: string)
  {
    if n < 0 then "-" + NatString(-n) else NatString(n)
  }

  /** The value of a string of decimal digits. */
  function DigitsValue(s: string): nat
    requires forall i :: 0 <= i < |s| ==> IsDigit(s[i])
    decreases |s|
  {
    if |s| == 0 then 0 else DigitsValue(s[..|s| - 1]) * 10 + DigitValue(s[|s| - 1])
  }

  /** Reads an optionally signed decimal integer; None for anything else. */
  function ParseDecimal(s: string): Option<int>
  {
    if |s| > 1 && s[0] == '-' && forall i :: 1 <= i < |s| ==> IsDigit(s[i]) then
      Some(-(DigitsValue(s[1..]) as int))
    else if |s| > 0 && forall i :: 0 <= i < |s| ==> IsDigit(s[i]) then
      Some(DigitsValue(s) as int)
    else None
  }

  lemma {:induction false} NatStringValue(n: nat)
    ensures DigitsValue(NatString(n)) == n
    decreases n
  {
    if n >= 10 {
      var s := NatString(n);
      NatStringValue(n / 10);
      assert s[..|s| - 1] == NatString(n / 10);
    }
  }

  /** `%d` loses nothing: reading the text back gives the number. */
  lemma DecimalRoundTrip(n: int)
    ensures ParseDecimal(DecimalString(n)) == Some(n)
  {
    if n < 0 {
      var t := NatString(-n);
      NatStringValue(-n);
      ParseSigned(t);
      assert DecimalString(n) == "-" + t;
    } else {
      var t := NatString(n);
      NatStringValue(n);
      ParseUnsigned(t);
      assert DecimalString(n) == t;
    }
  }

  lemma ParseSigned(t: string)
    requires |t| > 0 && forall i :: 0 <= i < |t| ==> IsDigit(t[i])
    ensures ParseDecimal("-" + t) == Some(-(DigitsValue(t) as int))
  {
    var s := "-" + t;
    assert s[1..] == t;
    assert forall i :: 1 <= i < |s| ==> s[i] == t[i - 1];
  }

  lemma ParseUnsigned(t: string)
    requires |t| > 0 && forall i :: 0 <= i < |t| ==> IsDigit(t[i])
    ensures ParseDecimal(t) == Some(DigitsValue(t) as int)
  {
    assert IsDigit(t[0]);
  }
}
