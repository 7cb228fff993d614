/** The few pieces of JavaScript value semantics the stores and API helpers rely on:
    a nullable string, its truthiness, and `Number.prototype.toString()` on integers
    n with |n| < 10^21 (from 10^21 on, JavaScript writes exponent notation). */
module Js {

  /** A value that may be `null` or `undefined` (None) or present (Some). */
  datatype Option<+T> = None | Some(value: T)

  /** `!!s` for a `string | null`: only a present, non-empty string is truthy. */
  predicate Truthy(s: Option<string>) {
    s.Some? && |s.value| > 0
  }

  predicate IsDigit(c: char) {
    '0' <= c <= '9'
  }

  function DigitChar(d: nat): (c: char)
    requires d < 10
    ensures IsDigit(c)
  {
    ['0', '1', '2', '3', '4', '5', '6', '7', '8', '9'][d]
  }

  function DigitValue(c: char): (d: nat)
    requires IsDigit(c)
    ensures d < 10 && DigitChar(d) == c
  {
    (c as int - '0' as int) as nat
  }

  /** Decimal text of a natural number, without leading zeros. */
  function NatToString(n: nat): (s: string)
    ensures |s| >= 1
    ensures forall k | 0 <= k < |s| :: IsDigit(s[k])
    ensures s[0] == '0' ==> n == 0
    decreases n
  {
    if n < 10 then [DigitChar(n)] else NatToString(n / 10) + [DigitChar(n % 10)]
  }

  /** `n.toString()` for an integral JavaScript number with |n| < 10^21; from 10^21 on
      JavaScript writes exponent notation ("1e+21"), which this function does not. */
  function IntToString(n: int): (s: string)
    ensures |s| >= 1
  {
    if n < 0 then "-" + NatToString(-n) else NatToString(n)
  }

  /** Reads back a run of decimal digits (a reference reading of the text `IntToString` writes). */
  function ParseDigits(s: string): nat
    requires forall k | 0 <= k < |s| :: IsDigit(s[k])
  {
    if |s| == 0 then 0 else ParseDigits(s[..|s| - 1]) * 10 + DigitValue(s[|s| - 1])
  }

  /** Reads back an optionally signed decimal integer; None for any other text. */
  function ParseInt(s: string): Option<int> {
    if |s| > 0 && s[0] == '-' then
      if |s| > 1 && forall k | 1 <= k < |s| :: IsDigit(s[k]) then Some(0 - ParseDigits(s[1..]) as int) else None
    else if |s| > 0 && forall k | 0 <= k < |s| :: IsDigit(s[k]) then Some(ParseDigits(s))
    else None
  }

  lemma {:induction false} NatToStringRoundTrip(n: nat)
    ensures ParseDigits(NatToString(n)) == n
    decreases n
  {
    if n >= 10 {
      NatToStringRoundTrip(n / 10);
      var s := NatToString(n);
      assert s[..|s| - 1] == NatToString(n / 10);
    }
  }

  /** The decimal text of an integer reads back as that integer, so distinct numbers get distinct text. */
  lemma IntToStringRoundTrip(n: int)
    ensures ParseInt(IntToString(n)) == Some(n)
  {
    var s := IntToString(n);
    if n < 0 {
      var t := NatToString(-n);
      NatToStringRoundTrip(-n);
      assert s == "-" + t && s[1..] == t;
      assert forall k | 1 <= k < |s| :: IsDigit(s[k]) by {
        forall k | 1 <= k < |s| ensures IsDigit(s[k]) { assert s[k] == t[k - 1]; }
      }
    } else {
      NatToStringRoundTrip(n);
      assert IsDigit(s[0]);
    }
  }
}
