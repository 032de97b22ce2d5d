/**
 * Decimal rendering of integers, as Go's fmt verb %d writes them, and the
 * parse that inverts it. The client renders status codes (errors.go) and the
 * account version (the delete query) this way.
 */
module Decimal {
  import opened Wrappers

  predicate IsDigit(c: char) {
    '0' <= c <= '9'
  }

  predicate AllDigits(s: string) {
    forall i :: 0 <= i < |s| ==> IsDigit(s[i])
  }

  function DigitChar(d: nat): (c: char)
    requires d < 10
    ensures IsDigit(c) && c as int - '0' as int == d
  {
    "0123456789"[d]
  }

  function DigitValue(c: char): (d: nat)
    requires IsDigit(c)
    ensures d < 10
  {
    c as int - '0' as int
  }

  /** %d of a non-negative integer: most significant digit first, no leading zeros. */
  function FromNat(n: nat): (s: string)
    ensures |s| > 0 && AllDigits(s)
    ensures s[0] == '0' ==> n == 0
    decreases n
  {
    if n < 10 then [DigitChar(n)] else FromNat(n / 10) + [DigitChar(n % 10)]
  }

  /** %d of any integer: a minus sign in front of the digits of a negative value. */
  function FromInt(n: int): (s: string)
    ensures |s| > 0
  {
    if n < 0 then "-" + FromNat(-n) else FromNat(n)
  }

  /** The value of a non-empty string of digits. */
  function ToNat(s: string): nat
    requires |s| > 0 && AllDigits(s)
    decreases |s|
  {
    if |s| == 1 then DigitValue(s[0])
    else ToNat(s[..|s| - 1]) * 10 + DigitValue(s[|s| - 1])
  }

  /** Reads back an optionally signed decimal; None for anything else. */
  function ToInt(s: string): Option<int> {
    if |s| > 1 && s[0] == '-' && AllDigits(s[1..]) then
      var magnitude: int := ToNat(s[1..]); Some(-magnitude)
    else if |s| > 0 && AllDigits(s) then Some(ToNat(s))
    else None
  }

  lemma {:induction false} NatRoundTrip(n: nat)
    ensures ToNat(FromNat(n)) == n
    decreases n
  {
    if n >= 10 {
      var s := FromNat(n);
      assert s[..|s| - 1] == FromNat(n / 10);
      NatRoundTrip(n / 10);
    }
  }

  /** Rendering is injective: the value can be recovered from its text. */
  lemma {:induction false} IntRoundTrip(n: int)
    ensures ToInt(FromInt(n)) == Some(n)
  {
    var s := FromInt(n);
    if n < 0 {
      var digits := FromNat(-n);
      assert s == "-" + digits;
      assert s[1..] == digits;
      NatRoundTrip(-n);
      assert ToInt(s) == Some(n);
    } else {
      var digits := FromNat(n);
      assert s == digits;
      assert IsDigit(s[0]);
      NatRoundTrip(n);
      assert ToInt(s) == Some(n);
    }
  }
}
