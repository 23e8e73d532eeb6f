/** Python's `str()` of a non-negative integer, as the f-strings of the
    webhook client use it to put a status code into a message, and the
    parse that recovers the number from such a message. */
module Decimal {

  predicate IsDigit(c: char) {
    '0' <= c <= '9'
  }

  predicate IsDigits(s: string) {
    forall i :: 0 <= i < |s| ==> IsDigit(s[i])
  }

  function DigitChar(d: nat): (c: char)
    requires d < 10
    ensures IsDigit(c) && c as int - '0' as int == d
  {
    ('0' as int + d) as char
  }

  function DigitValue(c: char): (d: nat)
    requires IsDigit(c)
    ensures d < 10 && DigitChar(d) == c
  {
    c as int - '0' as int
  }

  /** The decimal rendering of `n`: digits only, never empty, and with a
      leading zero only for zero itself. */
  function NatToString(n: nat): (s: string)
    ensures |s| >= 1 && IsDigits(s)
    ensures s[0] == '0' <==> n == 0
    decreases n
  {
    if n < 10 then [DigitChar(n)] else NatToString(n / 10) + [DigitChar(n % 10)]
  }

  /** The number a string of decimal digits denotes. */
  function DigitsValue(s: string): nat
    requires IsDigits(s)
  {
    if s == [] then 0 else DigitsValue(s[..|s| - 1]) * 10 + DigitValue(s[|s| - 1])
  }

  /** Reading the rendering back gives the number: the rendering loses nothing. */
  lemma {:induction false} NatToStringRoundTrip(n: nat)
    ensures DigitsValue(NatToString(n)) == n
    decreases n
  {
    var s := NatToString(n);
    if n >= 10 {
      NatToStringRoundTrip(n / 10);
      assert s[..|s| - 1] == NatToString(n / 10);
    }
  }

  /** Distinct numbers have distinct renderings. */
  lemma NatToStringInjective(m: nat, n: nat)
    ensures NatToString(m) == NatToString(n) ==> m == n
  {
    NatToStringRoundTrip(m);
    NatToStringRoundTrip(n);
  }

  datatype Option = None | Some(value: nat)

  /** The number after `prefix` in `message`, when the rest of the message is
      a non-empty run of digits. */
  function NumberAfter(prefix: string, message: string): (r: Option)
  {
    if |prefix| <= |message| && message[..|prefix|] == prefix
       && |message| > |prefix| && IsDigits(message[|prefix|..])
    then Some(DigitsValue(message[|prefix|..]))
    else None
  }

  /** A message built as `prefix + str(n)` gives `n` back. */
  lemma {:induction false} NumberAfterRendering(prefix: string, n: nat)
    ensures NumberAfter(prefix, prefix + NatToString(n)) == Some(n)
  {
    var m := prefix + NatToString(n);
    assert m[..|prefix|] == prefix;
    assert m[|prefix|..] == NatToString(n);
    NatToStringRoundTrip(n);
  }
}
