/** Decimal text of integers, as Python's `str` writes an `int`: the
    digits without leading zeros, after a '-' for a negative number. */
module Numerals {

  const Digits: string := "0123456789"

  predicate IsDigit(c: char)
  {
    '0' <= c <= '9'
  }

  function NatToString(n: nat): (s: string)
    ensures |s| >= 1 && forall i | 0 <= i < |s| :: IsDigit(s[i])
  {
    if n < 10 then [Digits[n]] else NatToString(n / 10) + [Digits[n % 10]]
  }

  function IntToString(n: int): string
  {
    if n < 0 then "-" + NatToString(-n) else NatToString(n)
  }

  function DigitValue(c: char): nat
    requires IsDigit(c)
  {
    (c as int) - ('0' as int)
  }

  /** The value of a string of digits. */
  function ParseNat(s: string): nat
    requires forall i | 0 <= i < |s| :: IsDigit(s[i])
  {
    if s == [] then 0
    else ParseNat(s[..|s| - 1]) * 10 + DigitValue(s[|s| - 1])
  }

  /** Reads the text of an integer back. */
  function ParseInt(s: string): int
  {
    if |s| >= 1 && s[0] == '-' && forall i | 1 <= i < |s| :: IsDigit(s[i]) then -(ParseNat(s[1..]) as int)
    else if forall i | 0 <= i < |s| :: IsDigit(s[i]) then ParseNat(s)
    else 0
  }

  lemma {:induction false} ParseNatToString(n: nat)
    ensures ParseNat(NatToString(n)) == n
  {
    if n >= 10 {
      ParseNatToString(n / 10);
      var s := NatToString(n);
      assert s[..|s| - 1] == NatToString(n / 10);
    }
  }

  /** The text of an integer reads back as that integer, and holds no line
      break. */
  lemma IntToStringRoundTrip(n: int)
    ensures ParseInt(IntToString(n)) == n
    ensures '\n' !in IntToString(n)
  {
    var s := IntToString(n);
    if n < 0 {
      var digits := NatToString(-n);
      ParseNatToString(-n);
      assert s == "-" + digits;
      assert s[1..] == digits;
      assert forall i | 1 <= i < |s| :: IsDigit(s[i]) by {
        forall i | 1 <= i < |s| ensures IsDigit(s[i]) { assert s[i] == digits[i - 1]; }
      }
    } else {
      ParseNatToString(n);
      assert s == NatToString(n);
      assert s[0] != '-';
    }
  }
}
