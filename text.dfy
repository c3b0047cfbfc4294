/**
 * Decimal text of integers as Python's `str` writes it: the digits of the
 * absolute value with no leading zero, after a '-' for a negative number.
 */
module Text {

  predicate IsDigit(c: char)
  {
    '0' <= c <= '9'
  }

  /** A character that can occur in the text of an integer. */
  predicate IsNumeral(c: char)
  {
    IsDigit(c) || c == '-'
  }

  function DigitChar(d: nat): (c: char)
    requires d < 10
    ensures IsDigit(c)
  {
    ['0', '1', '2', '3', '4', '5', '6', '7', '8', '9'][d]
  }

  function DigitValue(c: char): nat
    requires IsDigit(c)
  {
    (c as int - '0' as int) as nat
  }

  function NatToString(n: nat): string
    decreases n
  {
    if n < 10 then [DigitChar(n)] else NatToString(n / 10) + [DigitChar(n % 10)]
  }

  /** `str(i)`. */
  function IntToString(i: int): string
  {
    if i < 0 then "-" + NatToString(-i) else NatToString(i)
  }

  /** The value of a string of digits. */
  function ParseNat(s: string): nat
    requires forall c | c in s :: IsDigit(c)
  {
    if s == [] then 0 else ParseNat(s[..|s| - 1]) * 10 + DigitValue(s[|s| - 1])
  }

  /** `int(s)` for the text `str` writes. */
  function ParseInt(s: string): int
    requires s != [] && (IsDigit(s[0]) || s[0] == '-') && forall c | c in s[1..] :: IsDigit(c)
  {
    if s[0] == '-' then -(ParseNat(s[1..]) as int) else ParseNat(s)
  }

  /** The text of a natural number is a non-empty string of digits that does
      not start with 0 unless it is "0", and it reads back as the number. */
  lemma {:induction false} NatToStringDigits(n: nat)
    ensures NatToString(n) != [] && forall c | c in NatToString(n) :: IsDigit(c)
    ensures NatToString(n)[0] == '0' ==> n == 0
    ensures ParseNat(NatToString(n)) == n
    decreases n
  {
    if n >= 10 {
      NatToStringDigits(n / 10);
      var s := NatToString(n / 10);
      assert NatToString(n)[..|NatToString(n)| - 1] == s;
      assert DigitValue(DigitChar(n % 10)) == n % 10 by {
        DigitCharValue(n % 10);
      }
    } else {
      DigitCharValue(n);
    }
  }

  lemma DigitCharValue(d: nat)
    requires d < 10
    ensures DigitValue(DigitChar(d)) == d
  {
    assert ['0', '1', '2', '3', '4', '5', '6', '7', '8', '9'][d] as int == '0' as int + d;
  }

  /** `int(str(i)) == i`; the text is made of numeral characters only. */
  lemma IntToStringRoundTrip(i: int)
    ensures IntToString(i) != [] && forall c | c in IntToString(i) :: IsNumeral(c)
    ensures (IsDigit(IntToString(i)[0]) || IntToString(i)[0] == '-')
            && (forall c | c in IntToString(i)[1..] :: IsDigit(c))
    ensures ParseInt(IntToString(i)) == i
  {
    if i < 0 {
      NatToStringDigits(-i);
      assert IntToString(i)[1..] == NatToString(-i);
    } else {
      NatToStringDigits(i);
      assert forall c | c in IntToString(i)[1..] :: c in IntToString(i);
    }
  }

  /** Different integers have different texts. */
  lemma IntToStringInjective(i: int, j: int)
    requires IntToString(i) == IntToString(j)
    ensures i == j
  {
    IntToStringRoundTrip(i);
    IntToStringRoundTrip(j);
  }

  /** A numeral followed by text that starts with a non-numeral character
      can be split in only one way. */
  lemma PeelNumeral(x: string, y: string, t1: string, t2: string)
    requires forall c | c in x :: IsNumeral(c)
    requires forall c | c in y :: IsNumeral(c)
    requires t1 != [] && !IsNumeral(t1[0]) && t2 != [] && !IsNumeral(t2[0])
    requires x + t1 == y + t2
    ensures x == y && t1 == t2
  {
    if |x| < |y| {
      ShorterPrefix(x, y, t1, t2);
      assert false;
    } else if |y| < |x| {
      ShorterPrefix(y, x, t2, t1);
      assert false;
    }
    assert x == (x + t1)[..|x|];
    assert y == (y + t2)[..|y|];
    assert t1 == (x + t1)[|x|..];
    assert t2 == (y + t2)[|y|..];
  }

  /** When two splittings of one string differ, the shorter front part is
      followed by a character of the longer one. */
  lemma ShorterPrefix(x: string, y: string, t1: string, t2: string)
    requires x + t1 == y + t2 && |x| < |y| && t1 != []
    ensures t1[0] in y
  {
    assert (x + t1)[|x|] == t1[0];
    assert (y + t2)[|x|] == y[|x|];
  }
}
