/** Decimal rendering of integers, as `std::to_string` does it, and the
    parser that reads such a rendering back. */
module Decimal {
  import opened CTypes

  predicate IsDigit(c: char) {
    '0' <= c <= '9'
  }

  predicate AllDigits(s: string) {
    forall i :: 0 <= i < |s| ==> IsDigit(s[i])
  }

  function DigitChar(d: nat): (c: char)
    requires d < 10
    ensures IsDigit(c)
  {
    ('0' as int + d) as char
  }

  function DigitValue(c: char): (d: nat)
    requires IsDigit(c)
    ensures d < 10 && DigitChar(d) == c
  {
    c as int - '0' as int
  }

  /** `std::to_string` of a non-negative value: the shortest decimal numeral,
      most significant digit first. */
  function NatToDecimal(n: nat): (s: string)
    ensures |s| >= 1 && AllDigits(s)
    ensures |s| > 1 ==> s[0] != '0'
    ensures n < 10 <==> |s| == 1
    decreases n
  {
    if n < 10 then [DigitChar(n)] else NatToDecimal(n / 10) + [DigitChar(n % 10)]
  }

  /** `std::to_string` of a signed value: a minus sign in front of the
      magnitude when the value is negative. */
  function IntToDecimal(i: int): (s: string)
    ensures i < 0 <==> (|s| > 0 && s[0] == '-')
    ensures i >= 0 ==> s == NatToDecimal(i)
    ensures i < 0 ==> s[1..] == NatToDecimal(-i)
  {
    if i < 0 then ['-'] + NatToDecimal(-i) else NatToDecimal(i)
  }

  /** The value of a string of digits, read most significant digit first. */
  function ParseNat(s: string): nat
    requires AllDigits(s)
  {
    if s == [] then 0 else 10 * ParseNat(s[..|s| - 1]) + DigitValue(s[|s| - 1])
  }

  /** Reading back a rendering recovers the value. */
  lemma {:induction false} ParseNatToDecimal(n: nat)
    ensures ParseNat(NatToDecimal(n)) == n
    decreases n
  {
    var s := NatToDecimal(n);
    if n >= 10 {
      ParseNatToDecimal(n / 10);
      assert s[..|s| - 1] == NatToDecimal(n / 10);
    }
  }

  /** The number of digits at the front of `s`. */
  function DigitRun(s: string): (k: nat)
    ensures k <= |s| && AllDigits(s[..k])
    ensures k < |s| ==> !IsDigit(s[k])
  {
    if s == [] || !IsDigit(s[0]) then 0
    else
      var k := 1 + DigitRun(s[1..]);
      assert s[..k] == [s[0]] + s[1..][..k - 1];
      k
  }

  /** A rendering followed by anything that does not start with a digit
      is read as exactly that rendering. */
  lemma {:induction false} DigitRunOfDecimal(d: string, rest: string)
    requires AllDigits(d)
    requires rest == [] || !IsDigit(rest[0])
    ensures DigitRun(d + rest) == |d|
    decreases |d|
  {
    if d != [] {
      assert (d + rest)[1..] == d[1..] + rest;
      DigitRunOfDecimal(d[1..], rest);
    } else {
      assert d + rest == rest;
    }
  }

  /** Reads an unsigned numeral at the front of `s`; returns its value and
      what follows it, or None when `s` does not start with a digit. */
  function ReadNat(s: string): (r: Option<(nat, string)>)
    ensures r.Some? <==> (|s| > 0 && IsDigit(s[0]))
  {
    var k := DigitRun(s);
    if k == 0 then None else Some((ParseNat(s[..k]), s[k..]))
  }

  /** Reads an optionally negative numeral at the front of `s`. */
  function ReadInt(s: string): (r: Option<(int, string)>)
  {
    if |s| > 0 && s[0] == '-' then
      match ReadNat(s[1..])
      case None => None
      case Some((n, rest)) => Some((-(n as int), rest))
    else
      match ReadNat(s)
      case None => None
      case Some((n, rest)) => Some((n as int, rest))
  }

  lemma ReadNatOfDecimal(n: nat, rest: string)
    requires rest == [] || !IsDigit(rest[0])
    ensures ReadNat(NatToDecimal(n) + rest) == Some((n, rest))
  {
    var d := NatToDecimal(n);
    DigitRunOfDecimal(d, rest);
    assert (d + rest)[..|d|] == d;
    assert (d + rest)[|d|..] == rest;
    ParseNatToDecimal(n);
  }

  /** A minus sign followed by a rendering reads back as the negated value. */
  lemma ReadMinusOfDecimal(n: nat, rest: string)
    requires rest == [] || !IsDigit(rest[0])
    ensures ReadInt((['-'] + NatToDecimal(n)) + rest) == Some((-(n as int), rest))
  {
    var s := (['-'] + NatToDecimal(n)) + rest;
    assert s[1..] == NatToDecimal(n) + rest;
    ReadNatOfDecimal(n, rest);
  }

  /** Reading back a negative rendering: the minus sign, then the magnitude. */
  lemma ReadNegativeOfDecimal(i: int, rest: string)
    requires i < 0
    requires rest == [] || !IsDigit(rest[0])
    ensures ReadInt(IntToDecimal(i) + rest) == Some((i, rest))
  {
    ReadMinusOfDecimal(-i, rest);
  }

  /** Reading back a non-negative rendering: it starts with a digit. */
  lemma ReadNonNegativeOfDecimal(i: int, rest: string)
    requires i >= 0
    requires rest == [] || !IsDigit(rest[0])
    ensures ReadInt(IntToDecimal(i) + rest) == Some((i, rest))
  {
    var s := IntToDecimal(i) + rest;
    var d := NatToDecimal(i);
    assert s == d + rest;
    assert IsDigit(d[0]);
    assert s[0] == d[0];
    ReadNatOfDecimal(i, rest);
  }

  /** Reading back a signed rendering, followed by anything that does not
      start with a digit, recovers the value and the remainder. */
  lemma ReadIntOfDecimal(i: int, rest: string)
    requires rest == [] || !IsDigit(rest[0])
    ensures ReadInt(IntToDecimal(i) + rest) == Some((i, rest))
  {
    if i < 0 {
      ReadNegativeOfDecimal(i, rest);
    } else {
      ReadNonNegativeOfDecimal(i, rest);
    }
  }
}
