/**
 * Decimal text of integers, as `Number.prototype.toString()` writes it for
 * integral values, and the parser that reads it back.  Used for the ids the
 * task store and the agent timeline derive from clock readings, and for the
 * textual form of timestamps in the persisted snapshot.
 */
module Decimal {
  import opened Wrappers

  predicate IsDigit(c: char) {
    '0' <= c <= '9'
  }

  predicate AllDigits(s: string) {
    forall i :: 0 <= i < |s| ==> IsDigit(s[i])
  }

  function DigitChar(d: nat): (c: char)
    requires d < 10
    ensures IsDigit(c) && c as int - '0' as int == d
  {
    ('0' as int + d) as char
  }

  function DigitValue(c: char): (d: nat)
    requires IsDigit(c)
    ensures d < 10 && DigitChar(d) == c
  {
    c as int - '0' as int
  }

  /** `n.toString()` for a non-negative integer: digits, no leading zero. */
  function NatToString(n: nat): (s: string)
    ensures 1 <= |s| && AllDigits(s)
    ensures s[0] == '0' ==> n == 0 && s == "0"
  {
    if n < 10 then [DigitChar(n)] else NatToString(n / 10) + [DigitChar(n % 10)]
  }

  /** The value of a string of decimal digits (the empty string reads as 0). */
  function ParseDigits(s: string): nat
    requires AllDigits(s)
  {
    if |s| == 0 then 0 else ParseDigits(s[..|s| - 1]) * 10 + DigitValue(s[|s| - 1])
  }

  /** Reads back what NatToString writes: a non-empty run of digits. */
  function ParseNat(s: string): (r: Option<nat>)
    ensures r.Some? <==> 1 <= |s| && AllDigits(s)
  {
    if 1 <= |s| && AllDigits(s) then Some(ParseDigits(s)) else None
  }

  lemma {:induction false} ParseNatToString(n: nat)
    ensures ParseNat(NatToString(n)) == Some(n)
  {
    var s := NatToString(n);
    if n >= 10 {
      ParseNatToString(n / 10);
      assert s[..|s| - 1] == NatToString(n / 10);
      assert ParseDigits(s) == (n / 10) * 10 + n % 10;
    } else {
      assert ParseDigits(s) == ParseDigits(s[..0]) * 10 + DigitValue(s[0]);
    }
  }

  /** Distinct numbers have distinct decimal texts. */
  lemma NatToStringInjective(m: nat, n: nat)
    ensures NatToString(m) == NatToString(n) <==> m == n
  {
    ParseNatToString(m);
    ParseNatToString(n);
  }

  /** `t.toString()` for any integer: a minus sign before the digits of a negative value. */
  function IntToString(t: int): (s: string)
    ensures 1 <= |s|
    ensures s[0] == '-' <==> t < 0
    ensures t >= 0 ==> AllDigits(s)
    ensures t > 0 ==> s[0] != '0'
    ensures t < 0 ==> 2 <= |s| && AllDigits(s[1..]) && s[1] != '0'
  {
    if t < 0 then "-" + NatToString(-t) else NatToString(t)
  }

  /**
   * Reads back what IntToString writes: digits, or a minus sign and digits
   * of a non-zero value.
   */
  function ParseInt(s: string): (r: Option<int>)
    ensures r.Some? <==>
      || (1 <= |s| && AllDigits(s))
      || (2 <= |s| && s[0] == '-' && AllDigits(s[1..]) && ParseDigits(s[1..]) != 0)
    ensures r.Some? ==> (r.value < 0 <==> s[0] == '-')
  {
    if 1 <= |s| && s[0] == '-' then
      match ParseNat(s[1..])
      case Some(n) => if n == 0 then None else Some(0 - n as int)
      case None => None
    else
      match ParseNat(s)
      case Some(n) => Some(n)
      case None => None
  }

  lemma ParseIntToString(t: int)
    ensures ParseInt(IntToString(t)) == Some(t)
  {
    if t < 0 {
      ParseNatToString(-t);
      assert IntToString(t)[1..] == NatToString(-t);
    } else {
      ParseNatToString(t);
    }
  }

  lemma IntToStringInjective(s: int, t: int)
    ensures IntToString(s) == IntToString(t) <==> s == t
  {
    ParseIntToString(s);
    ParseIntToString(t);
  }
}
