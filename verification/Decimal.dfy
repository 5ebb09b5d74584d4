/**
 Decimal text as strconv prints and parses it (base 10, 32- or 64-bit signed results).
 The snapshot page tokens and the normalised IOPS setting both rely on it.
 */
module Decimal {
  import opened Basics

  const MIN_INT64: int := -0x8000_0000_0000_0000
  const MAX_INT64: int := 0x7fff_ffff_ffff_ffff

  type int64 = x: int | MIN_INT64 <= x <= MAX_INT64
  type int32 = x: int | -0x8000_0000 <= x <= 0x7fff_ffff

  /** Two's-complement wrap-around of an exact 64-bit result. */
  function Wrap64(x: int): (r: int64)
    ensures MIN_INT64 <= x <= MAX_INT64 ==> r == x
    ensures (r - x) % 0x1_0000_0000_0000_0000 == 0
  {
    (x + 0x8000_0000_0000_0000) % 0x1_0000_0000_0000_0000 - 0x8000_0000_0000_0000
  }

  /** Division as Go does it: toward zero. */
  function QuoTrunc(a: int, b: int): int
    requires b > 0
  {
    if a >= 0 then a / b else -((-a) / b)
  }

  predicate IsDigit(c: char) {
    '0' <= c <= '9'
  }

  function DigitOf(d: nat): (c: char)
    requires d < 10
    ensures IsDigit(c) && c as int - '0' as int == d
  {
    ('0' as int + d) as char
  }

  function FormatNat(n: nat): (s: string)
    ensures s != "" && forall i :: 0 <= i < |s| ==> IsDigit(s[i])
  {
    if n < 10 then [DigitOf(n)] else FormatNat(n / 10) + [DigitOf(n % 10)]
  }

  function FormatInt(n: int): string {
    if n < 0 then "-" + FormatNat(-n) else FormatNat(n)
  }

  /** Unsigned digits, most significant first; None on anything else. */
  function ParseNat(s: string): Option<nat> {
    if s == "" || !IsDigit(s[|s| - 1]) then None
    else
      var low: nat := s[|s| - 1] as int - '0' as int;
      if |s| == 1 then Some(low)
      else
        match ParseNat(s[..|s| - 1])
        case None => None
        case Some(high) => Some(10 * high + low)
  }

  /** strconv.ParseInt(s, 10, bits) with both error kinds folded into None. */
  function ParseInt(s: string, limit: nat): Option<int> {
    var negative := s != "" && s[0] == '-';
    var digits := if s != "" && (s[0] == '-' || s[0] == '+') then s[1..] else s;
    match ParseNat(digits)
    case None => None
    case Some(magnitude) =>
      var n: int := magnitude;
      if negative then (if n <= limit then Some(-n) else None)
      else if n < limit then Some(n) else None
  }

  function ParseInt64(s: string): Option<int> {
    ParseInt(s, 0x8000_0000_0000_0000)
  }

  function ParseInt32(s: string): Option<int> {
    ParseInt(s, 0x8000_0000)
  }

  lemma {:induction false} ParseAfterFormatNat(n: nat)
    ensures ParseNat(FormatNat(n)) == Some(n)
  {
    var s := FormatNat(n);
    if n >= 10 {
      ParseAfterFormatNat(n / 10);
      assert s[..|s| - 1] == FormatNat(n / 10);
    }
  }

  /** Atoi(Itoa(i)) == i over the whole 64-bit range. */
  lemma ParseAfterFormat(n: int)
    requires MIN_INT64 <= n <= MAX_INT64
    ensures ParseInt64(FormatInt(n)) == Some(n)
  {
    ParseFormattedIff(n);
  }

  /** Printed integers parse back exactly within the range asked for, and are refused outside. */
  lemma ParseFormattedIff(n: int)
    ensures ParseInt64(FormatInt(n)) == if MIN_INT64 <= n <= MAX_INT64 then Some(n) else None
    ensures ParseInt32(FormatInt(n)) == if -0x8000_0000 <= n <= 0x7fff_ffff then Some(n) else None
  {
    if n < 0 {
      ParseAfterFormatNat(-n);
      assert FormatInt(n)[1..] == FormatNat(-n);
    } else {
      ParseAfterFormatNat(n);
      assert IsDigit(FormatNat(n)[0]);
    }
  }

  /** A plus sign, or a leading zero, changes nothing. */
  lemma ParseLenient(s: string, limit: nat)
    requires s != "" && IsDigit(s[0])
    ensures ParseInt("+" + s, limit) == ParseInt(s, limit)
    ensures ParseInt("0" + s, limit) == ParseInt(s, limit)
  {
    assert ("+" + s)[1..] == s;
    ParseLeadingZero(s);
  }

  lemma {:induction false} ParseLeadingZero(s: string)
    requires s != ""
    ensures ParseNat("0" + s) == ParseNat(s)
  {
    assert ("0" + s)[..|s|] == "0" + s[..|s| - 1];
    if |s| > 1 {
      ParseLeadingZero(s[..|s| - 1]);
    } else {
      assert ("0" + s)[..1] == "0";
    }
  }

  /** Only a non-empty run of digits is a number. */
  lemma {:induction false} ParseNatIff(s: string)
    ensures ParseNat(s).Some? <==> s != "" && forall i :: 0 <= i < |s| ==> IsDigit(s[i])
  {
    if |s| > 1 {
      ParseNatIff(s[..|s| - 1]);
    }
  }
}
