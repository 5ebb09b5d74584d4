/**
 The padded URL-safe base64 encoding of section 5 of RFC 4648, as the node server names its
 per-target directories. Decoding skips CR and LF and does not check the unused trailing bits.
 */
module Base64Url {
  import opened Basics

  type byte = x: int | 0 <= x < 256
  type sextet = x: int | 0 <= x < 64
  type Bytes = seq<byte>

  function Symbol(i: sextet): (c: char)
    ensures SymbolValue(c) == i
  {
    if i < 26 then ('A' as int + i) as char
    else if i < 52 then ('a' as int + (i - 26)) as char
    else if i < 62 then ('0' as int + (i - 52)) as char
    else if i == 62 then '-' else '_'
  }

  /** The six-bit value of a symbol, or -1. */
  function SymbolValue(c: char): (v: int)
    ensures -1 <= v < 64
  {
    if 'A' <= c <= 'Z' then c as int - 'A' as int
    else if 'a' <= c <= 'z' then c as int - 'a' as int + 26
    else if '0' <= c <= '9' then c as int - '0' as int + 52
    else if c == '-' then 62
    else if c == '_' then 63
    else -1
  }

  /** Up to three bytes as six-bit groups. */
  datatype Quantum = One(a: sextet, b: sextet) | Two(a: sextet, b: sextet, c: sextet) | Three(a: sextet, b: sextet, c: sextet, d: sextet)

  function Split(bs: Bytes): Quantum
    requires 1 <= |bs|
  {
    if |bs| == 1 then One(bs[0] / 4, bs[0] % 4 * 16)
    else if |bs| == 2 then Two(bs[0] / 4, bs[0] % 4 * 16 + bs[1] / 16, bs[1] % 16 * 4)
    else Three(bs[0] / 4, bs[0] % 4 * 16 + bs[1] / 16, bs[1] % 16 * 4 + bs[2] / 64, bs[2] % 64)
  }

  function Join(q: Quantum): Bytes {
    match q
    case One(a, b) => [a * 4 + b / 16]
    case Two(a, b, c) => [a * 4 + b / 16, b % 16 * 16 + c / 4]
    case Three(a, b, c, d) => [a * 4 + b / 16, b % 16 * 16 + c / 4, c % 4 * 64 + d]
  }

  function Write(q: Quantum): (s: string)
    ensures |s| == 4
  {
    match q
    case One(a, b) => [Symbol(a), Symbol(b), '=', '=']
    case Two(a, b, c) => [Symbol(a), Symbol(b), Symbol(c), '=']
    case Three(a, b, c, d) => [Symbol(a), Symbol(b), Symbol(c), Symbol(d)]
  }

  /** Four characters read as a quantum; padding is only allowed in the last one. */
  function Read(s: string, last: bool): Option<Quantum>
    requires |s| == 4
  {
    if SymbolValue(s[0]) < 0 || SymbolValue(s[1]) < 0 then None
    else if last && s[2] == '=' && s[3] == '=' then Some(One(SymbolValue(s[0]), SymbolValue(s[1])))
    else if SymbolValue(s[2]) < 0 then None
    else if last && s[3] == '=' then Some(Two(SymbolValue(s[0]), SymbolValue(s[1]), SymbolValue(s[2])))
    else if SymbolValue(s[3]) < 0 then None
    else Some(Three(SymbolValue(s[0]), SymbolValue(s[1]), SymbolValue(s[2]), SymbolValue(s[3])))
  }

  function Encode(bs: Bytes): string {
    if |bs| == 0 then ""
    else if |bs| <= 3 then Write(Split(bs))
    else Write(Split(bs[..3])) + Encode(bs[3..])
  }

  function StripNewlines(s: string): string {
    if s == "" then ""
    else if s[0] == '\r' || s[0] == '\n' then StripNewlines(s[1..])
    else [s[0]] + StripNewlines(s[1..])
  }

  function DecodeQuanta(t: string): Option<Bytes> {
    if |t| == 0 then Some([])
    else if |t| < 4 then None
    else
      match Read(t[..4], |t| == 4)
      case None => None
      case Some(q) =>
        match DecodeQuanta(t[4..])
        case None => None
        case Some(rest) => Some(Join(q) + rest)
  }

  function Decode(s: string): Option<Bytes> {
    DecodeQuanta(StripNewlines(s))
  }

  /** Cutting a byte at a multiple of its place value and putting it together again. */
  lemma CutAndJoin(x: byte, y: byte, z: byte)
    ensures x / 4 * 4 + (x % 4 * 16 + y / 16) / 16 == x
    ensures (x % 4 * 16 + y / 16) % 16 == y / 16
    ensures y / 16 * 16 + (y % 16 * 4 + z / 64) / 4 == y
    ensures (y % 16 * 4 + z / 64) % 4 == z / 64
    ensures x % 4 * 16 / 16 == x % 4 && y % 16 * 4 / 4 == y % 16
  {
  }

  lemma JoinOne(x: byte)
    ensures Join(Split([x])) == [x]
  {
    CutAndJoin(x, 0, 0);
  }

  lemma JoinTwo(x: byte, y: byte)
    ensures Join(Split([x, y])) == [x, y]
  {
    CutAndJoin(x, y, 0);
  }

  lemma JoinThree(x: byte, y: byte, z: byte)
    ensures Join(Split([x, y, z])) == [x, y, z]
  {
    CutAndJoin(x, y, z);
  }

  lemma JoinAfterSplit(bs: Bytes)
    requires 1 <= |bs| <= 3
    ensures Join(Split(bs)) == bs
  {
    if |bs| == 1 {
      assert bs == [bs[0]];
      JoinOne(bs[0]);
    } else if |bs| == 2 {
      assert bs == [bs[0], bs[1]];
      JoinTwo(bs[0], bs[1]);
    } else {
      assert bs == [bs[0], bs[1], bs[2]];
      JoinThree(bs[0], bs[1], bs[2]);
    }
  }

  lemma ReadAfterWrite(q: Quantum, last: bool)
    requires q.Three? || last
    ensures Read(Write(q), last) == Some(q)
  {
  }

  lemma DecodeFirst(q: Quantum, rest: string)
    requires q.Three? || rest == ""
    ensures DecodeQuanta(Write(q) + rest) ==
            match DecodeQuanta(rest) case None => None case Some(bs) => Some(Join(q) + bs)
  {
    var t := Write(q) + rest;
    assert t[..4] == Write(q) && t[4..] == rest;
    ReadAfterWrite(q, |t| == 4);
  }

  lemma {:induction false} QuantaRoundTrip(bs: Bytes)
    ensures DecodeQuanta(Encode(bs)) == Some(bs)
  {
    if 1 <= |bs| <= 3 {
      JoinAfterSplit(bs);
      DecodeFirst(Split(bs), "");
      assert Write(Split(bs)) + "" == Write(Split(bs));
      assert bs + [] == bs;
    } else if |bs| > 3 {
      JoinAfterSplit(bs[..3]);
      QuantaRoundTrip(bs[3..]);
      DecodeFirst(Split(bs[..3]), Encode(bs[3..]));
      assert bs[..3] + bs[3..] == bs;
    }
  }

  lemma {:induction false} EncodingHasNoNewlines(bs: Bytes)
    ensures forall i :: 0 <= i < |Encode(bs)| ==> Encode(bs)[i] == '=' || SymbolValue(Encode(bs)[i]) >= 0
  {
    if |bs| > 3 {
      EncodingHasNoNewlines(bs[3..]);
    }
  }

  lemma {:induction false} NothingToStrip(s: string)
    requires forall i :: 0 <= i < |s| ==> s[i] == '=' || SymbolValue(s[i]) >= 0
    ensures StripNewlines(s) == s
  {
    if s != "" {
      NothingToStrip(s[1..]);
    }
  }

  /** Decoding an encoded path gives the path back. */
  lemma DecodeAfterEncode(bs: Bytes)
    ensures Decode(Encode(bs)) == Some(bs)
  {
    EncodingHasNoNewlines(bs);
    NothingToStrip(Encode(bs));
    QuantaRoundTrip(bs);
  }

  /** Different paths have different directory names. */
  lemma EncodeIsInjective(a: Bytes, b: Bytes)
    requires Encode(a) == Encode(b)
    ensures a == b
  {
    DecodeAfterEncode(a);
    DecodeAfterEncode(b);
  }

  // ---- What else decodes ----

  lemma {:induction false} StripsNewline(a: string, c: char, b: string)
    requires c == '\r' || c == '\n'
    ensures StripNewlines(a + [c] + b) == StripNewlines(a + b)
  {
    if a == "" {
      assert a + [c] + b == [c] + b && a + b == b;
    } else {
      assert (a + [c] + b)[1..] == a[1..] + [c] + b && (a + b)[1..] == a[1..] + b;
      StripsNewline(a[1..], c, b);
    }
  }

  /** Line breaks anywhere in a name do not change what it decodes to. */
  lemma DecodeIgnoresLineBreaks(a: string, c: char, b: string)
    requires c == '\r' || c == '\n'
    ensures Decode(a + [c] + b) == Decode(a + b)
  {
    StripsNewline(a, c, b);
  }

  /** Otherwise only whole groups of four symbols decode, padding being allowed in the last two places. */
  lemma {:induction false} DecodedIsWellFormed(t: string)
    requires DecodeQuanta(t).Some?
    ensures |t| % 4 == 0
    ensures forall i :: 0 <= i < |t| ==> SymbolValue(t[i]) >= 0 || (t[i] == '=' && i >= |t| - 2)
  {
    if |t| > 0 {
      DecodedIsWellFormed(t[4..]);
      assert forall i :: 4 <= i < |t| ==> t[i] == t[4..][i - 4];
      assert t[..4][0] == t[0] && t[..4][1] == t[1] && t[..4][2] == t[2] && t[..4][3] == t[3];
    }
  }
}
