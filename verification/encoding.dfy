/**
 The byte encodings the keyword facet uses for its node ids: `String.getBytes()`
 with UTF-8 as the platform charset, followed by `Base64.getEncoder()`, the
 basic alphabet with padding of section 4 of RFC 4648. Each encoder comes with
 its decoder and the round trip that relates them.
 */
module Encoding {
  import opened Nullable

  type Byte = b: int | 0 <= b < 256

  // ---------------------------------------------------------------------
  // UTF-8
  // ---------------------------------------------------------------------

  /** A continuation byte: `10` followed by the low six bits of `n`. */
  function Cont(n: nat): Byte
  {
    0x80 + n % 64
  }

  /** The UTF-8 bytes of one Unicode scalar value (section 3 of RFC 3629). */
  function Utf8Char(c: char): (r: seq<Byte>)
    ensures 1 <= |r| <= 4
    ensures |r| == 1 <==> (c as int) < 0x80
    ensures |r| == 1 ==> r[0] == c as int
  {
    var n := c as int;
    if n < 0x80 then [n]
    else if n < 0x800 then [0xC0 + n / 64, Cont(n)]
    else if n < 0x10000 then [0xE0 + n / 4096, Cont(n / 64), Cont(n)]
    else [0xF0 + n / 262144, Cont(n / 4096), Cont(n / 64), Cont(n)]
  }

  /** A string's UTF-8 bytes, character after character. */
  function Utf8(s: string): (r: seq<Byte>)
    ensures |s| <= |r| <= 4 * |s|
  {
    if |s| == 0 then [] else Utf8Char(s[0]) + Utf8(s[1..])
  }

  predicate Ascii(s: string)
  {
    forall i :: 0 <= i < |s| ==> (s[i] as int) < 0x80
  }

  /** An ASCII string encodes to its own character codes, one byte each. */
  lemma {:induction false} Utf8Ascii(s: string)
    requires Ascii(s)
    ensures |Utf8(s)| == |s|
    ensures forall i :: 0 <= i < |s| ==> Utf8(s)[i] == s[i] as int
  {
    if |s| > 0 {
      Utf8Ascii(s[1..]);
      assert Utf8(s) == [s[0] as int] + Utf8(s[1..]);
    }
  }

  /** The number of bytes a sequence starting with lead byte `b` has; 0 when `b` cannot lead one. */
  function SequenceLength(b: Byte): nat
  {
    if b < 0x80 then 1
    else if 0xC0 <= b < 0xE0 then 2
    else if 0xE0 <= b < 0xF0 then 3
    else if 0xF0 <= b < 0xF8 then 4
    else 0
  }

  predicate IsCont(b: Byte)
  {
    0x80 <= b < 0xC0
  }

  /** The character with code point `n`, when `n` is a Unicode scalar value. */
  function ScalarChar(n: int): Option<char>
  {
    if 0 <= n < 0xD800 || 0xE000 <= n < 0x11_0000 then Some(n as char) else None
  }

  /** The code point a well-formed sequence of `k` bytes carries. */
  function CodePoint(bs: seq<Byte>, k: nat): int
    requires 1 <= k <= 4 && k <= |bs|
  {
    var b: seq<int> := bs;
    if k == 1 then b[0]
    else if k == 2 then (b[0] - 0xC0) * 64 + (b[1] - 0x80)
    else if k == 3 then (b[0] - 0xE0) * 4096 + (b[1] - 0x80) * 64 + (b[2] - 0x80)
    else (b[0] - 0xF0) * 262144 + (b[1] - 0x80) * 4096 + (b[2] - 0x80) * 64 + (b[3] - 0x80)
  }

  /** UTF-8 decoding: None on a bad lead byte, a truncated sequence, a bad continuation byte or a non-scalar code point. */
  function Utf8Decode(bs: seq<Byte>): (r: Option<string>)
    ensures r.Some? ==> |r.value| <= |bs|
    decreases |bs|
  {
    if |bs| == 0 then Some([])
    else
      var k := SequenceLength(bs[0]);
      if k == 0 || |bs| < k || (exists i :: 1 <= i < k && !IsCont(bs[i])) then None
      else match ScalarChar(CodePoint(bs, k))
        case None => None
        case Some(c) =>
          match Utf8Decode(bs[k..])
          case None => None
          case Some(rest) => Some([c] + rest)
  }

  /** One character's bytes decode back to it, whatever follows. */
  lemma Utf8CharDecodes(c: char, rest: seq<Byte>)
    ensures var bs := Utf8Char(c) + rest;
      && SequenceLength(bs[0]) == |Utf8Char(c)|
      && (forall i :: 1 <= i < |Utf8Char(c)| ==> IsCont(bs[i]))
      && CodePoint(bs, |Utf8Char(c)|) == c as int
  {
    var n := c as int;
    var bs := Utf8Char(c) + rest;
    if n >= 0x10000 {
      assert n / 4096 == (n / 262144) * 64 + (n / 4096) % 64;
      assert n / 64 == (n / 4096) * 64 + (n / 64) % 64;
      assert n == (n / 64) * 64 + n % 64;
    } else if n >= 0x800 {
      assert n / 64 == (n / 4096) * 64 + (n / 64) % 64;
      assert n == (n / 64) * 64 + n % 64;
    }
  }

  /** Decoding undoes `Utf8`: `new String(s.getBytes(UTF_8), UTF_8).equals(s)`. */
  lemma {:induction false} Utf8RoundTrip(s: string)
    ensures Utf8Decode(Utf8(s)) == Some(s)
  {
    if |s| > 0 {
      var head := Utf8Char(s[0]);
      var bs := Utf8(s);
      assert bs == head + Utf8(s[1..]);
      Utf8CharDecodes(s[0], Utf8(s[1..]));
      assert bs[|head|..] == Utf8(s[1..]);
      Utf8RoundTrip(s[1..]);
      assert ScalarChar(s[0] as int) == Some(s[0]);
      assert [s[0]] + s[1..] == s;
    }
  }

  /** Different strings have different UTF-8 bytes, so a byte-derived id tells keywords apart. */
  lemma Utf8Injective(s: string, t: string)
    requires Utf8(s) == Utf8(t)
    ensures s == t
  {
    Utf8RoundTrip(s);
    Utf8RoundTrip(t);
  }

  // ---------------------------------------------------------------------
  // Base64, section 4 of RFC 4648
  // ---------------------------------------------------------------------

  /** The character for a six-bit value in the basic alphabet (Table 1 of RFC 4648). */
  function Digit(i: int): char
    requires 0 <= i < 64
  {
    if i < 26 then ('A' as int + i) as char
    else if i < 52 then ('a' as int + i - 26) as char
    else if i < 62 then ('0' as int + i - 52) as char
    else if i == 62 then '+'
    else '/'
  }

  /** The six-bit value of an alphabet character; None for anything else, the pad character included. */
  function DigitValue(c: char): (r: Option<int>)
    ensures r.Some? ==> 0 <= r.value < 64
  {
    if 'A' <= c <= 'Z' then Some(c as int - 'A' as int)
    else if 'a' <= c <= 'z' then Some(c as int - 'a' as int + 26)
    else if '0' <= c <= '9' then Some(c as int - '0' as int + 52)
    else if c == '+' then Some(62)
    else if c == '/' then Some(63)
    else None
  }

  lemma DigitDecodes(i: int)
    requires 0 <= i < 64
    ensures DigitValue(Digit(i)) == Some(i)
  {
  }

  const Pad := '='

  /** The four characters of a full group of three bytes. */
  function Group3(x: Byte, y: Byte, z: Byte): string
  {
    [Digit(x / 4), Digit(x % 4 * 16 + y / 16), Digit(y % 16 * 4 + z / 64), Digit(z % 64)]
  }

  /** The four characters of a final group of two bytes: three digits and one pad. */
  function Group2(x: Byte, y: Byte): string
  {
    [Digit(x / 4), Digit(x % 4 * 16 + y / 16), Digit(y % 16 * 4), Pad]
  }

  /** The four characters of a final group of one byte: two digits and two pads. */
  function Group1(x: Byte): string
  {
    [Digit(x / 4), Digit(x % 4 * 16), Pad, Pad]
  }

  /** `Base64.getEncoder().encode`: each group of three bytes becomes four digits, a final short group is padded with "=". */
  function Base64(bs: seq<Byte>): (r: string)
    ensures |r| == 4 * ((|bs| + 2) / 3)
    decreases |bs|
  {
    if |bs| == 0 then ""
    else if |bs| == 1 then Group1(bs[0])
    else if |bs| == 2 then Group2(bs[0], bs[1])
    else Group3(bs[0], bs[1], bs[2]) + Base64(bs[3..])
  }

  /** The bytes one group of four characters stands for; padding is accepted only in the final group. */
  function DecodeQuad(q: string, last: bool): (r: Option<seq<Byte>>)
    requires |q| == 4
    ensures r.Some? ==> 1 <= |r.value| <= 3 && (|r.value| < 3 ==> last)
  {
    match (DigitValue(q[0]), DigitValue(q[1]), DigitValue(q[2]), DigitValue(q[3]))
    case (Some(a), Some(b), Some(c), Some(d)) =>
      Some([a * 4 + b / 16, b % 16 * 16 + c / 4, c % 4 * 64 + d])
    case (Some(a), Some(b), Some(c), None) =>
      if last && q[3] == Pad then Some([a * 4 + b / 16, b % 16 * 16 + c / 4]) else None
    case (Some(a), Some(b), None, None) =>
      if last && q[2] == Pad && q[3] == Pad then Some([a * 4 + b / 16]) else None
    case _ => None
  }

  /** Base64 decoding: None when the length is not a multiple of four or a group is malformed. */
  function Base64Decode(t: string): (r: Option<seq<Byte>>)
    decreases |t|
  {
    if |t| == 0 then Some([])
    else if |t| < 4 then None
    else match DecodeQuad(t[..4], |t| == 4)
      case None => None
      case Some(b) =>
        match Base64Decode(t[4..])
        case None => None
        case Some(rest) => Some(b + rest)
  }

  /** The bit arithmetic of one full group: three bytes, split into four six-bit digits, join back. */
  lemma GroupBits(x: Byte, y: Byte, z: Byte)
    ensures x / 4 * 4 + (x % 4 * 16 + y / 16) / 16 == x
    ensures (x % 4 * 16 + y / 16) % 16 * 16 + (y % 16 * 4 + z / 64) / 4 == y
    ensures (y % 16 * 4 + z / 64) % 4 * 64 + z % 64 == z
  {
  }

  lemma Group3Decodes(x: Byte, y: Byte, z: Byte, last: bool)
    ensures DecodeQuad(Group3(x, y, z), last) == Some([x, y, z])
  {
    GroupBits(x, y, z);
    DigitDecodes(x / 4);
    DigitDecodes(x % 4 * 16 + y / 16);
    DigitDecodes(y % 16 * 4 + z / 64);
    DigitDecodes(z % 64);
  }

  lemma Group2Decodes(x: Byte, y: Byte)
    ensures DecodeQuad(Group2(x, y), true) == Some([x, y])
  {
    GroupBits(x, y, 0);
    DigitDecodes(x / 4);
    DigitDecodes(x % 4 * 16 + y / 16);
    DigitDecodes(y % 16 * 4);
  }

  lemma Group1Decodes(x: Byte)
    ensures DecodeQuad(Group1(x), true) == Some([x])
  {
    GroupBits(x, 0, 0);
    DigitDecodes(x / 4);
    DigitDecodes(x % 4 * 16);
  }

  /** Decoding consumes the first group of four characters, then the rest. */
  lemma DecodeStep(t: string, head: seq<Byte>, rest: seq<Byte>)
    requires |t| >= 4
    requires DecodeQuad(t[..4], |t| == 4) == Some(head)
    requires Base64Decode(t[4..]) == Some(rest)
    ensures Base64Decode(t) == Some(head + rest)
  {
  }

  lemma RoundTripOne(bs: seq<Byte>)
    requires |bs| == 1
    ensures Base64Decode(Base64(bs)) == Some(bs)
  {
    var t := Group1(bs[0]);
    assert Base64(bs) == t;
    Group1Decodes(bs[0]);
    assert t[..4] == t && t[4..] == [];
    DecodeStep(t, [bs[0]], []);
    assert [bs[0]] + [] == bs;
  }

  lemma RoundTripTwo(bs: seq<Byte>)
    requires |bs| == 2
    ensures Base64Decode(Base64(bs)) == Some(bs)
  {
    var t := Group2(bs[0], bs[1]);
    assert Base64(bs) == t;
    Group2Decodes(bs[0], bs[1]);
    assert t[..4] == t && t[4..] == [];
    DecodeStep(t, [bs[0], bs[1]], []);
    assert [bs[0], bs[1]] + [] == bs;
  }

  /** Decoding undoes `Base64`: `Base64.getDecoder().decode(Base64.getEncoder().encode(b))` gives `b` back. */
  lemma {:induction false} Base64RoundTrip(bs: seq<Byte>)
    ensures Base64Decode(Base64(bs)) == Some(bs)
    decreases |bs|
  {
    if |bs| == 1 {
      RoundTripOne(bs);
    } else if |bs| == 2 {
      RoundTripTwo(bs);
    } else if |bs| >= 3 {
      var g := Group3(bs[0], bs[1], bs[2]);
      var t := g + Base64(bs[3..]);
      assert Base64(bs) == t;
      Group3Decodes(bs[0], bs[1], bs[2], |t| == 4);
      assert t[..4] == g && t[4..] == Base64(bs[3..]);
      Base64RoundTrip(bs[3..]);
      DecodeStep(t, [bs[0], bs[1], bs[2]], bs[3..]);
      assert [bs[0], bs[1], bs[2]] + bs[3..] == bs;
    }
  }

  /** The id of a text: the Base64 of its UTF-8 bytes (`Base64.getEncoder().encodeToString(s.getBytes())`). */
  function TextId(s: string): (r: string)
    ensures |r| % 4 == 0 && (s == [] <==> r == [])
  {
    Base64(Utf8(s))
  }

  /** The text an id stands for can be read back from the id alone, so distinct texts get distinct ids. */
  lemma TextIdDecodes(s: string)
    ensures Base64Decode(TextId(s)).Some? && Utf8Decode(Base64Decode(TextId(s)).value) == Some(s)
  {
    Base64RoundTrip(Utf8(s));
    Utf8RoundTrip(s);
  }

  lemma TextIdInjective(s: string, t: string)
    requires TextId(s) == TextId(t)
    ensures s == t
  {
    TextIdDecodes(s);
    TextIdDecodes(t);
  }
}
