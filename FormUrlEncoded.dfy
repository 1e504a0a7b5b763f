/**
 * The application/x-www-form-urlencoded format of the WHATWG URL Standard (section 5), which
 * `URLSearchParams` uses to write a URL's query: UTF-8 (RFC 3629) encoding of each name and
 * value, percent-encoding of every byte other than ASCII alphanumerics and `*-._`, a space
 * written as `+`, `name=value` pairs joined by `&`. The parser of section 5.1 is modelled
 * beside the serializer of section 5.2, and the two are proved inverse.
 */
module FormUrlEncoded {
  import opened Wrappers

  type byte = b: int | 0 <= b < 256

  const SPACE: byte := 0x20
  const PERCENT: byte := 0x25
  const AMPERSAND: byte := 0x26
  const PLUS: byte := 0x2B
  const EQUALS: byte := 0x3D

  // ---------------------------------------------------------------- UTF-8

  predicate IsContinuation(b: byte) { 0x80 <= b < 0xC0 }

  /** The UTF-8 bytes of one Unicode scalar value. */
  function EncodeChar(c: char): (r: seq<byte>)
    ensures 1 <= |r| <= 4
  {
    var n := c as int;
    if n < 0x80 then [n]
    else if n < 0x800 then [0xC0 + n / 64, 0x80 + n % 64]
    else if n < 0x10000 then [0xE0 + n / 4096, 0x80 + (n / 64) % 64, 0x80 + n % 64]
    else [0xF0 + n / 0x40000, 0x80 + (n / 4096) % 64, 0x80 + (n / 64) % 64, 0x80 + n % 64]
  }

  function Utf8Encode(s: string): seq<byte>
    decreases |s|
  {
    if s == [] then [] else EncodeChar(s[0]) + Utf8Encode(s[1..])
  }

  /**
   * Reads one scalar value from the front of `b` and says how many bytes it took; `None` for
   * a malformed, overlong or surrogate sequence.
   */
  function DecodeChar(b: seq<byte>): (r: Option<(char, nat)>)
    requires b != []
    ensures r.Some? ==> 1 <= r.value.1 <= |b|
  {
    var b0 := b[0] as int;
    if b0 < 0x80 then Some((b0 as char, 1))
    else if 0xC2 <= b0 < 0xE0 && |b| >= 2 && IsContinuation(b[1]) then
      Some((((b0 - 0xC0) * 64 + (b[1] as int - 0x80)) as char, 2))
    else if 0xE0 <= b0 < 0xF0 && |b| >= 3 && IsContinuation(b[1]) && IsContinuation(b[2]) then
      var n := (b0 - 0xE0) * 4096 + (b[1] as int - 0x80) * 64 + (b[2] as int - 0x80);
      if n < 0x800 || 0xD800 <= n < 0xE000 then None else Some((n as char, 3))
    else if 0xF0 <= b0 < 0xF5 && |b| >= 4
            && IsContinuation(b[1]) && IsContinuation(b[2]) && IsContinuation(b[3]) then
      var n := (b0 - 0xF0) * 0x40000 + (b[1] as int - 0x80) * 4096 + (b[2] as int - 0x80) * 64 + (b[3] as int - 0x80);
      if n < 0x10000 || n >= 0x110000 then None else Some((n as char, 4))
    else None
  }

  /** UTF-8 decode without BOM handling; `None` where the standard would substitute U+FFFD. */
  function Utf8Decode(b: seq<byte>): Option<string>
    decreases |b|
  {
    if b == [] then Some([])
    else match DecodeChar(b)
      case None => None
      case Some((c, k)) =>
        match Utf8Decode(b[k..])
        case None => None
        case Some(rest) => Some([c] + rest)
  }

  lemma DecodeEncodedChar(c: char, rest: seq<byte>)
    ensures DecodeChar(EncodeChar(c) + rest) == Some((c, |EncodeChar(c)|))
  {
    var n := c as int;
    var b := EncodeChar(c) + rest;
    if n < 0x80 {
    } else if n < 0x800 {
      assert (b[0] as int - 0xC0) * 64 + (b[1] as int - 0x80) == n;
    } else if n < 0x10000 {
      assert n / 4096 == (n / 64) / 64;
      assert (b[0] as int - 0xE0) * 4096 + (b[1] as int - 0x80) * 64 + (b[2] as int - 0x80) == n;
    } else {
      assert n / 0x40000 == ((n / 64) / 64) / 64;
      assert n / 4096 == (n / 64) / 64;
      assert (b[0] as int - 0xF0) * 0x40000 + (b[1] as int - 0x80) * 4096 + (b[2] as int - 0x80) * 64 + (b[3] as int - 0x80) == n;
    }
  }

  /** Decoding the UTF-8 encoding of a string gives the string back. */
  lemma {:induction false} Utf8RoundTrip(s: string)
    ensures Utf8Decode(Utf8Encode(s)) == Some(s)
    decreases |s|
  {
    if s != [] {
      var e := EncodeChar(s[0]);
      var b := Utf8Encode(s);
      DecodeEncodedChar(s[0], Utf8Encode(s[1..]));
      assert b[|e|..] == Utf8Encode(s[1..]);
      Utf8RoundTrip(s[1..]);
      assert s == [s[0]] + s[1..];
    }
  }

  // ---------------------------------------------------------------- percent-encoding

  predicate IsAsciiAlnumByte(b: byte)
  {
    0x30 <= b <= 0x39 || 0x41 <= b <= 0x5A || 0x61 <= b <= 0x7A
  }

  /** The bytes outside the application/x-www-form-urlencoded percent-encode set. */
  predicate KeptAsIs(b: byte)
  {
    IsAsciiAlnumByte(b) || b == 0x2A || b == 0x2D || b == 0x2E || b == 0x5F
  }

  /** An upper-case hexadecimal digit, as the serializer writes it. */
  function HexDigit(d: int): (h: byte)
    requires 0 <= d < 16
    ensures IsHexDigit(h) && HexValue(h) == d
  {
    if d < 10 then 0x30 + d else 0x41 + (d - 10)
  }

  predicate IsHexDigit(b: byte)
  {
    0x30 <= b <= 0x39 || 0x41 <= b <= 0x46 || 0x61 <= b <= 0x66
  }

  function HexValue(b: byte): (d: int)
    requires IsHexDigit(b)
    ensures 0 <= d < 16
  {
    if b <= 0x39 then b - 0x30 else if b <= 0x46 then b - 0x41 + 10 else b - 0x61 + 10
  }

  /** What the serializer writes for one byte: `+`, the byte itself, or `%XX`. */
  function EncodeByte(b: byte): (r: seq<byte>)
    ensures forall i :: 0 <= i < |r| ==> r[i] < 0x80 && r[i] != AMPERSAND && r[i] != EQUALS
    ensures |r| == 1 <==> b == SPACE || KeptAsIs(b)
    ensures b != SPACE && !KeptAsIs(b) ==>
      |r| == 3 && r[0] == PERCENT && IsHexDigit(r[1]) && IsHexDigit(r[2])
      && 16 * HexValue(r[1]) + HexValue(r[2]) == b
  {
    if b == SPACE then [PLUS]
    else if KeptAsIs(b) then [b]
    else [PERCENT, HexDigit(b / 16), HexDigit(b % 16)]
  }

  function PercentEncode(bs: seq<byte>): (r: seq<byte>)
    ensures forall i :: 0 <= i < |r| ==> r[i] < 0x80 && r[i] != AMPERSAND && r[i] != EQUALS
    decreases |bs|
  {
    if bs == [] then []
    else
      var head, tail := EncodeByte(bs[0]), PercentEncode(bs[1..]);
      assert forall i :: |head| <= i < |head| + |tail| ==> (head + tail)[i] == tail[i - |head|];
      head + tail
  }

  /** The serializer's output for one name or value. */
  function EncodeText(s: string): seq<byte>
  {
    PercentEncode(Utf8Encode(s))
  }

  /** Every `+` read as a space: the parser's first step on a name or value. */
  function ReplacePlus(b: seq<byte>): (r: seq<byte>)
    ensures |r| == |b|
  {
    seq(|b|, i requires 0 <= i < |b| => if b[i] == PLUS then SPACE else b[i])
  }

  /** Percent-decoding (section 1.3 of the URL Standard): `%` and two hex digits become one byte. */
  function PercentDecode(b: seq<byte>): seq<byte>
    decreases |b|
  {
    if b == [] then []
    else if b[0] == PERCENT && |b| >= 3 && IsHexDigit(b[1]) && IsHexDigit(b[2]) then
      [HexValue(b[1]) * 16 + HexValue(b[2])] + PercentDecode(b[3..])
    else [b[0]] + PercentDecode(b[1..])
  }

  /** The parser's reading of one name or value. */
  function DecodeText(b: seq<byte>): Option<string>
  {
    Utf8Decode(PercentDecode(ReplacePlus(b)))
  }

  lemma ReplacePlusAppend(a: seq<byte>, b: seq<byte>)
    ensures ReplacePlus(a + b) == ReplacePlus(a) + ReplacePlus(b)
  {
  }

  lemma DecodeEncodedByte(b: byte, rest: seq<byte>)
    ensures PercentDecode(ReplacePlus(EncodeByte(b)) + rest) == [b] + PercentDecode(rest)
  {
    var e := ReplacePlus(EncodeByte(b));
    if b == SPACE {
      assert e == [SPACE];
    } else if KeptAsIs(b) {
      assert e == [b];
    } else {
      assert e == [PERCENT, HexDigit(b / 16), HexDigit(b % 16)];
      assert (e + rest)[3..] == rest;
    }
  }

  /** Undoing `+` and `%XX` recovers exactly the bytes that were percent-encoded. */
  lemma {:induction false} PercentRoundTrip(bs: seq<byte>)
    ensures PercentDecode(ReplacePlus(PercentEncode(bs))) == bs
    decreases |bs|
  {
    if bs != [] {
      ReplacePlusAppend(EncodeByte(bs[0]), PercentEncode(bs[1..]));
      DecodeEncodedByte(bs[0], ReplacePlus(PercentEncode(bs[1..])));
      PercentRoundTrip(bs[1..]);
    }
  }

  /** The parser reads back every string the serializer writes. */
  lemma TextRoundTrip(s: string)
    ensures DecodeText(EncodeText(s)) == Some(s)
  {
    PercentRoundTrip(Utf8Encode(s));
    Utf8RoundTrip(s);
  }

  // ---------------------------------------------------------------- name/value lists

  function SerializePair(p: (string, string)): (r: seq<byte>)
    ensures forall i :: 0 <= i < |r| ==> r[i] < 0x80 && r[i] != AMPERSAND
  {
    EncodeText(p.0) + [EQUALS] + EncodeText(p.1)
  }

  /** The serializer's bytes: the pairs, in order, joined by `&`. */
  function SerializeBytes(pairs: seq<(string, string)>): (r: seq<byte>)
    ensures forall i :: 0 <= i < |r| ==> r[i] < 0x80
    decreases |pairs|
  {
    if |pairs| == 0 then []
    else if |pairs| == 1 then SerializePair(pairs[0])
    else SerializePair(pairs[0]) + [AMPERSAND] + SerializeBytes(pairs[1..])
  }

  /** ASCII bytes as the characters of a string. */
  function AsciiString(bs: seq<byte>): (s: string)
    requires forall i :: 0 <= i < |bs| ==> bs[i] < 0x80
    ensures |s| == |bs|
    ensures forall i :: 0 <= i < |s| ==> s[i] as int == bs[i]
  {
    seq(|bs|, i requires 0 <= i < |bs| => bs[i] as char)
  }

  /** The application/x-www-form-urlencoded serializer: the query `URLSearchParams` writes. */
  function Serialize(pairs: seq<(string, string)>): string
  {
    AsciiString(SerializeBytes(pairs))
  }

  /** Position of the first `x` in `b`, or `|b|` when there is none. */
  function IndexOf(b: seq<byte>, x: byte): (i: nat)
    ensures i <= |b|
    ensures i < |b| ==> b[i] == x
    ensures forall j :: 0 <= j < i ==> b[j] != x
  {
    if b == [] then 0 else if b[0] == x then 0 else 1 + IndexOf(b[1..], x)
  }

  /** One `&`-separated sequence: split at the first `=`, decode both halves. */
  function ParsePair(segment: seq<byte>): Option<(string, string)>
  {
    var j := IndexOf(segment, EQUALS);
    var name := segment[..j];
    var value := if j < |segment| then segment[j + 1..] else [];
    match (DecodeText(name), DecodeText(value))
    case (Some(n), Some(v)) => Some((n, v))
    case _ => None
  }

  /** The application/x-www-form-urlencoded parser on bytes; empty sequences are skipped. */
  function ParseBytes(b: seq<byte>): Option<seq<(string, string)>>
    decreases |b|
  {
    var i := IndexOf(b, AMPERSAND);
    var rest := if i < |b| then ParseBytes(b[i + 1..]) else Some([]);
    if i == 0 then rest else Prepend(ParsePair(b[..i]), rest)
  }

  function Prepend(p: Option<(string, string)>, rest: Option<seq<(string, string)>>): Option<seq<(string, string)>>
  {
    match (p, rest)
    case (Some(x), Some(xs)) => Some([x] + xs)
    case _ => None
  }

  /** The parser applied to a query string, which it first encodes as UTF-8. */
  function Parse(query: string): Option<seq<(string, string)>>
  {
    ParseBytes(Utf8Encode(query))
  }

  lemma {:induction false} AsciiUtf8(bs: seq<byte>)
    requires forall i :: 0 <= i < |bs| ==> bs[i] < 0x80
    ensures Utf8Encode(AsciiString(bs)) == bs
    decreases |bs|
  {
    if bs != [] {
      var s := AsciiString(bs);
      assert s[1..] == AsciiString(bs[1..]);
      AsciiUtf8(bs[1..]);
      assert bs == [bs[0]] + bs[1..];
    }
  }

  lemma ParseSerializedPair(p: (string, string))
    ensures SerializePair(p) != []
    ensures ParsePair(SerializePair(p)) == Some(p)
  {
    var e := SerializePair(p);
    var n := EncodeText(p.0);
    assert IndexOf(e, EQUALS) == |n| by {
      assert e[|n|] == EQUALS;
      assert forall j :: 0 <= j < |n| ==> e[j] == n[j];
    }
    assert e[..|n|] == n;
    assert e[|n| + 1..] == EncodeText(p.1);
    TextRoundTrip(p.0);
    TextRoundTrip(p.1);
  }

  lemma ParseLastSegment(e: seq<byte>)
    requires e != [] && forall j :: 0 <= j < |e| ==> e[j] != AMPERSAND
    ensures ParseBytes(e) == Prepend(ParsePair(e), Some([]))
  {
    assert IndexOf(e, AMPERSAND) == |e|;
    assert e[..|e|] == e;
  }

  lemma ParseFirstSegment(e: seq<byte>, tail: seq<byte>)
    requires e != [] && forall j :: 0 <= j < |e| ==> e[j] != AMPERSAND
    ensures ParseBytes(e + [AMPERSAND] + tail) == Prepend(ParsePair(e), ParseBytes(tail))
  {
    var b := e + [AMPERSAND] + tail;
    assert IndexOf(b, AMPERSAND) == |e| by {
      assert b[|e|] == AMPERSAND;
      assert forall j :: 0 <= j < |e| ==> b[j] == e[j];
    }
    assert b[..|e|] == e;
    assert b[|e| + 1..] == tail;
  }

  lemma {:induction false} ParseSerializedBytes(pairs: seq<(string, string)>)
    ensures ParseBytes(SerializeBytes(pairs)) == Some(pairs)
    decreases |pairs|
  {
    if |pairs| > 0 {
      var e := SerializePair(pairs[0]);
      ParseSerializedPair(pairs[0]);
      if |pairs| == 1 {
        assert SerializeBytes(pairs) == e;
        ParseLastSegment(e);
        assert [pairs[0]] + [] == pairs;
      } else {
        ParseFirstSegment(e, SerializeBytes(pairs[1..]));
        ParseSerializedBytes(pairs[1..]);
        assert pairs == [pairs[0]] + pairs[1..];
      }
    }
  }

  /** Parsing what the serializer wrote gives back the same pairs, in the same order. */
  lemma ParseSerialize(pairs: seq<(string, string)>)
    ensures Parse(Serialize(pairs)) == Some(pairs)
  {
    AsciiUtf8(SerializeBytes(pairs));
    ParseSerializedBytes(pairs);
  }
}
