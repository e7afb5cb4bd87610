/** The byte encodings behind an HTTP Basic credential: `Buffer.from(s)` encodes a string as
    UTF-8, and `toString("base64")` renders bytes in the base 64 alphabet of section 4 of
    RFC 4648, with `=` padding. Decoding is given so that the credential can be shown to
    carry the user id and password back out. */
module Encoding {
  import opened Common

  type Byte = b: int | 0 <= b < 256
  type Sextet = s: int | 0 <= s < 64

  const Colon: Byte := 0x3A

  /** Table 1 of RFC 4648: the character for a 6-bit value. */
  function AlphabetChar(i: Sextet): (c: char)
    ensures c != '='
  {
    if i < 26 then ('A' as int + i) as char
    else if i < 52 then ('a' as int + (i - 26)) as char
    else if i < 62 then ('0' as int + (i - 52)) as char
    else if i == 62 then '+'
    else '/'
  }

  /** The 6-bit value of an alphabet character; `None` for any other character. */
  function AlphabetIndex(c: char): Option<Sextet> {
    if 'A' <= c <= 'Z' then Some(c as int - 'A' as int)
    else if 'a' <= c <= 'z' then Some(c as int - 'a' as int + 26)
    else if '0' <= c <= '9' then Some(c as int - '0' as int + 52)
    else if c == '+' then Some(62)
    else if c == '/' then Some(63)
    else None
  }

  /** Every 6-bit value is written as a character that reads back as that value. */
  lemma AlphabetRoundTrip(i: Sextet)
    ensures AlphabetIndex(AlphabetChar(i)) == Some(i)
  {
  }

  /** Three bytes as four characters: 24 bits cut into four 6-bit groups, high bits first. */
  function EncodeTriple(b0: Byte, b1: Byte, b2: Byte): string {
    [AlphabetChar(b0 / 4), AlphabetChar((b0 % 4) * 16 + b1 / 16),
     AlphabetChar((b1 % 16) * 4 + b2 / 64), AlphabetChar(b2 % 64)]
  }

  /** `Buffer.toString("base64")`: whole groups of three bytes, then a final group of one or two
      bytes padded with `=` to four characters. */
  function Base64Encode(b: seq<Byte>): (s: string)
    ensures |s| == 4 * ((|b| + 2) / 3)
    decreases |b|
  {
    if |b| == 0 then []
    else if |b| == 1 then [AlphabetChar(b[0] / 4), AlphabetChar((b[0] % 4) * 16), '=', '=']
    else if |b| == 2 then
      [AlphabetChar(b[0] / 4), AlphabetChar((b[0] % 4) * 16 + b[1] / 16), AlphabetChar((b[1] % 16) * 4), '=']
    else EncodeTriple(b[0], b[1], b[2]) + Base64Encode(b[3..])
  }

  /** Decodes one group of four characters, of which the last one or two may be padding. */
  function DecodeQuad(q: string): Option<seq<Byte>>
    requires |q| == 4
  {
    var i0 := AlphabetIndex(q[0]);
    var i1 := AlphabetIndex(q[1]);
    if i0.None? || i1.None? then None
    else
      var b0 := i0.value * 4 + i1.value / 16;
      if q[2] == '=' && q[3] == '=' then Some([b0])
      else
        var i2 := AlphabetIndex(q[2]);
        if i2.None? then None
        else
          var b1 := (i1.value % 16) * 16 + i2.value / 4;
          if q[3] == '=' then Some([b0, b1])
          else
            var i3 := AlphabetIndex(q[3]);
            if i3.None? then None
            else Some([b0, b1, (i2.value % 4) * 64 + i3.value])
  }

  /** Base 64 decoding: groups of four characters; only the last group may carry padding. */
  function Base64Decode(s: string): Option<seq<Byte>>
    decreases |s|
  {
    if |s| == 0 then Some([])
    else if |s| < 4 then None
    else if |s| == 4 then DecodeQuad(s)
    else
      match DecodeQuad(s[..4])
      case None => None
      case Some(head) =>
        if |head| < 3 then None
        else
          match Base64Decode(s[4..])
          case None => None
          case Some(tail) => Some(head + tail)
  }

  /** Division by a power of two splits off the high part of a number built as `x * k + y`. */
  lemma SplitLow4(x: int, y: int)
    requires 0 <= x && 0 <= y < 4
    ensures (x * 4 + y) / 4 == x && (x * 4 + y) % 4 == y
  {
  }

  lemma SplitLow16(x: int, y: int)
    requires 0 <= x && 0 <= y < 16
    ensures (x * 16 + y) / 16 == x && (x * 16 + y) % 16 == y
  {
  }

  lemma SplitLow64(x: int, y: int)
    requires 0 <= x && 0 <= y < 64
    ensures (x * 64 + y) / 64 == x && (x * 64 + y) % 64 == y
  {
  }

  /** The first two characters of any group carry the first byte. */
  lemma FirstByteRoundTrip(b0: Byte, low: int)
    requires 0 <= low < 16
    ensures 0 <= (b0 % 4) * 16 + low < 64
    ensures (b0 / 4) * 4 + ((b0 % 4) * 16 + low) / 16 == b0
    ensures ((b0 % 4) * 16 + low) % 16 == low
  {
    SplitLow16(b0 % 4, low);
  }

  /** The second and third characters of a group carry the second byte. */
  lemma SecondByteRoundTrip(b1: Byte, low: int)
    requires 0 <= low < 4
    ensures 0 <= (b1 % 16) * 4 + low < 64
    ensures (b1 / 16) * 16 + ((b1 % 16) * 4 + low) / 4 == b1
    ensures ((b1 % 16) * 4 + low) % 4 == low
  {
    SplitLow4(b1 % 16, low);
  }

  /** A full group of three bytes decodes back to those bytes. */
  lemma TripleRoundTrip(b0: Byte, b1: Byte, b2: Byte)
    ensures DecodeQuad(EncodeTriple(b0, b1, b2)) == Some([b0, b1, b2])
  {
    FirstByteRoundTrip(b0, b1 / 16);
    SecondByteRoundTrip(b1, b2 / 64);
    var s0: Sextet, s1: Sextet, s2: Sextet, s3: Sextet :=
      b0 / 4, (b0 % 4) * 16 + b1 / 16, (b1 % 16) * 4 + b2 / 64, b2 % 64;
    var q := EncodeTriple(b0, b1, b2);
    assert q == [AlphabetChar(s0), AlphabetChar(s1), AlphabetChar(s2), AlphabetChar(s3)];
    AlphabetRoundTrip(s0);
    AlphabetRoundTrip(s1);
    AlphabetRoundTrip(s2);
    AlphabetRoundTrip(s3);
    assert s0 * 4 + s1 / 16 == b0;
    assert (s1 % 16) * 16 + s2 / 4 == b1;
    SplitLow64(b2 / 64, s3);
    assert (s2 % 4) * 64 + s3 == b2;
  }

  /** A final group of one byte, padded with two `=`, decodes back to that byte. */
  lemma SingleRoundTrip(b0: Byte)
    ensures Base64Decode(Base64Encode([b0])) == Some([b0])
  {
    FirstByteRoundTrip(b0, 0);
    var s0: Sextet, s1: Sextet := b0 / 4, (b0 % 4) * 16;
    AlphabetRoundTrip(s0);
    AlphabetRoundTrip(s1);
    assert s0 * 4 + s1 / 16 == b0;
  }

  /** A final group of two bytes, padded with one `=`, decodes back to those bytes. */
  lemma PairRoundTrip(b0: Byte, b1: Byte)
    ensures Base64Decode(Base64Encode([b0, b1])) == Some([b0, b1])
  {
    FirstByteRoundTrip(b0, b1 / 16);
    SecondByteRoundTrip(b1, 0);
    var s0: Sextet, s1: Sextet, s2: Sextet := b0 / 4, (b0 % 4) * 16 + b1 / 16, (b1 % 16) * 4;
    AlphabetRoundTrip(s0);
    AlphabetRoundTrip(s1);
    AlphabetRoundTrip(s2);
    assert s0 * 4 + s1 / 16 == b0;
    assert (s1 % 16) * 16 + s2 / 4 == b1;
  }

  /** A full group in front of a decodable text contributes its three bytes in front. */
  lemma DecodeAfterFullGroup(q: string, rest: string, head: seq<Byte>, tail: seq<Byte>)
    requires |q| == 4 && DecodeQuad(q) == Some(head) && |head| == 3
    requires Base64Decode(rest) == Some(tail)
    ensures Base64Decode(q + rest) == Some(head + tail)
  {
    if rest == [] {
      assert q + rest == q;
      assert head + tail == head;
    } else {
      assert |rest| >= 4;
      assert (q + rest)[..4] == q && (q + rest)[4..] == rest;
    }
  }

  /** Decoding what was encoded gives back the bytes (section 4 of RFC 4648). */
  lemma {:induction false} Base64RoundTrip(b: seq<Byte>)
    ensures Base64Decode(Base64Encode(b)) == Some(b)
    decreases |b|
  {
    if |b| == 0 {
      assert b == [];
    } else if |b| == 1 {
      var b0 := b[0];
      assert b == [b0];
      SingleRoundTrip(b0);
    } else if |b| == 2 {
      var b0, b1 := b[0], b[1];
      assert b == [b0, b1];
      PairRoundTrip(b0, b1);
    } else {
      var b0, b1, b2, tail := b[0], b[1], b[2], b[3..];
      Base64RoundTrip(tail);
      RoundTripAfterTriple(b0, b1, b2, tail);
      SplitThree(b);
    }
  }

  /** A sequence of three bytes or more is its first three followed by the rest. */
  lemma SplitThree(b: seq<Byte>)
    requires |b| >= 3
    ensures b == [b[0], b[1], b[2]] + b[3..]
  {
    assert b[..3] == [b[0], b[1], b[2]];
    assert b == b[..3] + b[3..];
  }

  /** Encoding three bytes followed by more starts with the group of those three. */
  lemma EncodeFront(b0: Byte, b1: Byte, b2: Byte, tail: seq<Byte>)
    ensures Base64Encode([b0, b1, b2] + tail) == EncodeTriple(b0, b1, b2) + Base64Encode(tail)
  {
    var b := [b0, b1, b2] + tail;
    assert b[0] == b0 && b[1] == b1 && b[2] == b2 && b[3..] == tail;
  }

  /** A round trip of what follows three bytes extends to the whole sequence. */
  lemma RoundTripAfterTriple(b0: Byte, b1: Byte, b2: Byte, tail: seq<Byte>)
    requires Base64Decode(Base64Encode(tail)) == Some(tail)
    ensures Base64Decode(Base64Encode([b0, b1, b2] + tail)) == Some([b0, b1, b2] + tail)
  {
    EncodeFront(b0, b1, b2, tail);
    TripleRoundTrip(b0, b1, b2);
    DecodeAfterFullGroup(EncodeTriple(b0, b1, b2), Base64Encode(tail), [b0, b1, b2], tail);
  }

  /** The UTF-8 encoding of one character (section 3 of RFC 3629). */
  function Utf8Char(c: char): (bs: seq<Byte>)
    ensures 1 <= |bs| <= 4
    ensures c as int < 0x80 <==> |bs| == 1
    ensures |bs| == 1 ==> bs[0] == c as int
    ensures |bs| > 1 ==> forall i :: 0 <= i < |bs| ==> bs[i] >= 0x80
  {
    var u := c as int;
    if u < 0x80 then [u]
    else if u < 0x800 then [0xC0 + u / 0x40, 0x80 + u % 0x40]
    else if u < 0x1_0000 then [0xE0 + u / 0x1000, 0x80 + (u / 0x40) % 0x40, 0x80 + u % 0x40]
    else [0xF0 + (u / 0x4_0000) % 8, 0x80 + (u / 0x1000) % 0x40, 0x80 + (u / 0x40) % 0x40, 0x80 + u % 0x40]
  }

  /** `Buffer.from(s)`: the UTF-8 encoding of a string. */
  function Utf8(s: string): (bs: seq<Byte>)
    ensures |s| <= |bs| <= 4 * |s|
  {
    if s == [] then [] else Utf8Char(s[0]) + Utf8(s[1..])
  }

  /** UTF-8 encodes a concatenation piece by piece. */
  lemma {:induction false} Utf8Concat(a: string, b: string)
    ensures Utf8(a + b) == Utf8(a) + Utf8(b)
  {
    if a == [] {
      assert a + b == b;
    } else {
      assert (a + b)[0] == a[0] && (a + b)[1..] == a[1..] + b;
      Utf8Concat(a[1..], b);
    }
  }

  /** Only a colon character produces a colon byte: every byte of a multi-byte sequence is at
      least 0x80. */
  lemma {:induction false} Utf8NoColon(s: string)
    requires forall i :: 0 <= i < |s| ==> s[i] != ':'
    ensures forall j :: 0 <= j < |Utf8(s)| ==> Utf8(s)[j] != Colon
  {
    if s != [] {
      Utf8NoColon(s[1..]);
      var head := Utf8Char(s[0]);
      forall j | 0 <= j < |Utf8(s)| ensures Utf8(s)[j] != Colon {
        if j >= |head| {
          assert Utf8(s)[j] == Utf8(s[1..])[j - |head|];
        }
      }
    }
  }

  /** The bytes before the first `sep` and the bytes after it; all of `b` and nothing when
      `sep` does not occur. */
  function SplitAtFirst(b: seq<Byte>, sep: Byte): (parts: (seq<Byte>, seq<Byte>))
    ensures forall i :: 0 <= i < |parts.0| ==> parts.0[i] != sep
  {
    if b == [] then ([], [])
    else if b[0] == sep then ([], b[1..])
    else var rest := SplitAtFirst(b[1..], sep); ([b[0]] + rest.0, rest.1)
  }

  /** Joining two byte strings with a separator the first does not contain, then splitting at
      the first separator, gives the two strings back. */
  lemma {:induction false} SplitAtFirstOfJoin(a: seq<Byte>, sep: Byte, b: seq<Byte>)
    requires forall i :: 0 <= i < |a| ==> a[i] != sep
    ensures SplitAtFirst(a + [sep] + b, sep) == (a, b)
  {
    if a == [] {
      assert a + [sep] + b == [sep] + b;
    } else {
      assert (a + [sep] + b)[0] == a[0];
      assert (a + [sep] + b)[1..] == a[1..] + [sep] + b;
      SplitAtFirstOfJoin(a[1..], sep, b);
      assert [a[0]] + a[1..] == a;
    }
  }
}
