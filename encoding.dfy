/**
 * The two encodings behind `new Buffer(text).toString('base64')`: the text is encoded as
 * UTF-8 (section 3 of RFC 3629), and the bytes as base64 (section 4 of RFC 4648).
 * Each encoder comes with a decoder and a round-trip lemma.
 */
module Encoding {
  import opened Wrappers

  newtype byte = x: int | 0 <= x < 256

  // ---------------------------------------------------------------- UTF-8

  predicate Continuation(b: byte)
  {
    0x80 <= b < 0xC0
  }

  /** The UTF-8 encoding of one Unicode scalar value: one byte for ASCII, continuation bytes after the lead. */
  function Utf8Char(c: char): (r: seq<byte>)
    ensures 1 <= |r| <= 4
    ensures |r| == 1 <==> c as int < 0x80
    ensures |r| == 1 ==> r[0] as int == c as int
    ensures forall i :: 1 <= i < |r| ==> Continuation(r[i])
  {
    var n := c as int;
    if n < 0x80 then [n as byte]
    else if n < 0x800 then [(0xC0 + n / 64) as byte, (0x80 + n % 64) as byte]
    else if n < 0x10000 then
      [(0xE0 + n / 64 / 64) as byte, (0x80 + n / 64 % 64) as byte, (0x80 + n % 64) as byte]
    else
      [(0xF0 + n / 64 / 64 / 64) as byte, (0x80 + n / 64 / 64 % 64) as byte, (0x80 + n / 64 % 64) as byte,
       (0x80 + n % 64) as byte]
  }

  function Utf8Encode(s: string): (r: seq<byte>)
    ensures |r| >= |s|
  {
    if s == [] then [] else Utf8Char(s[0]) + Utf8Encode(s[1..])
  }

  predicate IsScalar(n: int)
  {
    (0 <= n < 0xD800) || (0xE000 <= n < 0x11_0000)
  }

  /** The scalar value `b` starts with and the number of bytes it takes; None on a malformed or overlong sequence. */
  function DecodeFirst(b: seq<byte>): (r: Option<(char, nat)>)
    requires |b| > 0
    ensures r.Some? ==> 1 <= r.value.1 <= |b|
  {
    var lead := b[0] as int;
    if lead < 0x80 then Some((lead as char, 1))
    else if 0xC0 <= lead < 0xE0 && |b| >= 2 && Continuation(b[1]) then
      var n := (lead - 0xC0) * 64 + (b[1] as int - 0x80);
      if 0x80 <= n then Some((n as char, 2)) else None
    else if 0xE0 <= lead < 0xF0 && |b| >= 3 && Continuation(b[1]) && Continuation(b[2]) then
      var n := (lead - 0xE0) * 4096 + (b[1] as int - 0x80) * 64 + (b[2] as int - 0x80);
      if 0x800 <= n && IsScalar(n) then Some((n as char, 3)) else None
    else if 0xF0 <= lead < 0xF8 && |b| >= 4 && Continuation(b[1]) && Continuation(b[2]) && Continuation(b[3]) then
      var n := (lead - 0xF0) * 262144 + (b[1] as int - 0x80) * 4096 + (b[2] as int - 0x80) * 64
               + (b[3] as int - 0x80);
      if 0x1_0000 <= n && IsScalar(n) then Some((n as char, 4)) else None
    else None
  }

  function Utf8Decode(b: seq<byte>): (r: Option<string>)
    decreases |b|
  {
    if b == [] then Some([])
    else match DecodeFirst(b)
      case None => None
      case Some((c, k)) =>
        match Utf8Decode(b[k..])
        case None => None
        case Some(rest) => Some([c] + rest)
  }

  /** Six bits at a time: a value is its quotient by 64 shifted back, plus its remainder. */
  lemma SixBits(n: int)
    requires n >= 0
    ensures n == (n / 64) * 64 + n % 64 && 0 <= n % 64 < 64
  {
  }

  lemma DecodeTwoBytes(c: char, rest: seq<byte>)
    requires 0x80 <= c as int < 0x800
    ensures DecodeFirst(Utf8Char(c) + rest) == Some((c, 2))
  {
    var n := c as int;
    SixBits(n);
    var b := Utf8Char(c) + rest;
    assert b[0] as int == 0xC0 + n / 64 && b[1] as int == 0x80 + n % 64;
  }

  lemma DecodeThreeBytes(c: char, rest: seq<byte>)
    requires 0x800 <= c as int < 0x1_0000
    ensures DecodeFirst(Utf8Char(c) + rest) == Some((c, 3))
  {
    var n := c as int;
    var q := n / 64;
    SixBits(n);
    SixBits(q);
    var b := Utf8Char(c) + rest;
    assert b[0] as int == 0xE0 + q / 64 && b[1] as int == 0x80 + q % 64 && b[2] as int == 0x80 + n % 64;
    assert (q / 64) * 4096 + (q % 64) * 64 + n % 64 == n;
  }

  lemma DecodeFourBytes(c: char, rest: seq<byte>)
    requires 0x1_0000 <= c as int
    ensures DecodeFirst(Utf8Char(c) + rest) == Some((c, 4))
  {
    var n := c as int;
    var q := n / 64;
    var q2 := q / 64;
    SixBits(n);
    SixBits(q);
    SixBits(q2);
    var b := Utf8Char(c) + rest;
    assert b[0] as int == 0xF0 + q2 / 64 && b[1] as int == 0x80 + q2 % 64;
    assert b[2] as int == 0x80 + q % 64 && b[3] as int == 0x80 + n % 64;
    assert (q2 / 64) * 262144 + (q2 % 64) * 4096 + (q % 64) * 64 + n % 64 == n;
  }

  lemma DecodeFirstChar(c: char, rest: seq<byte>)
    ensures DecodeFirst(Utf8Char(c) + rest) == Some((c, |Utf8Char(c)|))
  {
    var n := c as int;
    if n < 0x80 {
    } else if n < 0x800 {
      DecodeTwoBytes(c, rest);
    } else if n < 0x1_0000 {
      DecodeThreeBytes(c, rest);
    } else {
      DecodeFourBytes(c, rest);
    }
  }

  /** Decoding the UTF-8 encoding of a string gives the string back. */
  lemma {:induction false} Utf8RoundTrip(s: string)
    ensures Utf8Decode(Utf8Encode(s)) == Some(s)
  {
    if s != [] {
      var head := Utf8Char(s[0]);
      var b := Utf8Encode(s);
      DecodeFirstChar(s[0], Utf8Encode(s[1..]));
      assert b[|head|..] == Utf8Encode(s[1..]);
      Utf8RoundTrip(s[1..]);
      assert [s[0]] + s[1..] == s;
    }
  }

  /** An ASCII string encodes to one byte per character, each the character's code. */
  lemma {:induction false} Utf8Ascii(s: string)
    requires forall i :: 0 <= i < |s| ==> s[i] as int < 0x80
    ensures |Utf8Encode(s)| == |s|
    ensures forall i :: 0 <= i < |s| ==> Utf8Encode(s)[i] as int == s[i] as int
  {
    if s != [] {
      Utf8Ascii(s[1..]);
      assert Utf8Encode(s) == [s[0] as int as byte] + Utf8Encode(s[1..]);
    }
  }

  // ---------------------------------------------------------------- base64

  /** The base64 alphabet: A-Z, a-z, 0-9, '+', '/'. */
  function Digit(v: int): (c: char)
    requires 0 <= v < 64
    ensures c != '='
  {
    if v < 26 then ('A' as int + v) as char
    else if v < 52 then ('a' as int + (v - 26)) as char
    else if v < 62 then ('0' as int + (v - 52)) as char
    else if v == 62 then '+'
    else '/'
  }

  function DigitValue(c: char): (r: Option<int>)
    ensures r.Some? ==> 0 <= r.value < 64 && Digit(r.value) == c
  {
    if 'A' <= c <= 'Z' then Some(c as int - 'A' as int)
    else if 'a' <= c <= 'z' then Some(c as int - 'a' as int + 26)
    else if '0' <= c <= '9' then Some(c as int - '0' as int + 52)
    else if c == '+' then Some(62)
    else if c == '/' then Some(63)
    else None
  }

  lemma DigitValueOfDigit(v: int)
    requires 0 <= v < 64
    ensures DigitValue(Digit(v)) == Some(v)
  {
  }

  /** The four characters for one to three bytes, padded with '=' when fewer than three. */
  function EncodeGroup(b: seq<byte>): (r: string)
    requires 1 <= |b| <= 3
    ensures |r| == 4
  {
    var b0 := b[0] as int;
    if |b| == 1 then [Digit(b0 / 4), Digit(b0 % 4 * 16), '=', '=']
    else
      var b1 := b[1] as int;
      if |b| == 2 then [Digit(b0 / 4), Digit(b0 % 4 * 16 + b1 / 16), Digit(b1 % 16 * 4), '=']
      else
        var b2 := b[2] as int;
        [Digit(b0 / 4), Digit(b0 % 4 * 16 + b1 / 16), Digit(b1 % 16 * 4 + b2 / 64), Digit(b2 % 64)]
  }

  function Base64Encode(b: seq<byte>): (r: string)
    ensures |r| == (|b| + 2) / 3 * 4
    decreases |b|
  {
    if b == [] then []
    else if |b| <= 3 then EncodeGroup(b)
    else EncodeGroup(b[..3]) + Base64Encode(b[3..])
  }

  /** The bytes of one group of four characters; only the last group may carry padding. */
  function DecodeGroup(s: string, last: bool): (r: Option<seq<byte>>)
    requires |s| == 4
    ensures r.Some? ==> 1 <= |r.value| <= 3
    ensures r.Some? && !last ==> |r.value| == 3
  {
    var v0, v1 := DigitValue(s[0]), DigitValue(s[1]);
    if v0.None? || v1.None? then None
    else
      var byte0 := (v0.value * 4 + v1.value / 16) as byte;
      if last && s[2] == '=' && s[3] == '=' then Some([byte0])
      else
        var v2 := DigitValue(s[2]);
        if v2.None? then None
        else
          var byte1 := (v1.value % 16 * 16 + v2.value / 4) as byte;
          if last && s[3] == '=' then Some([byte0, byte1])
          else
            var v3 := DigitValue(s[3]);
            if v3.None? then None
            else Some([byte0, byte1, (v2.value % 4 * 64 + v3.value) as byte])
  }

  function Base64Decode(s: string): (r: Option<seq<byte>>)
    decreases |s|
  {
    if s == [] then Some([])
    else if |s| < 4 then None
    else
      match DecodeGroup(s[..4], |s| == 4)
      case None => None
      case Some(head) =>
        match Base64Decode(s[4..])
        case None => None
        case Some(rest) => Some(head + rest)
  }

  lemma EncodeGroupRoundTrip(b: seq<byte>, last: bool)
    requires 1 <= |b| <= 3
    requires !last ==> |b| == 3
    ensures DecodeGroup(EncodeGroup(b), last) == Some(b)
  {
    if |b| == 1 {
      OneByteRoundTrip(b[0]);
      assert [b[0]] == b;
    } else if |b| == 2 {
      TwoBytesRoundTrip(b[0], b[1]);
      assert [b[0], b[1]] == b;
    } else {
      ThreeBytesRoundTrip(b[0], b[1], b[2], last);
      assert [b[0], b[1], b[2]] == b;
    }
  }

  lemma OneByteRoundTrip(x: byte)
    ensures DecodeGroup(EncodeGroup([x]), true) == Some([x])
  {
    var b0 := x as int;
    DigitValueOfDigit(b0 / 4);
    DigitValueOfDigit(b0 % 4 * 16);
    assert (b0 / 4 * 4 + (b0 % 4 * 16) / 16) as byte == x;
  }

  lemma TwoBytesRoundTrip(x: byte, y: byte)
    ensures DecodeGroup(EncodeGroup([x, y]), true) == Some([x, y])
  {
    var b0, b1 := x as int, y as int;
    var c1, c2 := b0 % 4 * 16 + b1 / 16, b1 % 16 * 4;
    DigitValueOfDigit(b0 / 4);
    DigitValueOfDigit(c1);
    DigitValueOfDigit(c2);
    assert EncodeGroup([x, y]) == [Digit(b0 / 4), Digit(c1), Digit(c2), '='];
    assert (b0 / 4 * 4 + c1 / 16) as byte == x;
    assert (c1 % 16 * 16 + c2 / 4) as byte == y;
  }

  lemma ThreeBytesRoundTrip(x: byte, y: byte, z: byte, last: bool)
    ensures DecodeGroup(EncodeGroup([x, y, z]), last) == Some([x, y, z])
  {
    var b0, b1, b2 := x as int, y as int, z as int;
    var c1, c2, c3 := b0 % 4 * 16 + b1 / 16, b1 % 16 * 4 + b2 / 64, b2 % 64;
    DigitValueOfDigit(b0 / 4);
    DigitValueOfDigit(c1);
    DigitValueOfDigit(c2);
    DigitValueOfDigit(c3);
    assert EncodeGroup([x, y, z]) == [Digit(b0 / 4), Digit(c1), Digit(c2), Digit(c3)];
    assert (b0 / 4 * 4 + c1 / 16) as byte == x;
    assert (c1 % 16 * 16 + c2 / 4) as byte == y;
    assert (c2 % 4 * 64 + c3) as byte == z;
  }

  /** Decoding the base64 encoding of some bytes gives the bytes back. */
  lemma {:induction false} Base64RoundTrip(b: seq<byte>)
    ensures Base64Decode(Base64Encode(b)) == Some(b)
    decreases |b|
  {
    if b == [] {
    } else if |b| <= 3 {
      EncodeGroupRoundTrip(b, true);
      assert Base64Encode(b)[..4] == EncodeGroup(b);
      assert Base64Encode(b)[4..] == [];
      assert b + [] == b;
    } else {
      var s := Base64Encode(b);
      EncodeGroupRoundTrip(b[..3], |s| == 4);
      assert s[..4] == EncodeGroup(b[..3]);
      assert s[4..] == Base64Encode(b[3..]);
      Base64RoundTrip(b[3..]);
      assert b[..3] + b[3..] == b;
    }
  }

  /** Every character of an encoding is a base64 digit or padding. */
  lemma {:induction false} Base64Alphabet(b: seq<byte>)
    ensures forall i :: 0 <= i < |Base64Encode(b)| ==>
      Base64Encode(b)[i] == '=' || DigitValue(Base64Encode(b)[i]).Some?
    decreases |b|
  {
    if b != [] {
      var g := EncodeGroup(b[..if |b| <= 3 then |b| else 3]);
      forall i | 0 <= i < 4 ensures g[i] == '=' || DigitValue(g[i]).Some? {
        if g[i] != '=' {
          var b0 := b[0] as int;
          DigitValueOfDigit(b0 / 4);
          DigitValueOfDigit(b0 % 4 * 16);
          if |b| >= 2 {
            var b1 := b[1] as int;
            DigitValueOfDigit(b0 % 4 * 16 + b1 / 16);
            DigitValueOfDigit(b1 % 16 * 4);
            if |b| >= 3 {
              var b2 := b[2] as int;
              DigitValueOfDigit(b1 % 16 * 4 + b2 / 64);
              DigitValueOfDigit(b2 % 64);
            }
          }
        }
      }
      if |b| > 3 {
        Base64Alphabet(b[3..]);
      }
    }
  }
}
