/** The UTF-8 codec that evidence selectors and directive offsets rely on. */
module Utf8 {
  import opened Wrappers

  type byte = b: int | 0 <= b < 256

  function EncodeChar(c: char): (bytes: seq<byte>)
    ensures 1 <= |bytes| <= 4
    ensures |bytes| == 1 <==> c as int < 0x80
    ensures |bytes| == 1 ==> bytes[0] == c as int
    ensures |bytes| > 1 ==> forall k :: 0 <= k < |bytes| ==> bytes[k] >= 0x80
  {
    var n := c as int;
    if n < 0x80 then [n]
    else if n < 0x800 then [0xC0 + n / 64, 0x80 + n % 64]
    else if n < 0x1_0000 then [0xE0 + n / 64 / 64, 0x80 + n / 64 % 64, 0x80 + n % 64]
    else [0xF0 + n / 64 / 64 / 64, 0x80 + n / 64 / 64 % 64, 0x80 + n / 64 % 64, 0x80 + n % 64]
  }

  function Encode(text: string): (bytes: seq<byte>)
    ensures |text| <= |bytes|
  {
    if text == "" then [] else EncodeChar(text[0]) + Encode(text[1..])
  }

  predicate Continuation(b: byte) {
    0x80 <= b < 0xC0
  }

  predicate UnicodeScalar(n: int) {
    0 <= n < 0xD800 || 0xE000 <= n < 0x11_0000
  }

  function Value2(b0: int, b1: int): int {
    (b0 - 0xC0) * 64 + (b1 - 0x80)
  }

  function Value3(b0: int, b1: int, b2: int): int {
    Value2(b0 - 0x20, b1) * 64 + (b2 - 0x80)
  }

  function Value4(b0: int, b1: int, b2: int, b3: int): int {
    Value3(b0 - 0x10, b1, b2) * 64 + (b3 - 0x80)
  }

  /** The first character of a byte string and the number of bytes it takes; overlong
      forms, surrogates and values past 0x10FFFF are refused. */
  function DecodeChar(bytes: seq<byte>): (r: Option<(char, nat)>)
    ensures r.Some? ==> 1 <= r.value.1 <= |bytes|
  {
    if |bytes| == 0 then None
    else if bytes[0] < 0x80 then Some((bytes[0] as char, 1))
    else if |bytes| < 2 || !Continuation(bytes[1]) then None
    else if 0xC0 <= bytes[0] < 0xE0 then
      var n := Value2(bytes[0], bytes[1]);
      if 0x80 <= n < 0x800 then Some((n as char, 2)) else None
    else if |bytes| < 3 || !Continuation(bytes[2]) then None
    else if 0xE0 <= bytes[0] < 0xF0 then
      var n := Value3(bytes[0], bytes[1], bytes[2]);
      if 0x800 <= n < 0x1_0000 && UnicodeScalar(n) then Some((n as char, 3)) else None
    else if |bytes| < 4 || !Continuation(bytes[3]) then None
    else if 0xF0 <= bytes[0] < 0xF8 then
      var n := Value4(bytes[0], bytes[1], bytes[2], bytes[3]);
      if 0x1_0000 <= n && UnicodeScalar(n) then Some((n as char, 4)) else None
    else None
  }

  lemma ThreeBytesSound(b0: int, b1: int, b2: int)
    requires 0xE0 <= b0 < 0xF0 && 0x80 <= b1 < 0xC0 && 0x80 <= b2 < 0xC0
    requires 0x800 <= Value3(b0, b1, b2) < 0x1_0000 && UnicodeScalar(Value3(b0, b1, b2))
    ensures EncodeChar(Value3(b0, b1, b2) as char) == [b0, b1, b2]
  {
    Digits(Value2(b0 - 0x20, b1), b2 - 0x80);
    Digits(b0 - 0xE0, b1 - 0x80);
  }

  lemma FourBytesSound(b0: int, b1: int, b2: int, b3: int)
    requires 0xF0 <= b0 < 0xF8 && 0x80 <= b1 < 0xC0 && 0x80 <= b2 < 0xC0 && 0x80 <= b3 < 0xC0
    requires 0x1_0000 <= Value4(b0, b1, b2, b3) && UnicodeScalar(Value4(b0, b1, b2, b3))
    ensures EncodeChar(Value4(b0, b1, b2, b3) as char) == [b0, b1, b2, b3]
  {
    Digits(Value3(b0 - 0x10, b1, b2), b3 - 0x80);
    Digits(Value2(b0 - 0x30, b1), b2 - 0x80);
    Digits(b0 - 0xF0, b1 - 0x80);
  }

  lemma DecodeCharSound(bytes: seq<byte>)
    requires DecodeChar(bytes).Some?
    ensures bytes[..DecodeChar(bytes).value.1] == EncodeChar(DecodeChar(bytes).value.0)
  {
    var width := DecodeChar(bytes).value.1;
    if width == 3 {
      ThreeBytesSound(bytes[0], bytes[1], bytes[2]);
    } else if width == 4 {
      FourBytesSound(bytes[0], bytes[1], bytes[2], bytes[3]);
    }
  }

  lemma Digits(high: int, low: int)
    requires 0 <= low < 64
    ensures (high * 64 + low) / 64 == high && (high * 64 + low) % 64 == low
  {}

  function Decode(bytes: seq<byte>): Option<string> {
    if bytes == [] then Some("")
    else
      match DecodeChar(bytes)
      case None => None
      case Some((c, width)) =>
        match Decode(bytes[width..])
        case None => None
        case Some(rest) => Some([c] + rest)
  }

  /** Only the encoding of a text decodes to that text. */
  lemma {:induction false} EncodeOfDecode(bytes: seq<byte>)
    requires Decode(bytes).Some?
    ensures Encode(Decode(bytes).value) == bytes
  {
    if bytes != [] {
      var (c, width) := DecodeChar(bytes).value;
      DecodeCharSound(bytes);
      EncodeOfDecode(bytes[width..]);
      assert ([c] + Decode(bytes[width..]).value)[1..] == Decode(bytes[width..]).value;
      assert bytes == bytes[..width] + bytes[width..];
    }
  }

  lemma DecodeCharOfEncoded(c: char, rest: seq<byte>)
    ensures DecodeChar(EncodeChar(c) + rest) == Some((c, |EncodeChar(c)|))
  {
  }

  lemma {:induction false} DecodeOfEncode(text: string)
    ensures Decode(Encode(text)) == Some(text)
  {
    if text != "" {
      var head := EncodeChar(text[0]);
      DecodeCharOfEncoded(text[0], Encode(text[1..]));
      assert Encode(text)[|head|..] == Encode(text[1..]);
      DecodeOfEncode(text[1..]);
      assert [text[0]] + text[1..] == text;
    }
  }

  lemma {:induction false} EncodeAppend(a: string, b: string)
    ensures Encode(a + b) == Encode(a) + Encode(b)
  {
    if a == "" {
      assert a + b == b;
    } else {
      assert (a + b)[1..] == a[1..] + b;
      EncodeAppend(a[1..], b);
    }
  }
}
