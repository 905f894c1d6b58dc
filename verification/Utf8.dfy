/** UTF-8 as Python's strict codec reads and writes it (sections 3 and 4 of RFC 3629). */
module Utf8 {
  import opened Common

  /** The byte sequence of one Unicode scalar value. */
  function EncodeChar(c: char): (b: Content)
    ensures 1 <= |b| <= 4
  {
    var n := c as int;
    if n < 0x80 then
      [n]
    else if n < 0x800 then
      [0xC0 + n / 0x40, 0x80 + n % 0x40]
    else if n < 0x1_0000 then
      [0xE0 + n / 0x1000, 0x80 + n / 0x40 % 0x40, 0x80 + n % 0x40]
    else
      [0xF0 + n / 0x4_0000, 0x80 + n / 0x1000 % 0x40, 0x80 + n / 0x40 % 0x40, 0x80 + n % 0x40]
  }

  function Encode(text: string): Content {
    if text == [] then [] else EncodeChar(text[0]) + Encode(text[1..])
  }

  predicate Tail(b: Byte) {
    0x80 <= b <= 0xBF
  }

  /** The number spelled by four base-64 digits. */
  function Spelled(d3: int, d2: int, d1: int, d0: int): int {
    d3 * 0x4_0000 + d2 * 0x1000 + d1 * 0x40 + d0
  }

  /** The first character of `b` and the number of bytes it takes; the cases are those of the
      grammar in section 4 of RFC 3629, so overlong forms, surrogates and values above U+10FFFF are refused. */
  function DecodeChar(b: Content): (r: Option<(char, nat)>)
    ensures r.Some? ==> 1 <= r.value.1 <= |b|
  {
    if |b| >= 1 && b[0] <= 0x7F then
      Some((b[0] as char, 1))
    else if |b| >= 2 && 0xC2 <= b[0] <= 0xDF && Tail(b[1]) then
      Some((Spelled(0, 0, b[0] - 0xC0, b[1] - 0x80) as char, 2))
    else if |b| >= 3 && 0xE0 <= b[0] <= 0xEF && Tail(b[1]) && Tail(b[2])
            && (b[0] == 0xE0 ==> 0xA0 <= b[1]) && (b[0] == 0xED ==> b[1] <= 0x9F) then
      Some((Spelled(0, b[0] - 0xE0, b[1] - 0x80, b[2] - 0x80) as char, 3))
    else if |b| >= 4 && 0xF0 <= b[0] <= 0xF4 && Tail(b[1]) && Tail(b[2]) && Tail(b[3])
            && (b[0] == 0xF0 ==> 0x90 <= b[1]) && (b[0] == 0xF4 ==> b[1] <= 0x8F) then
      Some((Spelled(b[0] - 0xF0, b[1] - 0x80, b[2] - 0x80, b[3] - 0x80) as char, 4))
    else
      None
  }

  /** `bytes.decode("utf-8")`: the text, or None where Python raises UnicodeDecodeError. */
  function Decode(b: Content): Option<string> {
    if b == [] then
      Some([])
    else
      match DecodeChar(b)
      case None => None
      case Some((c, k)) =>
        match Decode(b[k..])
        case None => None
        case Some(rest) => Some([c] + rest)
  }

  lemma DigitsOf(n: nat)
    requires n < 0x100_0000
    ensures Spelled(n / 0x4_0000, n / 0x1000 % 0x40, n / 0x40 % 0x40, n % 0x40) == n
    ensures n < 0x1_0000 ==> Spelled(0, n / 0x1000, n / 0x40 % 0x40, n % 0x40) == n
    ensures n < 0x800 ==> Spelled(0, 0, n / 0x40, n % 0x40) == n
  {
    assert n / 0x1000 == n / 0x40 / 0x40 && n / 0x4_0000 == n / 0x1000 / 0x40;
  }

  lemma SpelledDigits(d3: int, d2: int, d1: int, d0: int)
    requires 0 <= d3 && 0 <= d2 < 0x40 && 0 <= d1 < 0x40 && 0 <= d0 < 0x40
    ensures var n := Spelled(d3, d2, d1, d0);
            n / 0x4_0000 == d3 && n / 0x1000 % 0x40 == d2 && n / 0x40 % 0x40 == d1 && n % 0x40 == d0
  {
    var n := Spelled(d3, d2, d1, d0);
    assert n / 0x40 == d3 * 0x1000 + d2 * 0x40 + d1;
    assert n / 0x1000 == d3 * 0x40 + d2;
  }

  lemma CharRoundTrip(c: char, rest: Content)
    ensures DecodeChar(EncodeChar(c) + rest) == Some((c, |EncodeChar(c)|))
  {
    hide Spelled;
    var n := c as int;
    var e := EncodeChar(c);
    DigitsOf(n);
    var b := e + rest;
    assert b[..|e|] == e;
    assert forall i :: 0 <= i < |e| ==> b[i] == e[i];
    if n < 0x80 {
    } else if n < 0x800 {
      assert 2 <= n / 0x40 < 0x20;
    } else if n < 0x1_0000 {
      assert n / 0x1000 == 0 ==> n / 0x40 % 0x40 >= 0x20;
      assert n / 0x1000 == 0xD ==> n / 0x40 % 0x40 < 0x20;
    } else {
      assert n / 0x4_0000 == 0 ==> n / 0x1000 % 0x40 >= 0x10;
      assert n / 0x4_0000 == 4 ==> n / 0x1000 % 0x40 < 0x10;
    }
  }

  lemma EncodedInTwo(c: char, d1: int, d0: int)
    requires 2 <= d1 < 0x20 && 0 <= d0 < 0x40 && c as int == Spelled(0, 0, d1, d0)
    ensures EncodeChar(c) == [0xC0 + d1, 0x80 + d0]
  {
    SpelledDigits(0, 0, d1, d0);
  }

  lemma EncodedInThree(c: char, d2: int, d1: int, d0: int)
    requires 0 <= d2 < 0x10 && 0 <= d1 < 0x40 && 0 <= d0 < 0x40 && (d2 == 0 ==> 0x20 <= d1)
    requires c as int == Spelled(0, d2, d1, d0)
    ensures EncodeChar(c) == [0xE0 + d2, 0x80 + d1, 0x80 + d0]
  {
    SpelledDigits(0, d2, d1, d0);
  }

  lemma EncodedInFour(c: char, d3: int, d2: int, d1: int, d0: int)
    requires 0 <= d3 < 5 && 0 <= d2 < 0x40 && 0 <= d1 < 0x40 && 0 <= d0 < 0x40 && (d3 == 0 ==> 0x10 <= d2)
    requires c as int == Spelled(d3, d2, d1, d0)
    ensures EncodeChar(c) == [0xF0 + d3, 0x80 + d2, 0x80 + d1, 0x80 + d0]
  {
    SpelledDigits(d3, d2, d1, d0);
  }

  lemma CharReencodes(b: Content)
    requires DecodeChar(b).Some?
    ensures EncodeChar(DecodeChar(b).value.0) == b[..DecodeChar(b).value.1]
  {
    var (c, k) := DecodeChar(b).value;
    if k == 1 {
      assert b[..1] == [b[0]];
    } else if k == 2 {
      hide EncodeChar;
      EncodedInTwo(c, b[0] - 0xC0, b[1] - 0x80);
      assert b[..2] == [b[0], b[1]];
    } else if k == 3 {
      hide EncodeChar;
      EncodedInThree(c, b[0] - 0xE0, b[1] - 0x80, b[2] - 0x80);
      assert b[..3] == [b[0], b[1], b[2]];
    } else {
      hide EncodeChar;
      EncodedInFour(c, b[0] - 0xF0, b[1] - 0x80, b[2] - 0x80, b[3] - 0x80);
      assert b[..4] == [b[0], b[1], b[2], b[3]];
    }
  }

  /** Decoding undoes encoding, for every text. */
  lemma {:induction false} DecodeEncode(text: string)
    ensures Decode(Encode(text)) == Some(text)
  {
    hide EncodeChar, DecodeChar;
    if text != [] {
      var tail := Encode(text[1..]);
      CharRoundTrip(text[0], tail);
      DecodeEncode(text[1..]);
      var head := EncodeChar(text[0]);
      assert (head + tail)[|head|..] == tail;
      assert [text[0]] + text[1..] == text;
    }
  }

  /** Re-encoding a decoded file gives its bytes back: the codec accepts one spelling per text. */
  lemma {:induction false} EncodeDecode(b: Content)
    requires Decode(b).Some?
    ensures Encode(Decode(b).value) == b
  {
    hide EncodeChar, DecodeChar;
    if b != [] {
      var (c, k) := DecodeChar(b).value;
      CharReencodes(b);
      EncodeDecode(b[k..]);
      assert Decode(b).value == [c] + Decode(b[k..]).value;
      assert ([c] + Decode(b[k..]).value)[1..] == Decode(b[k..]).value;
      assert b[..k] + b[k..] == b;
    }
  }

  /** A zero byte occurs in the encoding exactly when U+0000 occurs in the text. */
  lemma {:induction false} ZeroByteIffNul(text: string)
    ensures 0 in Encode(text) <==> '\0' in text
  {
    if text != [] {
      ZeroByteIffNul(text[1..]);
      var head := EncodeChar(text[0]);
      assert 0 in head <==> text[0] == '\0' by {
        if text[0] == '\0' { assert head[0] == 0; }
      }
      assert text == [text[0]] + text[1..];
    }
  }

  /** Encoding is injective. */
  lemma EncodeInjective(a: string, b: string)
    requires Encode(a) == Encode(b)
    ensures a == b
  {
    DecodeEncode(a);
    DecodeEncode(b);
  }
}
