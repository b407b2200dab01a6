/** UTF-8 with a strict decoder, as RFC 3629 defines it. A `char` is a Unicode scalar value. */
module Utf8 {
  import opened Domain

  newtype Byte = x: int | 0 <= x < 256

  function Unit(n: int): (b: Byte)
    requires 0 <= n < 256
    ensures b as int == n
  {
    n as Byte
  }

  function EncodeChar(c: char): (bytes: seq<Byte>)
    ensures 1 <= |bytes| <= 4
  {
    var n := c as int;
    if n < 0x80 then [Unit(n)]
    else if n < 0x800 then [Unit(0xC0 + n / 64), Unit(0x80 + n % 64)]
    else if n < 0x1_0000 then [Unit(0xE0 + n / 4096), Unit(0x80 + n / 64 % 64), Unit(0x80 + n % 64)]
    else [Unit(0xF0 + n / 262144), Unit(0x80 + n / 4096 % 64), Unit(0x80 + n / 64 % 64), Unit(0x80 + n % 64)]
  }

  function Encode(text: string): seq<Byte> {
    if text == "" then [] else EncodeChar(text[0]) + Encode(text[1..])
  }

  predicate Continues(b: Byte) {
    0x80 <= b < 0xC0
  }

  predicate IsScalar(n: int) {
    0 <= n < 0xD800 || 0xE000 <= n < 0x11_0000
  }

  /** How many bytes a sequence takes, from its first byte; 0 when no sequence starts with it. */
  function Width(b: Byte): nat {
    if b < 0x80 then 1
    else if b < 0xC0 then 0
    else if b < 0xE0 then 2
    else if b < 0xF0 then 3
    else if b < 0xF8 then 4
    else 0
  }

  /** The scalar value of the first sequence; overlong forms, surrogates and values out of range have none. */
  function DecodeFirst(bytes: seq<Byte>): (r: Option<char>)
    requires bytes != []
  {
    var w := Width(bytes[0]);
    if w == 0 || w > |bytes| || exists i :: 1 <= i < w && !Continues(bytes[i]) then None
    else
      var n := if w == 1 then bytes[0] as int
               else if w == 2 then (bytes[0] as int - 0xC0) * 64 + (bytes[1] as int - 0x80)
               else if w == 3 then (bytes[0] as int - 0xE0) * 4096 + (bytes[1] as int - 0x80) * 64
                                + (bytes[2] as int - 0x80)
               else (bytes[0] as int - 0xF0) * 262144 + (bytes[1] as int - 0x80) * 4096 + (bytes[2] as int - 0x80) * 64
                    + (bytes[3] as int - 0x80);
      var least := if w == 1 then 0 else if w == 2 then 0x80 else if w == 3 then 0x800 else 0x1_0000;
      if n < least || !IsScalar(n) then None else Some(n as char)
  }

  function Decode(bytes: seq<Byte>): Option<string> {
    if bytes == [] then Some("")
    else
      var first := DecodeFirst(bytes);
      if first.None? then None
      else
        var rest := Decode(bytes[Width(bytes[0])..]);
        if rest.None? then None else Some([first.value] + rest.value)
  }

  /** The bits of a scalar value in its two, three or four bytes. */
  lemma BitsHold(n: nat)
    ensures n == n / 64 * 64 + n % 64
    ensures n == n / 4096 * 4096 + n / 64 % 64 * 64 + n % 64
    ensures n == n / 262144 * 262144 + n / 4096 % 64 * 4096 + n / 64 % 64 * 64 + n % 64
  {
    assert n / 4096 == n / 64 / 64 && n / 262144 == n / 4096 / 64;
  }

  lemma EncodedCharDecodes(c: char, rest: seq<Byte>)
    ensures var bytes := EncodeChar(c) + rest;
            Width(bytes[0]) == |EncodeChar(c)| && DecodeFirst(bytes) == Some(c)
  {
    var bytes := EncodeChar(c) + rest;
    assert forall i :: 0 <= i < |EncodeChar(c)| ==> bytes[i] == EncodeChar(c)[i];
    BitsHold(c as int);
  }

  /** Every text is what its encoding decodes to. */
  lemma {:induction false} RoundTrip(text: string)
    ensures Decode(Encode(text)) == Some(text)
  {
    if text != "" {
      EncodedCharDecodes(text[0], Encode(text[1..]));
      RoundTrip(text[1..]);
      assert Encode(text)[|EncodeChar(text[0])|..] == Encode(text[1..]);
      assert [text[0]] + text[1..] == text;
    }
  }

  /** The digits of a number written in base 64. */
  lemma DigitsHold(n: int, a: int, b: int)
    requires n == a * 64 + b && 0 <= b < 64
    ensures n / 64 == a && n % 64 == b
  {
  }

  lemma ThreeDigitsHold(n: int, a: int, b: int, c: int)
    requires n == a * 4096 + b * 64 + c && 0 <= b < 64 && 0 <= c < 64
    ensures n / 4096 == a && n / 64 % 64 == b && n % 64 == c
  {
    DigitsHold(n, a * 64 + b, c);
    DigitsHold(n / 64, a, b);
    assert n / 4096 == n / 64 / 64;
  }

  lemma FourDigitsHold(n: int, a: int, b: int, c: int, d: int)
    requires n == a * 262144 + b * 4096 + c * 64 + d && 0 <= b < 64 && 0 <= c < 64 && 0 <= d < 64
    ensures n / 262144 == a && n / 4096 % 64 == b && n / 64 % 64 == c && n % 64 == d
  {
    ThreeDigitsHold(n, a * 64 + b, c, d);
    DigitsHold(n / 4096, a, b);
    assert n / 262144 == n / 4096 / 64;
  }

  /** The decoder takes the first character from its encoding only. */
  lemma DecodedCharEncodes(bytes: seq<Byte>)
    requires bytes != [] && DecodeFirst(bytes).Some?
    ensures 1 <= Width(bytes[0]) <= |bytes| && EncodeChar(DecodeFirst(bytes).value) == bytes[..Width(bytes[0])]
  {
    var w, n := Width(bytes[0]), DecodeFirst(bytes).value as int;
    assert forall i :: 1 <= i < w ==> Continues(bytes[i]);
    if w == 2 {
      DigitsHold(n, bytes[0] as int - 0xC0, bytes[1] as int - 0x80);
    } else if w == 3 {
      ThreeDigitsHold(n, bytes[0] as int - 0xE0, bytes[1] as int - 0x80, bytes[2] as int - 0x80);
    } else if w == 4 {
      FourDigitsHold(n, bytes[0] as int - 0xF0, bytes[1] as int - 0x80, bytes[2] as int - 0x80, bytes[3] as int - 0x80);
    }
  }

  /** The decoder is strict: bytes decode to a text exactly when they are its encoding. */
  lemma {:induction false} DecodesExactly(bytes: seq<Byte>, text: string)
    ensures Decode(bytes) == Some(text) <==> bytes == Encode(text)
    decreases |bytes|
  {
    RoundTrip(text);
    if Decode(bytes) == Some(text) && bytes != [] {
      DecodedCharEncodes(bytes);
      DecodesExactly(bytes[Width(bytes[0])..], text[1..]);
      assert bytes == bytes[..Width(bytes[0])] + bytes[Width(bytes[0])..];
    }
  }
}
