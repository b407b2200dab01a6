/** The URL-safe base64 alphabet (section 5 of RFC 4648) with the lenient decoder of the Python library. */
module Base64Url {
  import opened Domain
  import opened Utf8

  const PAD: char := '='

  /** The characters that need no escape in a URL: letters, digits, '-' and '_'. */
  predicate UrlSafe(c: char) {
    'A' <= c <= 'Z' || 'a' <= c <= 'z' || '0' <= c <= '9' || c == '-' || c == '_'
  }

  function CharOf(sextet: int): (c: char)
    requires 0 <= sextet < 64
    ensures UrlSafe(c)
  {
    if sextet < 26 then ('A' as int + sextet) as char
    else if sextet < 52 then ('a' as int + sextet - 26) as char
    else if sextet < 62 then ('0' as int + sextet - 52) as char
    else if sextet == 62 then '-' else '_'
  }

  /** The decoder maps both alphabets; other characters have no value. */
  function SextetOf(c: char): (r: Option<int>)
    ensures r.Some? ==> 0 <= r.value < 64
  {
    if 'A' <= c <= 'Z' then Some(c as int - 'A' as int)
    else if 'a' <= c <= 'z' then Some(c as int - 'a' as int + 26)
    else if '0' <= c <= '9' then Some(c as int - '0' as int + 52)
    else if c == '-' || c == '+' then Some(62)
    else if c == '_' || c == '/' then Some(63)
    else None
  }

  // The four sextets of three bytes.

  function First(a: int): (v: int)
    requires 0 <= a < 256
    ensures 0 <= v < 64
  {
    a / 4
  }

  function Second(a: int, b: int): (v: int)
    requires 0 <= a < 256 && 0 <= b < 256
    ensures 0 <= v < 64
  {
    a % 4 * 16 + b / 16
  }

  function Third(b: int, c: int): (v: int)
    requires 0 <= b < 256 && 0 <= c < 256
    ensures 0 <= v < 64
  {
    b % 16 * 4 + c / 64
  }

  function Fourth(c: int): (v: int)
    requires 0 <= c < 256
    ensures 0 <= v < 64
  {
    c % 64
  }

  /** The sextets hold the bytes. */
  lemma SextetsHold(a: int, b: int, c: int)
    requires 0 <= a < 256 && 0 <= b < 256 && 0 <= c < 256
    ensures First(a) * 4 + Second(a, b) / 16 == a
    ensures Second(a, b) % 16 * 16 + Third(b, c) / 4 == b
    ensures Third(b, c) % 4 * 64 + Fourth(c) == c
  {
  }

  function Group(a: int, b: int, c: int): (s: string)
    requires 0 <= a < 256 && 0 <= b < 256 && 0 <= c < 256
    ensures |s| == 4
  {
    [CharOf(First(a)), CharOf(Second(a, b)), CharOf(Third(b, c)), CharOf(Fourth(c))]
  }

  /** The characters of an encoding before its padding. A last group of one or two bytes is cut short. */
  function Data(bytes: seq<Byte>): string {
    if bytes == [] then ""
    else if |bytes| == 1 then Group(bytes[0] as int, 0, 0)[..2]
    else if |bytes| == 2 then Group(bytes[0] as int, bytes[1] as int, 0)[..3]
    else Group(bytes[0] as int, bytes[1] as int, bytes[2] as int) + Data(bytes[3..])
  }

  function Pads(n: nat): (s: string)
    ensures |s| == n && forall i :: 0 <= i < n ==> s[i] == PAD
  {
    seq(n, i => PAD)
  }

  /** Padded to a multiple of four characters, as section 3.2 asks for. */
  function Encode(bytes: seq<Byte>): string {
    Data(bytes) + Pads(PadCount(|bytes|))
  }

  function PadCount(n: nat): nat {
    if n % 3 == 0 then 0 else 3 - n % 3
  }

  function StripPads(s: string): string {
    if s != "" && s[|s| - 1] == PAD then StripPads(s[..|s| - 1]) else s
  }

  /** Pads a string back to a multiple of four characters. */
  function Repad(s: string): string {
    s + Pads((4 - |s| % 4) % 4)
  }

  /** The bits left over after a number of characters. */
  predicate LeftFits(quad: nat, left: int) {
    quad < 4 && 0 <= left < (if quad == 0 then 1 else if quad == 1 then 64 else if quad == 2 then 16 else 4)
  }

  /** The decoder: `quad` characters of the current group are read, `left` holds the bits not yet written,
      `pads` counts the padding since the last of them. Characters outside the alphabet are skipped; enough
      padding ends the input; a group that is left open is an error. */
  function DecodeFrom(s: string, quad: nat, left: int, pads: nat): Option<seq<Byte>>
    requires LeftFits(quad, left)
    decreases |s|
  {
    if s == "" then if quad == 0 then Some([]) else None
    else if s[0] == PAD then
      if quad >= 2 && quad + pads + 1 >= 4 then Some([])
      else DecodeFrom(s[1..], quad, left, if quad >= 2 then pads + 1 else pads)
    else
      var v := SextetOf(s[0]);
      if v.None? then DecodeFrom(s[1..], quad, left, pads)
      else if quad == 0 then DecodeFrom(s[1..], 1, v.value, 0)
      else if quad == 1 then Prepend(left * 4 + v.value / 16, DecodeFrom(s[1..], 2, v.value % 16, 0))
      else if quad == 2 then Prepend(left * 16 + v.value / 4, DecodeFrom(s[1..], 3, v.value % 4, 0))
      else Prepend(left * 64 + v.value, DecodeFrom(s[1..], 0, 0, 0))
  }

  function Prepend(n: int, r: Option<seq<Byte>>): Option<seq<Byte>>
    requires 0 <= n < 256
  {
    if r.None? then None else Some([Unit(n)] + r.value)
  }

  predicate Ascii(s: string) {
    forall i :: 0 <= i < |s| ==> s[i] as int < 128
  }

  function Decode(s: string): Option<seq<Byte>> {
    if Ascii(s) then DecodeFrom(s, 0, 0, 0) else None
  }

  // ---- The round trip ----

  lemma CharOfSextet(v: int)
    requires 0 <= v < 64
    ensures SextetOf(CharOf(v)) == Some(v)
  {
  }

  lemma UrlSafeIsAscii(c: char)
    requires UrlSafe(c)
    ensures c != PAD && c as int < 128
  {
  }

  /** The decoder reads the next character of the alphabet. */
  lemma DecodeAt(s: string, i: nat, v: int, quad: nat, left: int, pads: nat)
    requires 0 <= v < 64 && i < |s| && s[i] == CharOf(v) && LeftFits(quad, left)
    ensures DecodeFrom(s[i..], quad, left, pads)
         == if quad == 0 then DecodeFrom(s[i + 1..], 1, v, 0)
            else if quad == 1 then Prepend(left * 4 + v / 16, DecodeFrom(s[i + 1..], 2, v % 16, 0))
            else if quad == 2 then Prepend(left * 16 + v / 4, DecodeFrom(s[i + 1..], 3, v % 4, 0))
            else Prepend(left * 64 + v, DecodeFrom(s[i + 1..], 0, 0, 0))
  {
    CharOfSextet(v);
    UrlSafeIsAscii(CharOf(v));
    assert s[i..][1..] == s[i + 1..] && s[i..][0] == s[i];
  }

  lemma PadsEnd(left: int)
    requires 0 <= left < 4
    ensures DecodeFrom([PAD], 3, left, 0) == Some([])
    ensures DecodeFrom([PAD, PAD], 2, left * 4, 0) == Some([])
  {
    assert [PAD, PAD][1..] == [PAD];
    assert DecodeFrom([PAD], 2, left * 4, 1) == Some([]);
  }

  lemma PrependToNone(n: int)
    requires 0 <= n < 256
    ensures Prepend(n, Some([])) == Some([Unit(n)])
  {
    assert [Unit(n)] + [] == [Unit(n)];
  }

  /** The first two characters of a group give its first byte. */
  lemma DecodeFirstByte(s: string, a: int, b: int)
    requires 0 <= a < 256 && 0 <= b < 256 && |s| >= 2 && s[0] == CharOf(First(a)) && s[1] == CharOf(Second(a, b))
    ensures DecodeFrom(s, 0, 0, 0) == Prepend(a, DecodeFrom(s[2..], 2, Second(a, b) % 16, 0))
  {
    assert s[0..] == s;
    DecodeAt(s, 0, First(a), 0, 0, 0);
    DecodeAt(s, 1, Second(a, b), 1, First(a), 0);
    SextetsHold(a, b, 0);
  }

  /** The third gives its second byte. */
  lemma DecodeSecondByte(s: string, a: int, b: int, c: int)
    requires 0 <= a < 256 && 0 <= b < 256 && 0 <= c < 256 && |s| >= 3 && s[2] == CharOf(Third(b, c))
    ensures DecodeFrom(s[2..], 2, Second(a, b) % 16, 0) == Prepend(b, DecodeFrom(s[3..], 3, Third(b, c) % 4, 0))
  {
    DecodeAt(s, 2, Third(b, c), 2, Second(a, b) % 16, 0);
    SextetsHold(a, b, c);
  }

  /** The fourth gives its third byte. */
  lemma DecodeThirdByte(s: string, b: int, c: int)
    requires 0 <= b < 256 && 0 <= c < 256 && |s| >= 4 && s[3] == CharOf(Fourth(c))
    ensures DecodeFrom(s[3..], 3, Third(b, c) % 4, 0) == Prepend(c, DecodeFrom(s[4..], 0, 0, 0))
  {
    DecodeAt(s, 3, Fourth(c), 3, Third(b, c) % 4, 0);
    SextetsHold(0, b, c);
  }

  /** A last group of one byte, and its padding. */
  lemma DecodeOneByte(s: string, a: int)
    requires 0 <= a < 256 && |s| == 4 && s[..2] == Group(a, 0, 0)[..2] && s[2] == s[3] == PAD
    ensures DecodeFrom(s, 0, 0, 0) == Some([Unit(a)])
  {
    assert s[0] == s[..2][0] && s[1] == s[..2][1] && s[2..] == [PAD, PAD];
    DecodeFirstByte(s, a, 0);
    PadsEnd(0);
    PrependToNone(a);
  }

  /** A last group of two bytes, and its padding. */
  lemma DecodeTwoBytes(s: string, a: int, b: int)
    requires 0 <= a < 256 && 0 <= b < 256 && |s| == 4 && s[..3] == Group(a, b, 0)[..3] && s[3] == PAD
    ensures DecodeFrom(s, 0, 0, 0) == Some([Unit(a), Unit(b)])
  {
    assert s[0] == s[..3][0] && s[1] == s[..3][1] && s[2] == s[..3][2] && s[3..] == [PAD];
    DecodeFirstByte(s, a, b);
    DecodeSecondByte(s, a, b, 0);
    PadsEnd(Third(b, 0) % 4);
    PrependToNone(b);
    assert [Unit(a)] + [Unit(b)] == [Unit(a), Unit(b)];
  }

  /** A whole group comes before what follows it. */
  lemma DecodeGroup(s: string, a: int, b: int, c: int)
    requires 0 <= a < 256 && 0 <= b < 256 && 0 <= c < 256 && |s| >= 4 && s[..4] == Group(a, b, c)
    ensures DecodeFrom(s, 0, 0, 0) == Prepend(a, Prepend(b, Prepend(c, DecodeFrom(s[4..], 0, 0, 0))))
  {
    assert s[0] == s[..4][0] && s[1] == s[..4][1] && s[2] == s[..4][2] && s[3] == s[..4][3];
    DecodeFirstByte(s, a, b);
    DecodeSecondByte(s, a, b, c);
    DecodeThirdByte(s, b, c);
  }

  function DataLength(n: nat): nat {
    n / 3 * 4 + if n % 3 == 0 then 0 else n % 3 + 1
  }

  lemma DataLengthNext(n: nat)
    requires n >= 3
    ensures DataLength(n) == DataLength(n - 3) + 4 && PadCount(n) == PadCount(n - 3)
  {
  }

  /** Padding by the length of the data, modulo four, is padding by the number of bytes, modulo three. */
  lemma PadsAgree(n: nat)
    ensures (4 - DataLength(n) % 4) % 4 == PadCount(n)
  {
  }

  /** Data characters are safe in a URL, so none is padding. */
  lemma {:induction false} DataShape(bytes: seq<Byte>)
    ensures |Data(bytes)| == DataLength(|bytes|)
    ensures forall i :: 0 <= i < |Data(bytes)| ==> UrlSafe(Data(bytes)[i])
  {
    if |bytes| >= 3 {
      DataShape(bytes[3..]);
      DataLengthNext(|bytes|);
    }
  }

  lemma {:induction false} StripPadded(s: string, n: nat)
    requires s == "" || s[|s| - 1] != PAD
    ensures StripPads(s + Pads(n)) == s
  {
    if n == 0 {
      assert s + Pads(0) == s;
    } else {
      assert (s + Pads(n))[..|s| + n - 1] == s + Pads(n - 1);
      StripPadded(s, n - 1);
    }
  }

  /** Stripping the padding and padding by the length alone is lossless. */
  lemma RepadIsLossless(bytes: seq<Byte>)
    ensures StripPads(Encode(bytes)) == Data(bytes)
    ensures Repad(StripPads(Encode(bytes))) == Encode(bytes)
  {
    DataShape(bytes);
    StripPadded(Data(bytes), PadCount(|bytes|));
    PadsAgree(|bytes|);
  }

  lemma {:induction false} EncodedDecodes(bytes: seq<Byte>)
    ensures DecodeFrom(Encode(bytes), 0, 0, 0) == Some(bytes)
  {
    var s := Encode(bytes);
    if bytes == [] {
      assert s == "";
    } else if |bytes| == 1 {
      assert s[..2] == Data(bytes);
      DecodeOneByte(s, bytes[0] as int);
      assert bytes == [bytes[0]];
    } else if |bytes| == 2 {
      assert s[..3] == Data(bytes);
      DecodeTwoBytes(s, bytes[0] as int, bytes[1] as int);
      assert bytes == [bytes[0], bytes[1]];
    } else {
      var rest := bytes[3..];
      DataLengthNext(|bytes|);
      assert s[..4] == Group(bytes[0] as int, bytes[1] as int, bytes[2] as int);
      assert s[4..] == Encode(rest);
      DecodeGroup(s, bytes[0] as int, bytes[1] as int, bytes[2] as int);
      EncodedDecodes(rest);
      assert bytes == [bytes[0]] + ([bytes[1]] + ([bytes[2]] + rest));
    }
  }

  /** Decoding what was encoded, stripped and padded back. */
  lemma RoundTrip(bytes: seq<Byte>)
    ensures Decode(Repad(StripPads(Encode(bytes)))) == Some(bytes)
  {
    RepadIsLossless(bytes);
    EncodedDecodes(bytes);
    DataShape(bytes);
  }

  // ---- Junk ----

  /** A character that is neither in the alphabet nor padding. */
  predicate IsJunk(c: char) {
    c != PAD && SextetOf(c).None?
  }

  lemma {:induction false} JunkFromIsSkipped(s: string, k: nat, c: char, quad: nat, left: int, pads: nat)
    requires k <= |s| && IsJunk(c) && LeftFits(quad, left)
    ensures DecodeFrom(s[..k] + [c] + s[k..], quad, left, pads) == DecodeFrom(s, quad, left, pads)
    decreases k
  {
    var t := s[..k] + [c] + s[k..];
    if k == 0 {
      assert t[0] == c && t[1..] == s;
    } else {
      var rest := s[1..];
      assert t[0] == s[0] && t[1..] == rest[..k - 1] + [c] + rest[k - 1..];
      forall q: nat, l: int, p: nat | LeftFits(q, l)
        ensures DecodeFrom(t[1..], q, l, p) == DecodeFrom(rest, q, l, p)
      {
        JunkFromIsSkipped(rest, k - 1, c, q, l, p);
      }
    }
  }

  /** Junk is skipped wherever it stands; only characters outside ASCII are an error. */
  lemma JunkIsSkipped(s: string, k: nat, c: char)
    requires k <= |s| && IsJunk(c)
    ensures Decode(s[..k] + [c] + s[k..]) == if c as int < 128 then Decode(s) else None
  {
    var t := s[..k] + [c] + s[k..];
    assert t[k] == c;
    assert c as int < 128 ==> (Ascii(t) <==> Ascii(s)) by {
      assert forall i :: 0 <= i < |s| ==> s[i] == t[if i < k then i else i + 1];
    }
    JunkFromIsSkipped(s, k, c, 0, 0, 0);
  }
}
