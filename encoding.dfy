/**
 * Text encodings the upload handlers rely on: the byte type of
 * `crypto.randomBytes`, the lower-case hex and the unpadded base64url
 * renderings of `Buffer.toString`, and the UUID shape accepted by the
 * video handler's `UUID_RE`.
 */
module Encoding {
  import opened Wrappers

  /** One octet, as produced by `randomBytes`. */
  newtype byte = x: int | 0 <= x < 256

  // ---------------------------------------------------------------------
  // Hex: `Buffer.toString('hex')`
  // ---------------------------------------------------------------------

  /** The character class `[0-9a-fA-F]` of the UUID pattern. */
  predicate IsHexDigit(c: char) {
    '0' <= c <= '9' || 'a' <= c <= 'f' || 'A' <= c <= 'F'
  }

  /** The digits `toString('hex')` emits: lower case only. */
  predicate IsLowerHexDigit(c: char) {
    '0' <= c <= '9' || 'a' <= c <= 'f'
  }

  /** The digit for a nibble. */
  function HexDigit(k: int): (c: char)
    requires 0 <= k < 16
  {
    if k < 10 then ('0' as int + k) as char else ('a' as int + k - 10) as char
  }

  /** The value of a lower-case hex digit, if it is one. */
  function NibbleOf(c: char): (v: Option<int>)
    ensures v.Some? <==> IsLowerHexDigit(c)
    ensures v.Some? ==> 0 <= v.value < 16 && HexDigit(v.value) == c
  {
    if '0' <= c <= '9' then Some(c as int - '0' as int)
    else if 'a' <= c <= 'f' then Some(c as int - 'a' as int + 10)
    else None
  }

  /** Two digits per byte, high nibble first. */
  function Hex(bs: seq<byte>): (s: string)
    ensures |s| == 2 * |bs|
    ensures forall i :: 0 <= i < |s| ==> IsLowerHexDigit(s[i])
  {
    if bs == [] then ""
    else [HexDigit(bs[0] as int / 16), HexDigit(bs[0] as int % 16)] + Hex(bs[1..])
  }

  /** Reads back what `Hex` writes; `None` on an odd length or a foreign character. */
  function UnHex(s: string): Option<seq<byte>>
  {
    if s == [] then Some([])
    else if |s| < 2 then None
    else
      var hi, lo, rest := NibbleOf(s[0]), NibbleOf(s[1]), UnHex(s[2..]);
      if hi.None? || lo.None? || rest.None? then None
      else Some([(hi.value * 16 + lo.value) as byte] + rest.value)
  }

  lemma {:induction false} UnHexHex(bs: seq<byte>)
    ensures UnHex(Hex(bs)) == Some(bs)
  {
    if bs != [] {
      var s := Hex(bs);
      assert s[2..] == Hex(bs[1..]);
      UnHexHex(bs[1..]);
      var b := bs[0] as int;
      assert NibbleOf(s[0]) == Some(b / 16) && NibbleOf(s[1]) == Some(b % 16);
      assert [bs[0]] + bs[1..] == bs;
    }
  }

  /** Distinct random byte strings give distinct hex names. */
  lemma HexInjective(a: seq<byte>, b: seq<byte>)
    requires Hex(a) == Hex(b)
    ensures a == b
  {
    UnHexHex(a);
    UnHexHex(b);
  }

  // ---------------------------------------------------------------------
  // Base64url: `Buffer.toString('base64url')` (RFC 4648 section 5, no padding)
  // ---------------------------------------------------------------------

  /** The URL- and filename-safe alphabet `A-Z a-z 0-9 - _`. */
  predicate IsBase64UrlChar(c: char) {
    'A' <= c <= 'Z' || 'a' <= c <= 'z' || '0' <= c <= '9' || c == '-' || c == '_'
  }

  /** The character for a six-bit value. */
  function SextetChar(k: int): (c: char)
    requires 0 <= k < 64
    ensures IsBase64UrlChar(c)
  {
    if k < 26 then ('A' as int + k) as char
    else if k < 52 then ('a' as int + k - 26) as char
    else if k < 62 then ('0' as int + k - 52) as char
    else if k == 62 then '-'
    else '_'
  }

  /** The six-bit value of an alphabet character. */
  function SextetOf(c: char): (k: int)
    requires IsBase64UrlChar(c)
    ensures 0 <= k < 64 && SextetChar(k) == c
  {
    if 'A' <= c <= 'Z' then c as int - 'A' as int
    else if 'a' <= c <= 'z' then c as int - 'a' as int + 26
    else if '0' <= c <= '9' then c as int - '0' as int + 52
    else if c == '-' then 62
    else 63
  }

  predicate AllBase64Url(s: string) {
    forall i :: 0 <= i < |s| ==> IsBase64UrlChar(s[i])
  }

  /** Two texts over the alphabet concatenate to one. */
  lemma AllBase64UrlAppend(a: string, b: string)
    requires AllBase64Url(a) && AllBase64Url(b)
    ensures AllBase64Url(a + b)
  {
    forall i | 0 <= i < |a + b|
      ensures IsBase64UrlChar((a + b)[i])
    {
      if i < |a| {
        assert (a + b)[i] == a[i];
      } else {
        assert (a + b)[i] == b[i - |a|];
      }
    }
  }

  /** Three bytes, 24 bits, as four sextet characters, most significant first. */
  function Group(b0: byte, b1: byte, b2: byte): (g: string)
    ensures |g| == 4 && AllBase64Url(g)
  {
    var x0, x1, x2 := b0 as int, b1 as int, b2 as int;
    [SextetChar(x0 / 4), SextetChar(x0 % 4 * 16 + x1 / 16),
     SextetChar(x1 % 16 * 4 + x2 / 64), SextetChar(x2 % 64)]
  }

  /**
   * A trailing single byte becomes two characters and a trailing pair
   * three, with the unused low bits zero.
   */
  function Tail(bs: seq<byte>): (t: string)
    requires 1 <= |bs| <= 2
    ensures |t| == |bs| + 1 && AllBase64Url(t)
  {
    var b0 := bs[0] as int;
    if |bs| == 1 then
      [SextetChar(b0 / 4), SextetChar(b0 % 4 * 16)]
    else
      var b1 := bs[1] as int;
      [SextetChar(b0 / 4), SextetChar(b0 % 4 * 16 + b1 / 16), SextetChar(b1 % 16 * 4)]
  }

  /** Three bytes become four characters, then the tail; no padding. */
  function Base64Url(bs: seq<byte>): (s: string)
    ensures AllBase64Url(s) && |s| % 4 != 1
    decreases |bs|
  {
    if |bs| == 0 then ""
    else if |bs| <= 2 then Tail(bs)
    else
      var g, r := Group(bs[0], bs[1], bs[2]), Base64Url(bs[3..]);
      AllBase64UrlAppend(g, r);
      g + r
  }

  /** Reads back a well-formed unpadded base64url text. */
  function UnBase64Url(s: string): Option<seq<byte>>
  {
    if !AllBase64Url(s) || |s| % 4 == 1 then None else Some(DecodeSextets(s))
  }

  /** Four sextets, 24 bits, as three bytes. */
  function Ungroup(c0: int, c1: int, c2: int, c3: int): (bs: seq<byte>)
    requires 0 <= c0 < 64 && 0 <= c1 < 64 && 0 <= c2 < 64 && 0 <= c3 < 64
    ensures |bs| == 3
  {
    [(c0 * 4 + c1 / 16) as byte, (c1 % 16 * 16 + c2 / 4) as byte, (c2 % 4 * 64 + c3) as byte]
  }

  function DecodeSextets(s: string): seq<byte>
    requires AllBase64Url(s) && |s| % 4 != 1
    decreases |s|
  {
    if |s| == 0 then []
    else
      var c0, c1 := SextetOf(s[0]), SextetOf(s[1]);
      if |s| == 2 then [(c0 * 4 + c1 / 16) as byte]
      else
        var c2 := SextetOf(s[2]);
        if |s| == 3 then [(c0 * 4 + c1 / 16) as byte, (c1 % 16 * 16 + c2 / 4) as byte]
        else Ungroup(c0, c1, c2, SextetOf(s[3])) + DecodeSextets(s[4..])
  }

  /** The sextets of one group recombine to the bytes they were cut from. */
  lemma GroupRoundTrip(b0: int, b1: int, b2: int)
    requires 0 <= b0 < 256 && 0 <= b1 < 256 && 0 <= b2 < 256
    ensures (b0 / 4) * 4 + (b0 % 4 * 16 + b1 / 16) / 16 == b0
    ensures (b0 % 4 * 16 + b1 / 16) % 16 * 16 + (b1 % 16 * 4 + b2 / 64) / 4 == b1
    ensures (b1 % 16 * 4 + b2 / 64) % 4 * 64 + b2 % 64 == b2
    ensures (b1 % 16 * 4) / 4 == b1 % 16
  {
  }

  /** n bytes become (4n + 2) / 3 characters: four per full group, three or two for a trailing pair or single byte. */
  lemma {:induction false} Base64UrlLength(bs: seq<byte>)
    ensures |Base64Url(bs)| == (4 * |bs| + 2) / 3
    decreases |bs|
  {
    if |bs| >= 3 {
      Base64UrlLength(bs[3..]);
    }
  }

  lemma UnBase64UrlBase64Url(bs: seq<byte>)
    ensures UnBase64Url(Base64Url(bs)) == Some(bs)
  {
    DecodeBase64Url(bs);
  }

  lemma SextetRoundTrip(k: int)
    requires 0 <= k < 64
    ensures SextetOf(SextetChar(k)) == k
  {
  }

  /** Four alphabet characters in front of a decodable text decode to three bytes in front of its decoding. */
  lemma DecodeSextetsGroup(c0: int, c1: int, c2: int, c3: int, rest: string)
    requires 0 <= c0 < 64 && 0 <= c1 < 64 && 0 <= c2 < 64 && 0 <= c3 < 64
    requires AllBase64Url(rest) && |rest| % 4 != 1
    ensures var s := [SextetChar(c0), SextetChar(c1), SextetChar(c2), SextetChar(c3)] + rest;
      AllBase64Url(s) && |s| % 4 != 1 &&
      DecodeSextets(s) == Ungroup(c0, c1, c2, c3) + DecodeSextets(rest)
  {
    var g := [SextetChar(c0), SextetChar(c1), SextetChar(c2), SextetChar(c3)];
    AllBase64UrlAppend(g, rest);
    var s := g + rest;
    assert s[4..] == rest;
    SextetRoundTrip(c0);
    SextetRoundTrip(c1);
    SextetRoundTrip(c2);
    SextetRoundTrip(c3);
  }

  /** A trailing single byte decodes back. */
  lemma DecodeSingle(b0: byte)
    ensures DecodeSextets(Base64Url([b0])) == [b0]
  {
    var x0 := b0 as int;
    var c0, c1 := x0 / 4, x0 % 4 * 16;
    assert Base64Url([b0]) == Tail([b0]) == [SextetChar(c0), SextetChar(c1)];
    SextetRoundTrip(c0);
    SextetRoundTrip(c1);
    assert c0 * 4 + c1 / 16 == x0;
  }

  /** A trailing pair of bytes decodes back. */
  lemma DecodePair(b0: byte, b1: byte)
    ensures DecodeSextets(Base64Url([b0, b1])) == [b0, b1]
  {
    var x0, x1 := b0 as int, b1 as int;
    var c0, c1, c2 := x0 / 4, x0 % 4 * 16 + x1 / 16, x1 % 16 * 4;
    assert Base64Url([b0, b1]) == Tail([b0, b1]) == [SextetChar(c0), SextetChar(c1), SextetChar(c2)];
    SextetRoundTrip(c0);
    SextetRoundTrip(c1);
    SextetRoundTrip(c2);
    GroupRoundTrip(x0, x1, 0);
    assert c0 * 4 + c1 / 16 == x0 && c1 % 16 * 16 + c2 / 4 == x1;
  }

  /** The bytes of one group, cut into sextets and put back together. */
  lemma GroupBytes(b0: byte, b1: byte, b2: byte)
    ensures var x0, x1, x2 := b0 as int, b1 as int, b2 as int;
      var c0, c1, c2, c3 := x0 / 4, x0 % 4 * 16 + x1 / 16, x1 % 16 * 4 + x2 / 64, x2 % 64;
      Ungroup(c0, c1, c2, c3) == [b0, b1, b2]
  {
    GroupRoundTrip(b0 as int, b1 as int, b2 as int);
  }

  /** A group in front of a decodable text decodes to its three bytes in front of that text's decoding. */
  lemma DecodeGroup(b0: byte, b1: byte, b2: byte, rest: string)
    requires AllBase64Url(rest) && |rest| % 4 != 1
    ensures var s := Group(b0, b1, b2) + rest;
      AllBase64Url(s) && |s| % 4 != 1 && DecodeSextets(s) == [b0, b1, b2] + DecodeSextets(rest)
  {
    var x0, x1, x2 := b0 as int, b1 as int, b2 as int;
    DecodeSextetsGroup(x0 / 4, x0 % 4 * 16 + x1 / 16, x1 % 16 * 4 + x2 / 64, x2 % 64, rest);
    GroupBytes(b0, b1, b2);
  }

  /** Inputs of up to two bytes decode back. */
  lemma DecodeShort(bs: seq<byte>)
    requires |bs| <= 2
    ensures DecodeSextets(Base64Url(bs)) == bs
  {
    if |bs| == 1 {
      DecodeSingle(bs[0]);
      assert bs == [bs[0]];
    } else if |bs| == 2 {
      DecodePair(bs[0], bs[1]);
      assert bs == [bs[0], bs[1]];
    }
  }

  /** Three or more bytes encode as the first group followed by the encoding of the rest. */
  lemma Base64UrlUnfold(bs: seq<byte>)
    requires |bs| >= 3
    ensures Base64Url(bs) == Group(bs[0], bs[1], bs[2]) + Base64Url(bs[3..])
  {
  }

  lemma {:induction false} DecodeBase64Url(bs: seq<byte>)
    ensures DecodeSextets(Base64Url(bs)) == bs
    decreases |bs|
  {
    if |bs| <= 2 {
      DecodeShort(bs);
    } else {
      var rest := Base64Url(bs[3..]);
      DecodeBase64Url(bs[3..]);
      Base64UrlUnfold(bs);
      DecodeGroup(bs[0], bs[1], bs[2], rest);
      assert [bs[0], bs[1], bs[2]] + bs[3..] == bs;
    }
  }

  /** Distinct random byte strings give distinct base64url tokens. */
  lemma Base64UrlInjective(a: seq<byte>, b: seq<byte>)
    requires Base64Url(a) == Base64Url(b)
    ensures a == b
  {
    UnBase64UrlBase64Url(a);
    UnBase64UrlBase64Url(b);
  }

  // ---------------------------------------------------------------------
  // UUID shape: /^[0-9a-fA-F]{8}-[0-9a-fA-F]{4}-[0-9a-fA-F]{4}-[0-9a-fA-F]{4}-[0-9a-fA-F]{12}$/
  // ---------------------------------------------------------------------

  predicate HexRun(s: string) {
    forall i :: 0 <= i < |s| ==> IsHexDigit(s[i])
  }

  /** The pattern read group by group: 8, 4, 4, 4 and 12 hex digits joined by dashes, anchored at both ends. */
  predicate IsUuid(s: string) {
    && |s| == 36
    && HexRun(s[..8]) && s[8] == '-'
    && HexRun(s[9..13]) && s[13] == '-'
    && HexRun(s[14..18]) && s[18] == '-'
    && HexRun(s[19..23]) && s[23] == '-'
    && HexRun(s[24..])
  }

  predicate IsDashPosition(i: int) {
    i == 8 || i == 13 || i == 18 || i == 23
  }

  /** The same shape read position by position: dashes at 8, 13, 18 and 23, a hex digit everywhere else. */
  lemma UuidByPosition(s: string)
    ensures IsUuid(s) <==>
      |s| == 36 && forall i :: 0 <= i < |s| ==> if IsDashPosition(i) then s[i] == '-' else IsHexDigit(s[i])
  {
    if |s| == 36 {
      if IsUuid(s) {
        forall i | 0 <= i < |s|
          ensures if IsDashPosition(i) then s[i] == '-' else IsHexDigit(s[i])
        {
          if i < 8 { assert s[..8][i] == s[i]; }
          else if 8 < i < 13 { assert s[9..13][i - 9] == s[i]; }
          else if 13 < i < 18 { assert s[14..18][i - 14] == s[i]; }
          else if 18 < i < 23 { assert s[19..23][i - 19] == s[i]; }
          else if 23 < i { assert s[24..][i - 24] == s[i]; }
        }
      }
    }
  }
}
