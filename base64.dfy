/**
 * Base64 as RFC 4648 defines it: the alphabet of section 4 (Table 1), the
 * URL- and filename-safe alphabet of section 5, the padded encoding of
 * section 4 and the unpadded form section 3.2 allows, and decoding of padded
 * standard base64. `Atob` is the browser's `atob` on padded input: it decodes
 * to a "binary string" whose characters all have codes below 256.
 */
module Base64 {
  import opened Wrappers

  type byte = x: int | 0 <= x < 256
  type sextet = x: int | 0 <= x < 64

  datatype Alphabet = Standard | UrlSafe

  /** Table 1 of section 4: A-Z, a-z, 0-9, '+', '/'. */
  function StdChar(v: sextet): char
  {
    if v < 26 then ('A' as int + v) as char
    else if v < 52 then ('a' as int + (v - 26)) as char
    else if v < 62 then ('0' as int + (v - 52)) as char
    else if v == 62 then '+'
    else '/'
  }

  /** Table 2 of section 5: as Table 1, with '-' for 62 and '_' for 63. */
  function UrlChar(v: sextet): char
  {
    if v == 62 then '-' else if v == 63 then '_' else StdChar(v)
  }

  function Char(a: Alphabet, v: sextet): char
  {
    match a
    case Standard => StdChar(v)
    case UrlSafe => UrlChar(v)
  }

  predicate IsStdChar(c: char)
  {
    ('A' <= c <= 'Z') || ('a' <= c <= 'z') || ('0' <= c <= '9') || c == '+' || c == '/'
  }

  /** The value a character of Table 1 encodes; it is the inverse of StdChar. */
  function StdValue(c: char): (v: sextet)
    requires IsStdChar(c)
    ensures StdChar(v) == c
  {
    if 'A' <= c <= 'Z' then c as int - 'A' as int
    else if 'a' <= c <= 'z' then c as int - 'a' as int + 26
    else if '0' <= c <= '9' then c as int - '0' as int + 52
    else if c == '+' then 62
    else 63
  }

  /** Every sextet is written as a character of Table 1 that decodes back to it. */
  lemma StdCharDecodes(v: sextet)
    ensures IsStdChar(StdChar(v)) && StdValue(StdChar(v)) == v
  {
  }

  /** The four characters of a full 24-bit group. */
  function Group3(a: Alphabet, b0: byte, b1: byte, b2: byte): string
  {
    [Char(a, b0 / 4), Char(a, (b0 % 4) * 16 + b1 / 16), Char(a, (b1 % 16) * 4 + b2 / 64), Char(a, b2 % 64)]
  }

  /** A final group of two bytes: three characters, the last sextet zero-filled. */
  function Group2(a: Alphabet, b0: byte, b1: byte): string
  {
    [Char(a, b0 / 4), Char(a, (b0 % 4) * 16 + b1 / 16), Char(a, (b1 % 16) * 4)]
  }

  /** A final group of one byte: two characters, the last sextet zero-filled. */
  function Group1(a: Alphabet, b0: byte): string
  {
    [Char(a, b0 / 4), Char(a, (b0 % 4) * 16)]
  }

  /**
   * Encodes `b` three bytes at a time (24-bit groups, section 4); a final group
   * of one or two bytes is zero-filled to whole sextets and, when `padded`,
   * completed with "==" or "=".
   */
  function EncodeWith(b: seq<byte>, a: Alphabet, padded: bool): (s: string)
    ensures |s| == 4 * (|b| / 3) + (if |b| % 3 == 0 then 0 else if padded then 4 else |b| % 3 + 1)
    decreases |b|
  {
    if |b| == 0 then []
    else if |b| == 1 then Group1(a, b[0]) + (if padded then "==" else "")
    else if |b| == 2 then Group2(a, b[0], b[1]) + (if padded then "=" else "")
    else
      assert |b[3..]| / 3 == |b| / 3 - 1 && |b[3..]| % 3 == |b| % 3;
      Group3(a, b[0], b[1], b[2]) + EncodeWith(b[3..], a, padded)
  }

  /** Base64 encoding of section 4. */
  function Encode(b: seq<byte>): (s: string)
    ensures |s| % 4 == 0
  {
    EncodeWith(b, Standard, true)
  }

  /** Base64url encoding of section 5 without the padding (section 3.2). */
  function UrlEncodeUnpadded(b: seq<byte>): (s: string)
    ensures |s| % 4 != 1
    ensures forall i :: 0 <= i < |s| ==> s[i] != '='
  {
    UrlEncodeHasNoPad(b);
    EncodeWith(b, UrlSafe, false)
  }

  lemma {:induction false} UrlEncodeHasNoPad(b: seq<byte>)
    ensures forall i :: 0 <= i < |EncodeWith(b, UrlSafe, false)| ==> EncodeWith(b, UrlSafe, false)[i] != '='
    decreases |b|
  {
    if |b| >= 3 {
      UrlEncodeHasNoPad(b[3..]);
    }
  }

  /** The first byte of a quantum: all six bits of `c0`, the top two of `c1`. */
  function HighByte(c0: sextet, c1: sextet): byte
  {
    c0 * 4 + c1 / 16
  }

  /** The second byte: the low four bits of `c1`, the top four of `c2`. */
  function MiddleByte(c1: sextet, c2: sextet): byte
  {
    (c1 % 16) * 16 + c2 / 4
  }

  /** The third byte: the low two bits of `c2`, all six bits of `c3`. */
  function LowByte(c2: sextet, c3: sextet): byte
  {
    (c2 % 4) * 64 + c3
  }

  /**
   * Decodes one 4-character quantum. The last quantum of the input may end in
   * "==" (one byte) or "=" (two bytes); the bits a padded quantum leaves over
   * are discarded, as `atob` does.
   */
  function DecodeQuantum(g: string, last: bool): (r: Option<seq<byte>>)
    requires |g| == 4
    ensures r.Some? ==> IsStdChar(g[0]) && IsStdChar(g[1])
    ensures r.Some? ==> |r.value| == (if g[2] == '=' then 1 else if g[3] == '=' then 2 else 3)
    ensures r.Some? && |r.value| < 3 ==> last
  {
    if IsStdChar(g[0]) && IsStdChar(g[1]) && IsStdChar(g[2]) && IsStdChar(g[3]) then
      var c0, c1, c2, c3 := StdValue(g[0]), StdValue(g[1]), StdValue(g[2]), StdValue(g[3]);
      Some([HighByte(c0, c1), MiddleByte(c1, c2), LowByte(c2, c3)])
    else if last && IsStdChar(g[0]) && IsStdChar(g[1]) && g[2] == '=' && g[3] == '=' then
      var c0, c1 := StdValue(g[0]), StdValue(g[1]);
      Some([HighByte(c0, c1)])
    else if last && IsStdChar(g[0]) && IsStdChar(g[1]) && IsStdChar(g[2]) && g[3] == '=' then
      var c0, c1, c2 := StdValue(g[0]), StdValue(g[1]), StdValue(g[2]);
      Some([HighByte(c0, c1), MiddleByte(c1, c2)])
    else
      None
  }

  /**
   * Decodes padded standard base64: the length must be a multiple of 4, every
   * character must be in Table 1 except the padding of the final quantum.
   */
  function Decode(s: string): (r: Option<seq<byte>>)
    ensures r.Some? ==> |s| % 4 == 0 && |r.value| <= 3 * (|s| / 4)
    decreases |s|
  {
    if |s| == 0 then Some([])
    else if |s| < 4 then None
    else
      match DecodeQuantum(s[..4], |s| == 4)
      case None => None
      case Some(q) =>
        match Decode(s[4..])
        case None => None
        case Some(rest) =>
          assert |s[4..]| / 4 == |s| / 4 - 1;
          Some(q + rest)
  }

  /** The browser's `atob` on padded input: the bytes as a binary string. */
  function Atob(s: string): (r: Option<string>)
    ensures r.Some? <==> Decode(s).Some?
    ensures r.Some? ==> |r.value| == |Decode(s).value|
    ensures r.Some? ==> forall i :: 0 <= i < |r.value| ==> r.value[i] as int == Decode(s).value[i]
  {
    match Decode(s)
    case None => None
    case Some(bytes) => Some(seq(|bytes|, i requires 0 <= i < |bytes| => bytes[i] as char))
  }

  lemma HighByteOfSextets(b0: byte, b1: byte)
    ensures HighByte(b0 / 4, (b0 % 4) * 16 + b1 / 16) == b0
  {
    assert ((b0 % 4) * 16 + b1 / 16) / 16 == b0 % 4;
  }

  lemma MiddleByteOfSextets(b0: byte, b1: byte, b2: byte)
    ensures MiddleByte((b0 % 4) * 16 + b1 / 16, (b1 % 16) * 4 + b2 / 64) == b1
  {
    assert ((b0 % 4) * 16 + b1 / 16) % 16 == b1 / 16;
    assert ((b1 % 16) * 4 + b2 / 64) / 4 == b1 % 16;
  }

  lemma LowByteOfSextets(b1: byte, b2: byte)
    ensures LowByte((b1 % 16) * 4 + b2 / 64, b2 % 64) == b2
  {
    assert ((b1 % 16) * 4 + b2 / 64) % 4 == b2 / 64;
  }

  lemma Group3Decodes(b0: byte, b1: byte, b2: byte, last: bool)
    ensures DecodeQuantum(Group3(Standard, b0, b1, b2), last) == Some([b0, b1, b2])
  {
    var c0, c1, c2, c3 := b0 / 4, (b0 % 4) * 16 + b1 / 16, (b1 % 16) * 4 + b2 / 64, b2 % 64;
    StdCharDecodes(c0);
    StdCharDecodes(c1);
    StdCharDecodes(c2);
    StdCharDecodes(c3);
    HighByteOfSextets(b0, b1);
    MiddleByteOfSextets(b0, b1, b2);
    LowByteOfSextets(b1, b2);
  }

  lemma Group2Decodes(b0: byte, b1: byte)
    ensures DecodeQuantum(Group2(Standard, b0, b1) + "=", true) == Some([b0, b1])
  {
    var c0, c1, c2 := b0 / 4, (b0 % 4) * 16 + b1 / 16, (b1 % 16) * 4;
    StdCharDecodes(c0);
    StdCharDecodes(c1);
    StdCharDecodes(c2);
    HighByteOfSextets(b0, b1);
    MiddleByteOfSextets(b0, b1, 0);
  }

  lemma Group1Decodes(b0: byte)
    ensures DecodeQuantum(Group1(Standard, b0) + "==", true) == Some([b0])
  {
    var c0, c1 := b0 / 4, (b0 % 4) * 16;
    StdCharDecodes(c0);
    StdCharDecodes(c1);
    HighByteOfSextets(b0, 0);
  }

  /** Decoding one quantum and then the rest. */
  lemma DecodeCons(g: string, rest: string, q: seq<byte>, bs: seq<byte>)
    requires |g| == 4 && DecodeQuantum(g, rest == []) == Some(q) && Decode(rest) == Some(bs)
    ensures Decode(g + rest) == Some(q + bs)
  {
    var s := g + rest;
    assert s[..4] == g && s[4..] == rest;
  }

  /** A final group of one or two bytes decodes back from its padded quantum. */
  lemma DecodeEncodeFinal(b: seq<byte>)
    requires 1 <= |b| <= 2
    ensures Decode(Encode(b)) == Some(b)
  {
    if |b| == 1 {
      Group1Decodes(b[0]);
      DecodeCons(Group1(Standard, b[0]) + "==", [], [b[0]], []);
      assert Group1(Standard, b[0]) + "==" + [] == Encode(b);
      assert [b[0]] + [] == b;
    } else {
      Group2Decodes(b[0], b[1]);
      DecodeCons(Group2(Standard, b[0], b[1]) + "=", [], [b[0], b[1]], []);
      assert Group2(Standard, b[0], b[1]) + "=" + [] == Encode(b);
      assert [b[0], b[1]] + [] == b;
    }
  }

  /** Decoding inverts the padded encoding of section 4. */
  lemma {:induction false} DecodeEncode(b: seq<byte>)
    ensures Decode(Encode(b)) == Some(b)
    decreases |b|
  {
    if 1 <= |b| <= 2 {
      DecodeEncodeFinal(b);
    } else if |b| >= 3 {
      var rest := Encode(b[3..]);
      Group3Decodes(b[0], b[1], b[2], rest == []);
      DecodeEncode(b[3..]);
      DecodeCons(Group3(Standard, b[0], b[1], b[2]), rest, [b[0], b[1], b[2]], b[3..]);
      assert Encode(b) == Group3(Standard, b[0], b[1], b[2]) + rest;
      assert b == [b[0], b[1], b[2]] + b[3..];
    }
  }
}
