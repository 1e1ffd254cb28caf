/**
 * `urlBase64ToUint8Array` of the client push controller: it restores the
 * padding of a base64url string, maps the URL-safe characters back to the
 * standard alphabet, decodes with `atob` and copies the character codes of the
 * result into a fresh `Uint8Array`. An `atob` failure is an exception, here
 * `None`.
 */
module KeyDecoder {
  import opened Wrappers
  import opened Base64

  /** `'='.repeat((4 - len % 4) % 4)`: the shortest run of '=' that completes a quantum. */
  function Padding(len: nat): (p: string)
    ensures |p| < 4 && (len + |p|) % 4 == 0
    ensures forall i :: 0 <= i < |p| ==> p[i] == '='
  {
    seq((4 - len % 4) % 4, _ => '=')
  }

  /** `s.replace(/from/g, to)` for a single character `from`. */
  function ReplaceAll(s: string, from: char, to: char): (r: string)
    ensures |r| == |s|
    ensures forall i :: 0 <= i < |s| ==> r[i] == (if s[i] == from then to else s[i])
  {
    if s == [] then []
    else [if s[0] == from then to else s[0]] + ReplaceAll(s[1..], from, to)
  }

  /** The translation on one character: the two characters Table 2 of RFC 4648 adds become those of Table 1. */
  function Translated(c: char): char
  {
    if c == '-' then '+' else if c == '_' then '/' else c
  }

  /** `.replace(/-/g, '+').replace(/_/g, '/')`: back from the alphabet of section 5 of RFC 4648 to that of section 4. */
  function ToStandardAlphabet(s: string): (r: string)
    ensures |r| == |s|
    ensures forall i :: 0 <= i < |s| ==> r[i] == Translated(s[i])
  {
    ReplaceAll(ReplaceAll(s, '-', '+'), '_', '/')
  }

  /** The character codes of `atob`'s result, as a `Uint8Array` stores them. */
  function KeyBytesOf(decoded: Option<string>): Option<seq<byte>>
  {
    match decoded
    case None => None
    case Some(raw) => Some(seq(|raw|, i requires 0 <= i < |raw| => (raw[i] as int) % 256))
  }

  /** What the decoder yields for `s`: the bytes of the key, or `None` when `atob` throws. */
  function KeyBytes(s: string): Option<seq<byte>>
  {
    KeyBytesOf(Atob(ToStandardAlphabet(s + Padding(|s|))))
  }

  /**
   * The decoder itself: pad, translate, decode, then fill a new byte array one
   * character code at a time (a `Uint8Array` keeps each value modulo 256).
   */
  method UrlBase64ToUint8Array(base64String: string) returns (r: Option<array<byte>>)
    ensures r.None? <==> KeyBytes(base64String).None?
    ensures r.Some? ==> r.value[..] == KeyBytes(base64String).value
    ensures forall b :: base64String == UrlEncodeUnpadded(b) ==> r.Some? && r.value[..] == b
    ensures r.Some? ==> fresh(r.value)
  {
    var padding := Padding(|base64String|);
    var base64 := ToStandardAlphabet(base64String + padding);
    var decoded := Atob(base64);
    if decoded.None? {
      forall b | base64String == UrlEncodeUnpadded(b) ensures false {
        KeyBytesInvertsUrlEncoding(b);
      }
      return None;
    }
    var rawData := decoded.value;
    var outputArray := new byte[|rawData|];
    for i := 0 to |rawData|
      invariant forall k :: 0 <= k < i ==> outputArray[k] == (rawData[k] as int) % 256
    {
      outputArray[i] := (rawData[i] as int) % 256;
    }
    r := Some(outputArray);
    forall b | base64String == UrlEncodeUnpadded(b) ensures r.value[..] == b {
      KeyBytesInvertsUrlEncoding(b);
    }
  }

  /** The translation undoes the alphabet of section 5 of RFC 4648 on every character base64url uses. */
  lemma ToStandardOfUrl(b: seq<byte>, padded: bool)
    ensures ToStandardAlphabet(EncodeWith(b, UrlSafe, padded)) == EncodeWith(b, Standard, padded)
  {
    var u, s := EncodeWith(b, UrlSafe, padded), EncodeWith(b, Standard, padded);
    SameShape(b, padded);
    forall i | 0 <= i < |u| ensures ToStandardAlphabet(u)[i] == s[i] {
    }
  }

  lemma TranslatedUrlChar(v: sextet)
    ensures Translated(UrlChar(v)) == StdChar(v)
  {
  }

  /** One group, in either alphabet: the same characters up to the translation. */
  lemma GroupShape(g: seq<sextet>, u: string, s: string)
    requires |u| == |s| == |g|
    requires forall i :: 0 <= i < |g| ==> u[i] == UrlChar(g[i]) && s[i] == StdChar(g[i])
    ensures forall i :: 0 <= i < |u| ==> s[i] == Translated(u[i])
  {
    forall i | 0 <= i < |u| ensures s[i] == Translated(u[i]) {
      TranslatedUrlChar(g[i]);
    }
  }

  /** Position by position, the two encodings differ only where Table 2 of RFC 4648 differs from Table 1. */
  lemma {:induction false} SameShape(b: seq<byte>, padded: bool)
    ensures var u, s := EncodeWith(b, UrlSafe, padded), EncodeWith(b, Standard, padded);
      |u| == |s| && forall i :: 0 <= i < |u| ==> s[i] == Translated(u[i])
    decreases |b|
  {
    if |b| == 1 {
      GroupShape([b[0] / 4, (b[0] % 4) * 16], Group1(UrlSafe, b[0]), Group1(Standard, b[0]));
    } else if |b| == 2 {
      GroupShape([b[0] / 4, (b[0] % 4) * 16 + b[1] / 16, (b[1] % 16) * 4],
        Group2(UrlSafe, b[0], b[1]), Group2(Standard, b[0], b[1]));
    } else if |b| >= 3 {
      GroupShape([b[0] / 4, (b[0] % 4) * 16 + b[1] / 16, (b[1] % 16) * 4 + b[2] / 64, b[2] % 64],
        Group3(UrlSafe, b[0], b[1], b[2]), Group3(Standard, b[0], b[1], b[2]));
      SameShape(b[3..], padded);
    }
  }

  lemma PaddingPeriodic(len: nat)
    ensures Padding(4 + len) == Padding(len)
  {
    assert (4 + len) % 4 == len % 4;
  }

  lemma PaddingRestoresFinal(b: seq<byte>)
    requires 1 <= |b| <= 2
    ensures EncodeWith(b, Standard, true)
         == EncodeWith(b, Standard, false) + Padding(|EncodeWith(b, Standard, false)|)
  {
    if |b| == 1 {
      assert Padding(2) == "==";
    } else {
      assert Padding(3) == "=";
    }
  }

  /** Padded encoding is unpadded encoding followed by exactly the padding the decoder adds. */
  lemma {:induction false} PaddingRestoresEncoding(b: seq<byte>)
    ensures EncodeWith(b, Standard, true)
         == EncodeWith(b, Standard, false) + Padding(|EncodeWith(b, Standard, false)|)
    decreases |b|
  {
    if 1 <= |b| <= 2 {
      PaddingRestoresFinal(b);
    } else if |b| >= 3 {
      var g := Group3(Standard, b[0], b[1], b[2]);
      var rest := EncodeWith(b[3..], Standard, false);
      PaddingRestoresEncoding(b[3..]);
      PaddingPeriodic(|rest|);
      assert EncodeWith(b, Standard, false) == g + rest;
      assert EncodeWith(b, Standard, true) == g + (rest + Padding(|rest|));
      assert |g + rest| == 4 + |rest|;
    }
  }

  /** '=' is left alone by the translation, so restoring padding commutes with it. */
  lemma ToStandardKeepsPadding(u: string, n: nat)
    ensures ToStandardAlphabet(u + Padding(n)) == ToStandardAlphabet(u) + Padding(n)
  {
    var pad := Padding(n);
    var l, r := ToStandardAlphabet(u + pad), ToStandardAlphabet(u) + pad;
    forall i | 0 <= i < |l| ensures l[i] == r[i] {
      if i < |u| {
        assert (u + pad)[i] == u[i];
      } else {
        assert (u + pad)[i] == pad[i - |u|];
      }
    }
  }

  /** Reading the character codes of `atob`'s binary string gives back the decoded bytes. */
  lemma CharCodesOfAtob(s: string)
    requires Decode(s).Some?
    ensures KeyBytesOf(Atob(s)) == Decode(s)
  {
    var raw, bytes := Atob(s).value, Decode(s).value;
    var codes := seq(|raw|, i requires 0 <= i < |raw| => (raw[i] as int) % 256);
    forall i | 0 <= i < |raw| ensures codes[i] == bytes[i] {
      assert raw[i] as int == bytes[i];
    }
    assert codes == bytes;
  }

  /** Decoding unpadded base64url (RFC 4648, section 5, with the padding omitted as section 3.2 allows) gives back the bytes. */
  lemma KeyBytesInvertsUrlEncoding(b: seq<byte>)
    ensures KeyBytes(UrlEncodeUnpadded(b)) == Some(b)
  {
    var u := UrlEncodeUnpadded(b);
    ToStandardOfUrl(b, false);
    PaddingRestoresEncoding(b);
    ToStandardKeepsPadding(u, |u|);
    assert ToStandardAlphabet(u + Padding(|u|)) == Encode(b);
    DecodeEncode(b);
    CharCodesOfAtob(Encode(b));
  }
}
