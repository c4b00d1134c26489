/**
 * ShortHash16 (api/v1alpha1/hash.go): trim, SHA-1 (FIPS 180-4) of the UTF-8 bytes,
 * lowercase Base16 (section 8 of RFC 4648), first 16 characters.
 * SHA-1 itself is foreign code and enters as a parameter of type Sha1.
 */
module Fingerprint {
  import opened Wrappers
  import opened GoStrings

  /** A SHA-1 digest: exactly 20 bytes. */
  type Digest = d: seq<byte> | |d| == 20 witness seq(20, _ => 0)

  /** sha1.Sum, left uninterpreted. */
  type Sha1 = seq<byte> -> Digest

  /** The lowercase Base16 alphabet "0123456789abcdef". */
  predicate IsLowerHex(c: char) {
    '0' <= c <= '9' || 'a' <= c <= 'f'
  }

  function HexDigit(n: int): (c: char)
    requires 0 <= n < 16
    ensures IsLowerHex(c)
  {
    if n < 10 then ('0' as int + n) as char else ('a' as int + n - 10) as char
  }

  function HexValue(c: char): (v: int)
    requires IsLowerHex(c)
    ensures 0 <= v < 16 && HexDigit(v) == c
  {
    if c <= '9' then c as int - '0' as int else c as int - 'a' as int + 10
  }

  /** The two digits of one byte. */
  function HexPair(b: byte): (h: string)
    ensures |h| == 2 && IsLowerHex(h[0]) && IsLowerHex(h[1])
    ensures (HexValue(h[0]) * 16 + HexValue(h[1])) as byte == b
  {
    [HexDigit(b as int / 16), HexDigit(b as int % 16)]
  }

  /** hex.EncodeToString: two lowercase digits per byte, high nibble first. */
  function HexEncode(bs: seq<byte>): (h: string)
    ensures |h| == 2 * |bs|
    ensures forall k :: 0 <= k < |h| ==> IsLowerHex(h[k])
  {
    if bs == [] then [] else HexPair(bs[0]) + HexEncode(bs[1..])
  }

  /** Base16 decoding, the inverse of HexEncode on its image. */
  function HexDecode(h: string): Option<seq<byte>> {
    if h == [] then Some([])
    else if |h| == 1 || !IsLowerHex(h[0]) || !IsLowerHex(h[1]) then None
    else
      match HexDecode(h[2..])
      case None => None
      case Some(rest) => Some([(HexValue(h[0]) * 16 + HexValue(h[1])) as byte] + rest)
  }

  lemma {:induction false} HexRoundTrip(bs: seq<byte>)
    ensures HexDecode(HexEncode(bs)) == Some(bs)
  {
    if bs != [] {
      var h := HexEncode(bs);
      assert h[..2] == HexPair(bs[0]) && h[2..] == HexEncode(bs[1..]);
      HexRoundTrip(bs[1..]);
      assert [bs[0]] + bs[1..] == bs;
    }
  }

  /** Encoding distributes over concatenation, so a prefix of the input gives a prefix of the output. */
  lemma {:induction false} HexEncodeAppend(a: seq<byte>, b: seq<byte>)
    ensures HexEncode(a + b) == HexEncode(a) + HexEncode(b)
  {
    if a == [] {
      assert a + b == b;
    } else {
      assert (a + b)[0] == a[0] && (a + b)[1..] == a[1..] + b;
      HexEncodeAppend(a[1..], b);
    }
  }

  /** ShortHash16 from api/v1alpha1/hash.go. */
  function ShortHash16(sha1: Sha1, s: string): (h: string)
    ensures |h| == 16
    ensures forall k :: 0 <= k < |h| ==> IsLowerHex(h[k])
  {
    HexEncode(sha1(Utf8(TrimSpace(s))))[..16]
  }

  /** Surrounding white space never changes the fingerprint. */
  lemma ShortHashIgnoresSurroundingSpace(sha1: Sha1, s: string)
    ensures ShortHash16(sha1, s) == ShortHash16(sha1, TrimSpace(s))
  {
    TrimSpaceIdempotent(s);
  }

  /** The fingerprint is the hex encoding of the first 8 digest bytes, i.e. the
      16-character prefix of the 40-character hex digest. */
  lemma ShortHashIsDigestPrefix(sha1: Sha1, s: string)
    ensures |HexEncode(sha1(Utf8(TrimSpace(s))))| == 40
    ensures ShortHash16(sha1, s) == HexEncode(sha1(Utf8(TrimSpace(s)))[..8])
  {
    var d := sha1(Utf8(TrimSpace(s)));
    assert d == d[..8] + d[8..];
    HexEncodeAppend(d[..8], d[8..]);
  }

  /** Equal fingerprints mean equal leading 8 digest bytes: the encoding loses nothing. */
  lemma ShortHashDeterminesDigestPrefix(sha1: Sha1, a: string, b: string)
    requires ShortHash16(sha1, a) == ShortHash16(sha1, b)
    ensures sha1(Utf8(TrimSpace(a)))[..8] == sha1(Utf8(TrimSpace(b)))[..8]
  {
    ShortHashIsDigestPrefix(sha1, a);
    ShortHashIsDigestPrefix(sha1, b);
    HexRoundTrip(sha1(Utf8(TrimSpace(a)))[..8]);
    HexRoundTrip(sha1(Utf8(TrimSpace(b)))[..8]);
  }

  /** A string longer than 16 characters is never its own fingerprint. */
  lemma ShortHashNotIdentity(sha1: Sha1, s: string)
    requires |s| > 16
    ensures ShortHash16(sha1, s) != s
  {
  }
}
