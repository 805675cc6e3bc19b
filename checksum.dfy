/**
 * The callback checksum: HMAC-SHA256 of the UTF-8 body keyed by the
 * UTF-8 private key, rendered as lowercase hexadecimal.  The HMAC
 * primitive itself is a parameter of type `HmacSha256`.
 */
module Checksum {
  import opened Results
  import Utf8

  type byte = Utf8.byte

  /** An HMAC-SHA256 digest: 32 bytes. */
  type Digest = d: seq<byte> | |d| == 32 witness seq(32, _ => 0 as byte)

  /** HMAC-SHA256 keyed by its first argument, applied to its second. */
  type HmacSha256 = (seq<byte>, seq<byte>) -> Digest

  predicate IsLowerHexDigit(c: char) {
    '0' <= c <= '9' || 'a' <= c <= 'f'
  }

  function HexDigit(n: int): (c: char)
    requires 0 <= n < 16
    ensures IsLowerHexDigit(c)
  {
    if n < 10 then (48 + n) as char else (87 + n) as char
  }

  /** The value of a lowercase hexadecimal digit, or -1 for any other character. */
  function HexValue(c: char): (v: int)
    ensures -1 <= v < 16
    ensures v >= 0 ==> HexDigit(v) == c
  {
    if '0' <= c <= '9' then c as int - 48
    else if 'a' <= c <= 'f' then c as int - 87
    else -1
  }

  /** `b.ToString("x2")`: two lowercase hexadecimal digits, high nibble first. */
  function ByteToHex(b: byte): string {
    [HexDigit(b as int / 16), HexDigit(b as int % 16)]
  }

  /** The bytes rendered two lowercase digits each, in order. */
  function HexLower(bs: seq<byte>): (s: string)
    ensures |s| == 2 * |bs|
    ensures forall i :: 0 <= i < |s| ==> IsLowerHexDigit(s[i])
  {
    if bs == [] then "" else HexLower(bs[..|bs| - 1]) + ByteToHex(bs[|bs| - 1])
  }

  /** Reads lowercase hexadecimal text back into bytes. */
  function ParseHex(s: string): Option<seq<byte>>
    decreases |s|
  {
    if s == [] then Some([])
    else if |s| < 2 then None
    else
      var hi, lo := HexValue(s[|s| - 2]), HexValue(s[|s| - 1]);
      if hi < 0 || lo < 0 then None
      else match ParseHex(s[..|s| - 2])
        case None => None
        case Some(bs) => Some(bs + [(hi * 16 + lo) as byte])
  }

  /** Parsing inverts the rendering. */
  lemma {:induction false} ParseHexLower(bs: seq<byte>)
    ensures ParseHex(HexLower(bs)) == Some(bs)
  {
    if bs != [] {
      var front, last := bs[..|bs| - 1], bs[|bs| - 1];
      ParseHexLower(front);
      ParseHexStep(HexLower(front), front, last);
      assert front + [last] == bs;
    }
  }

  /** Parsing text with one more rendered byte at its end yields that byte last. */
  lemma ParseHexStep(t: string, front: seq<byte>, last: byte)
    requires ParseHex(t) == Some(front)
    ensures ParseHex(t + ByteToHex(last)) == Some(front + [last])
  {
    var s := t + ByteToHex(last);
    assert s[..|s| - 2] == t;
    HexValueOfDigit(last as int / 16);
    HexValueOfDigit(last as int % 16);
  }

  lemma HexValueOfDigit(n: int)
    requires 0 <= n < 16
    ensures HexValue(HexDigit(n)) == n
  {
  }

  /** Distinct digests have distinct renderings. */
  lemma HexLowerInjective(a: seq<byte>, b: seq<byte>)
    requires HexLower(a) == HexLower(b)
    ensures a == b
  {
    ParseHexLower(a);
    ParseHexLower(b);
  }

  /** The checksum the provider computes for a body and a private key. */
  function ExpectedChecksum(content: string, privateKey: string, hmac: HmacSha256): string {
    HexLower(hmac(Utf8.Encode(privateKey), Utf8.Encode(content)))
  }

  /**
   * `Checksum(content, privateKey)`: the digest's bytes appended to a
   * string builder one `ToString("x2")` at a time.
   */
  method ComputeChecksum(content: string, privateKey: string, hmac: HmacSha256) returns (s: string)
    ensures s == ExpectedChecksum(content, privateKey, hmac)
    ensures |s| == 64
    ensures forall i :: 0 <= i < |s| ==> IsLowerHexDigit(s[i])
  {
    var b := hmac(Utf8.Encode(privateKey), Utf8.Encode(content));
    s := "";
    for i := 0 to |b|
      invariant s == HexLower(b[..i])
    {
      assert b[..i + 1][..i] == b[..i];
      s := s + ByteToHex(b[i]);
    }
    assert b[..|b|] == b;
  }

  /** The header matches: present, non-empty and ordinally equal to the computed checksum. */
  predicate ChecksumMatches(header: Option<string>, content: string, privateKey: string, hmac: HmacSha256) {
    header.Some? && header.value != "" && header.value == ExpectedChecksum(content, privateKey, hmac)
  }

  /** A header with an uppercase hexadecimal digit never matches: the comparison is ordinal. */
  lemma UppercaseHeaderRejected(header: string, i: int, content: string, privateKey: string, hmac: HmacSha256)
    requires 0 <= i < |header| && 'A' <= header[i] <= 'F'
    ensures !ChecksumMatches(Some(header), content, privateKey, hmac)
  {
  }

  /** Bodies with different digests under the same key have different checksums. */
  lemma DigestChangeChangesChecksum(body: string, body': string, privateKey: string, hmac: HmacSha256)
    requires hmac(Utf8.Encode(privateKey), Utf8.Encode(body)) != hmac(Utf8.Encode(privateKey), Utf8.Encode(body'))
    ensures ExpectedChecksum(body, privateKey, hmac) != ExpectedChecksum(body', privateKey, hmac)
  {
    if ExpectedChecksum(body, privateKey, hmac) == ExpectedChecksum(body', privateKey, hmac) {
      HexLowerInjective(hmac(Utf8.Encode(privateKey), Utf8.Encode(body)),
                        hmac(Utf8.Encode(privateKey), Utf8.Encode(body')));
    }
  }
}
