/**
 * Base 64 with the standard alphabet and `=` padding (section 4 of
 * RFC 4648), as `Convert.ToBase64String` and `Convert.FromBase64String`
 * do it, and the string forms the payment providers inherit from the host
 * (`Base64Encode`, `Base64Decode`), which go through UTF-8.
 */
module Base64 {
  import opened Results
  import Utf8

  type byte = Utf8.byte

  /** The character of the 64-letter alphabet for the six-bit value `i`. */
  function Digit(i: int): char
    requires 0 <= i < 64
  {
    if i < 26 then ('A' as int + i) as char
    else if i < 52 then ('a' as int + (i - 26)) as char
    else if i < 62 then ('0' as int + (i - 52)) as char
    else if i == 62 then '+'
    else '/'
  }

  /** The six-bit value of an alphabet character, or -1 for any other character. */
  function ValueOf(c: char): (v: int)
    ensures -1 <= v < 64
    ensures v >= 0 ==> Digit(v) == c
  {
    if 'A' <= c <= 'Z' then c as int - 'A' as int
    else if 'a' <= c <= 'z' then c as int - 'a' as int + 26
    else if '0' <= c <= '9' then c as int - '0' as int + 52
    else if c == '+' then 62
    else if c == '/' then 63
    else -1
  }

  lemma ValueOfDigit(i: int)
    requires 0 <= i < 64
    ensures ValueOf(Digit(i)) == i
  {
  }

  function EncodeGroup(b0: byte, b1: byte, b2: byte): string {
    [Digit(b0 as int / 4), Digit((b0 as int % 4) * 16 + b1 as int / 16),
     Digit((b1 as int % 16) * 4 + b2 as int / 64), Digit(b2 as int % 64)]
  }

  /** `Convert.ToBase64String(bs)`. */
  function Encode(bs: seq<byte>): (s: string)
    ensures |s| % 4 == 0
    ensures |s| == 0 <==> |bs| == 0
    ensures |s| == 4 <==> 1 <= |bs| <= 3
  {
    if |bs| == 0 then ""
    else if |bs| == 1 then
      [Digit(bs[0] as int / 4), Digit((bs[0] as int % 4) * 16), '=', '=']
    else if |bs| == 2 then
      [Digit(bs[0] as int / 4), Digit((bs[0] as int % 4) * 16 + bs[1] as int / 16),
       Digit((bs[1] as int % 16) * 4), '=']
    else EncodeGroup(bs[0], bs[1], bs[2]) + Encode(bs[3..])
  }

  /**
   * Decodes one group of four characters; only the last group (`last`) may
   * end in one or two `=`.  Bits below the last whole byte are ignored.
   */
  function DecodeQuad(q: string, last: bool): (r: Option<seq<byte>>)
    requires |q| == 4
  {
    var v0, v1, v2, v3 := ValueOf(q[0]), ValueOf(q[1]), ValueOf(q[2]), ValueOf(q[3]);
    if v0 < 0 || v1 < 0 then None
    else
      var b0 := (v0 * 4 + v1 / 16) as byte;
      if v2 >= 0 && v3 >= 0 then
        Some([b0, ((v1 % 16) * 16 + v2 / 4) as byte, ((v2 % 4) * 64 + v3) as byte])
      else if last && v2 >= 0 && q[3] == '=' then
        Some([b0, ((v1 % 16) * 16 + v2 / 4) as byte])
      else if last && q[2] == '=' && q[3] == '=' then
        Some([b0])
      else None
  }

  /** `Convert.FromBase64String(s)`; `None` where it throws a `FormatException`. */
  function Decode(s: string): Option<seq<byte>>
    decreases |s|
  {
    if |s| == 0 then Some([])
    else if |s| < 4 then None
    else
      match DecodeQuad(s[..4], |s| == 4)
      case None => None
      case Some(head) =>
        match Decode(s[4..])
        case None => None
        case Some(tail) => Some(head + tail)
  }

  lemma DecodeGroup(b0: byte, b1: byte, b2: byte, last: bool)
    ensures DecodeQuad(EncodeGroup(b0, b1, b2), last) == Some([b0, b1, b2])
  {
    var q := EncodeGroup(b0, b1, b2);
    var x0, x1, x2 := b0 as int, b1 as int, b2 as int;
    ValueOfDigit(x0 / 4);
    ValueOfDigit((x0 % 4) * 16 + x1 / 16);
    ValueOfDigit((x1 % 16) * 4 + x2 / 64);
    ValueOfDigit(x2 % 64);
    assert ((x0 % 4) * 16 + x1 / 16) / 16 == x0 % 4;
    assert ((x0 % 4) * 16 + x1 / 16) % 16 == x1 / 16;
    assert ((x1 % 16) * 4 + x2 / 64) / 4 == x1 % 16;
    assert ((x1 % 16) * 4 + x2 / 64) % 4 == x2 / 64;
  }

  lemma DecodeOneByte(b0: byte)
    ensures DecodeQuad(Encode([b0]), true) == Some([b0])
  {
    var x0 := b0 as int;
    ValueOfDigit(x0 / 4);
    ValueOfDigit((x0 % 4) * 16);
    assert ((x0 % 4) * 16) / 16 == x0 % 4;
  }

  lemma DecodeTwoBytes(b0: byte, b1: byte)
    ensures DecodeQuad(Encode([b0, b1]), true) == Some([b0, b1])
  {
    var x0, x1 := b0 as int, b1 as int;
    ValueOfDigit(x0 / 4);
    ValueOfDigit((x0 % 4) * 16 + x1 / 16);
    ValueOfDigit((x1 % 16) * 4);
    assert ((x0 % 4) * 16 + x1 / 16) / 16 == x0 % 4;
    assert ((x0 % 4) * 16 + x1 / 16) % 16 == x1 / 16;
    assert ((x1 % 16) * 4) / 4 == x1 % 16;
  }

  lemma DecodeLastQuad(q: string, head: seq<byte>)
    requires |q| == 4 && DecodeQuad(q, true) == Some(head)
    ensures Decode(q) == Some(head)
  {
    assert q[..4] == q && q[4..] == [];
    assert head + [] == head;
  }

  lemma DecodeQuadThenRest(q: string, rest: string, head: seq<byte>, tail: seq<byte>)
    requires |q| == 4 && |rest| > 0
    requires DecodeQuad(q, false) == Some(head) && Decode(rest) == Some(tail)
    ensures Decode(q + rest) == Some(head + tail)
  {
    var s := q + rest;
    assert s[..4] == q && s[4..] == rest;
  }

  /** Decoding inverts encoding, so `Encode` is injective. */
  lemma {:induction false} DecodeEncode(bs: seq<byte>)
    ensures Decode(Encode(bs)) == Some(bs)
    decreases |bs|
  {
    if |bs| == 0 {
    } else if |bs| == 1 {
      assert bs == [bs[0]];
      DecodeOneByte(bs[0]);
      DecodeLastQuad(Encode(bs), bs);
    } else if |bs| == 2 {
      assert bs == [bs[0], bs[1]];
      DecodeTwoBytes(bs[0], bs[1]);
      DecodeLastQuad(Encode(bs), bs);
    } else {
      var g := EncodeGroup(bs[0], bs[1], bs[2]);
      var rest := bs[3..];
      assert Encode(bs) == g + Encode(rest);
      assert [bs[0], bs[1], bs[2]] + rest == bs;
      if |rest| == 0 {
        DecodeGroup(bs[0], bs[1], bs[2], true);
        assert g + Encode(rest) == g;
        assert bs == [bs[0], bs[1], bs[2]];
        DecodeLastQuad(g, bs);
      } else {
        DecodeGroup(bs[0], bs[1], bs[2], false);
        DecodeEncode(rest);
        DecodeQuadThenRest(g, Encode(rest), [bs[0], bs[1], bs[2]], rest);
      }
    }
  }

  /** The host's `Base64Encode`: the base 64 form of the string's UTF-8 bytes. */
  function EncodeString(s: string): string {
    Encode(Utf8.Encode(s))
  }

  /** The host's `Base64Decode`; `None` where `Convert.FromBase64String` throws. */
  function DecodeString(s: string): Option<string> {
    match Decode(s)
    case None => None
    case Some(bs) => Some(Utf8.Decode(bs))
  }

  /** The string round trip: `Base64Decode(Base64Encode(s)) == s`. */
  lemma DecodeEncodeString(s: string)
    ensures DecodeString(EncodeString(s)) == Some(s)
  {
    DecodeEncode(Utf8.Encode(s));
    Utf8.DecodeEncode(s);
  }

  lemma EncodeStringInjective(a: string, b: string)
    requires EncodeString(a) == EncodeString(b)
    ensures a == b
  {
    DecodeEncodeString(a);
    DecodeEncodeString(b);
  }

  /** Only the empty string encodes to the empty string. */
  lemma EncodeStringEmpty(s: string)
    ensures EncodeString(s) == "" <==> s == ""
  {
  }
}
