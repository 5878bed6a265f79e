/**
 * The base 64 encoding of section 4 of RFC 4648, with `=` padding, as
 * `Buffer.toString('base64')` produces it. Every three input bytes become
 * four alphabet characters; a final group of one or two bytes is padded to
 * four characters. `Decode` is the strict reading back: it accepts padding
 * only in the last group and rejects non-zero pad bits (section 3.5).
 */
module Base64 {
  import opened Wrappers

  /** The character of the 64-character alphabet at `i` (Table 1 of RFC 4648). */
  function IndexChar(i: nat): char
    requires i < 64
  {
    if i < 26 then ('A' as int + i) as char
    else if i < 52 then ('a' as int + (i - 26)) as char
    else if i < 62 then ('0' as int + (i - 52)) as char
    else if i == 62 then '+'
    else '/'
  }

  /** The position of `c` in the alphabet, if it belongs to it. */
  function CharIndex(c: char): (r: Option<nat>)
    ensures r.Some? ==> r.value < 64 && IndexChar(r.value) == c
  {
    if 'A' <= c <= 'Z' then Some(c as int - 'A' as int)
    else if 'a' <= c <= 'z' then Some(c as int - 'a' as int + 26)
    else if '0' <= c <= '9' then Some(c as int - '0' as int + 52)
    else if c == '+' then Some(62)
    else if c == '/' then Some(63)
    else None
  }

  predicate IsAlphabetChar(c: char) {
    CharIndex(c).Some?
  }

  lemma CharIndexOfIndexChar(i: nat)
    requires i < 64
    ensures CharIndex(IndexChar(i)) == Some(i)
  {
  }

  /** Three bytes, 24 bits, as four 6-bit characters. */
  function EncodeTriple(b0: Byte, b1: Byte, b2: Byte): string {
    [IndexChar(b0 / 4), IndexChar((b0 % 4) * 16 + b1 / 16), IndexChar((b1 % 16) * 4 + b2 / 64), IndexChar(b2 % 64)]
  }

  /** A final pair of bytes: three characters with the low pad bits zero, then one `=`. */
  function EncodePair(b0: Byte, b1: Byte): string {
    [IndexChar(b0 / 4), IndexChar((b0 % 4) * 16 + b1 / 16), IndexChar((b1 % 16) * 4), '=']
  }

  /** A final single byte: two characters with the low pad bits zero, then `==`. */
  function EncodeSingle(b0: Byte): string {
    [IndexChar(b0 / 4), IndexChar((b0 % 4) * 16), '=', '=']
  }

  predicate IsEncodedChar(c: char) {
    IsAlphabetChar(c) || c == '='
  }

  function Encode(bs: seq<Byte>): (s: string)
    ensures |s| == 4 * ((|bs| + 2) / 3)
    ensures forall i :: 0 <= i < |s| ==> IsEncodedChar(s[i])
    decreases |bs|
  {
    if |bs| == 0 then []
    else if |bs| == 1 then EncodeSingle(bs[0])
    else if |bs| == 2 then EncodePair(bs[0], bs[1])
    else EncodeTriple(bs[0], bs[1], bs[2]) + Encode(bs[3..])
  }

  /** Four alphabet characters without padding back to three bytes. */
  function DecodeQuad(q: string): (r: Option<seq<Byte>>)
    requires |q| == 4
    ensures r.Some? ==> |r.value| == 3
  {
    match (CharIndex(q[0]), CharIndex(q[1]), CharIndex(q[2]), CharIndex(q[3]))
    case (Some(i0), Some(i1), Some(i2), Some(i3)) =>
      Some([i0 * 4 + i1 / 16, (i1 % 16) * 16 + i2 / 4, (i2 % 4) * 64 + i3])
    case _ => None
  }

  /** The last group of four characters, which may carry one or two `=`. */
  function DecodeLastQuad(q: string): (r: Option<seq<Byte>>)
    requires |q| == 4
    ensures r.Some? ==> 1 <= |r.value| <= 3
  {
    if q[2] == '=' && q[3] == '=' then
      match (CharIndex(q[0]), CharIndex(q[1]))
      case (Some(i0), Some(i1)) =>
        if i1 % 16 == 0 then Some([i0 * 4 + i1 / 16]) else None
      case _ => None
    else if q[3] == '=' then
      match (CharIndex(q[0]), CharIndex(q[1]), CharIndex(q[2]))
      case (Some(i0), Some(i1), Some(i2)) =>
        if i2 % 4 == 0 then Some([i0 * 4 + i1 / 16, (i1 % 16) * 16 + i2 / 4]) else None
      case _ => None
    else DecodeQuad(q)
  }

  function Decode(s: string): Option<seq<Byte>>
    decreases |s|
  {
    if |s| == 0 then Some([])
    else if |s| < 4 then None
    else if |s| == 4 then DecodeLastQuad(s)
    else match DecodeQuad(s[..4])
      case None => None
      case Some(front) =>
        match Decode(s[4..])
        case None => None
        case Some(rest) => Some(front + rest)
  }

  lemma DecodeQuadEncodeTriple(b0: Byte, b1: Byte, b2: Byte)
    ensures DecodeQuad(EncodeTriple(b0, b1, b2)) == Some([b0, b1, b2])
  {
    var i0, i1, i2, i3 := b0 / 4, (b0 % 4) * 16 + b1 / 16, (b1 % 16) * 4 + b2 / 64, b2 % 64;
    assert i1 / 16 == b0 % 4 && i1 % 16 == b1 / 16;
    assert i2 / 4 == b1 % 16 && i2 % 4 == b2 / 64;
    assert i0 * 4 + i1 / 16 == b0;
    assert (i1 % 16) * 16 + i2 / 4 == b1;
    assert (i2 % 4) * 64 + i3 == b2;
    CharIndexOfIndexChar(i0);
    CharIndexOfIndexChar(i1);
    CharIndexOfIndexChar(i2);
    CharIndexOfIndexChar(i3);
  }

  lemma DecodeLastQuadEncodeSingle(b0: Byte)
    ensures DecodeLastQuad(EncodeSingle(b0)) == Some([b0])
  {
    CharIndexOfIndexChar(b0 / 4);
    CharIndexOfIndexChar((b0 % 4) * 16);
  }

  lemma DecodeLastQuadEncodePair(b0: Byte, b1: Byte)
    ensures DecodeLastQuad(EncodePair(b0, b1)) == Some([b0, b1])
  {
    CharIndexOfIndexChar(b0 / 4);
    CharIndexOfIndexChar((b0 % 4) * 16 + b1 / 16);
    CharIndexOfIndexChar((b1 % 16) * 4);
  }

  lemma DecodeLastQuadEncodeTriple(b0: Byte, b1: Byte, b2: Byte)
    ensures DecodeLastQuad(EncodeTriple(b0, b1, b2)) == Some([b0, b1, b2])
  {
    var q := EncodeTriple(b0, b1, b2);
    CharIndexOfIndexChar((b1 % 16) * 4 + b2 / 64);
    CharIndexOfIndexChar(b2 % 64);
    assert q[2] != '=' && q[3] != '=';
    DecodeQuadEncodeTriple(b0, b1, b2);
  }

  /** A last group decodes on its own. */
  lemma DecodeLastGroup(q: string)
    requires |q| == 4
    ensures Decode(q) == DecodeLastQuad(q)
  {
  }

  /** A full group in front of further groups decodes independently of them. */
  lemma DecodeFrontGroup(q: string, t: string, front: seq<Byte>, rest: seq<Byte>)
    requires |q| == 4 && |t| > 0
    requires DecodeQuad(q) == Some(front)
    requires Decode(t) == Some(rest)
    ensures Decode(q + t) == Some(front + rest)
  {
    var s := q + t;
    assert s[..4] == q;
    assert s[4..] == t;
  }

  /** Decoding the encoding of any byte sequence gives the bytes back. */
  lemma {:induction false} DecodeEncode(bs: seq<Byte>)
    ensures Decode(Encode(bs)) == Some(bs)
    decreases |bs|
  {
    if |bs| == 0 {
    } else if |bs| == 1 {
      DecodeLastQuadEncodeSingle(bs[0]);
      DecodeLastGroup(EncodeSingle(bs[0]));
      assert bs == [bs[0]];
    } else if |bs| == 2 {
      DecodeLastQuadEncodePair(bs[0], bs[1]);
      DecodeLastGroup(EncodePair(bs[0], bs[1]));
      assert bs == [bs[0], bs[1]];
    } else {
      var q := EncodeTriple(bs[0], bs[1], bs[2]);
      var t := Encode(bs[3..]);
      assert Encode(bs) == q + t;
      assert [bs[0], bs[1], bs[2]] + bs[3..] == bs;
      if |bs| == 3 {
        assert t == [];
        assert Encode(bs) == q;
        assert bs == [bs[0], bs[1], bs[2]];
        DecodeLastQuadEncodeTriple(bs[0], bs[1], bs[2]);
        DecodeLastGroup(q);
      } else {
        DecodeEncode(bs[3..]);
        DecodeQuadEncodeTriple(bs[0], bs[1], bs[2]);
        DecodeFrontGroup(q, t, [bs[0], bs[1], bs[2]], bs[3..]);
      }
    }
  }
}
