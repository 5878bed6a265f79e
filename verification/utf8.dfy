/**
 * UTF-8 encoding of Unicode scalar values (section 3 of RFC 3629), the step
 * `Buffer.from(text)` performs before any byte-level encoding. A Dafny `char`
 * is a Unicode scalar value, so every string has an encoding. `Decode` is the
 * strict reading back: it rejects truncated sequences, bad continuation bytes,
 * overlong forms, surrogates and code points above U+10FFFF.
 */
module Utf8 {
  import opened Wrappers

  predicate IsScalarValue(cp: int) {
    (0 <= cp < 0xD800) || (0xE000 <= cp < 0x11_0000)
  }

  predicate IsContinuation(b: Byte) {
    0x80 <= b < 0xC0
  }

  /** The one to four bytes of a single scalar value. */
  function EncodeChar(c: char): (bs: seq<Byte>)
    ensures 1 <= |bs| <= 4
    ensures |bs| == 1 <==> c as int < 0x80
    ensures forall i :: 1 <= i < |bs| ==> IsContinuation(bs[i])
  {
    var cp := c as int;
    if cp < 0x80 then [cp]
    else if cp < 0x800 then [0xC0 + cp / 64, 0x80 + cp % 64]
    else if cp < 0x1_0000 then [0xE0 + cp / 4096, 0x80 + (cp / 64) % 64, 0x80 + cp % 64]
    else [0xF0 + cp / 262144, 0x80 + (cp / 4096) % 64, 0x80 + (cp / 64) % 64, 0x80 + cp % 64]
  }

  function Encode(s: string): (bs: seq<Byte>)
    ensures |s| <= |bs| <= 4 * |s|
  {
    if |s| == 0 then [] else EncodeChar(s[0]) + Encode(s[1..])
  }

  /** Decodes one scalar value from the front of `bs`: the value and the number of bytes it used. */
  function DecodeFirst(bs: seq<Byte>): (r: Option<(char, nat)>)
    ensures r.Some? ==> 1 <= r.value.1 <= |bs|
  {
    if |bs| == 0 then None
    else
      var b0 := bs[0] as int;
      if b0 < 0x80 then Some((b0 as char, 1))
      else if 0xC2 <= b0 < 0xE0 && 2 <= |bs| && IsContinuation(bs[1]) then
        var cp := (b0 - 0xC0) * 64 + (bs[1] as int - 0x80);
        Some((cp as char, 2))
      else if 0xE0 <= b0 < 0xF0 && 3 <= |bs| && IsContinuation(bs[1]) && IsContinuation(bs[2]) then
        var cp := (b0 - 0xE0) * 4096 + (bs[1] as int - 0x80) * 64 + (bs[2] as int - 0x80);
        if 0x800 <= cp && IsScalarValue(cp) then Some((cp as char, 3)) else None
      else if 0xF0 <= b0 < 0xF5 && 4 <= |bs| && IsContinuation(bs[1]) && IsContinuation(bs[2]) && IsContinuation(bs[3]) then
        var cp := (b0 - 0xF0) * 262144 + (bs[1] as int - 0x80) * 4096 + (bs[2] as int - 0x80) * 64 + (bs[3] as int - 0x80);
        if 0x1_0000 <= cp && IsScalarValue(cp) then Some((cp as char, 4)) else None
      else None
  }

  function Decode(bs: seq<Byte>): Option<string>
    decreases |bs|
  {
    if |bs| == 0 then Some([])
    else match DecodeFirst(bs)
      case None => None
      case Some((c, n)) =>
        match Decode(bs[n..])
        case None => None
        case Some(rest) => Some([c] + rest)
  }

  /** A character's own bytes, followed by anything, decode back to that character first. */
  lemma {:induction false} DecodeFirstEncodeChar(c: char, tail: seq<Byte>)
    ensures DecodeFirst(EncodeChar(c) + tail) == Some((c, |EncodeChar(c)|))
  {
    var cp := c as int;
    var bs := EncodeChar(c) + tail;
    if cp < 0x80 {
    } else if cp < 0x800 {
      assert (cp / 64) * 64 + cp % 64 == cp;
    } else if cp < 0x1_0000 {
      assert cp / 64 == (cp / 4096) * 64 + (cp / 64) % 64;
      assert (cp / 4096) * 4096 + ((cp / 64) % 64) * 64 + cp % 64 == cp;
    } else {
      assert cp / 4096 == (cp / 262144) * 64 + (cp / 4096) % 64;
      assert cp / 64 == (cp / 4096) * 64 + (cp / 64) % 64;
      assert (cp / 262144) * 262144 + ((cp / 4096) % 64) * 4096 + ((cp / 64) % 64) * 64 + cp % 64 == cp;
    }
  }

  /** Decoding the encoding of any string gives the string back. */
  lemma {:induction false} DecodeEncode(s: string)
    ensures Decode(Encode(s)) == Some(s)
  {
    if |s| > 0 {
      var head := EncodeChar(s[0]);
      var bs := head + Encode(s[1..]);
      DecodeFirstEncodeChar(s[0], Encode(s[1..]));
      assert bs[|head|..] == Encode(s[1..]);
      DecodeEncode(s[1..]);
      assert [s[0]] + s[1..] == s;
    }
  }

  /** An ASCII string encodes to one byte per character, each the character's code. */
  lemma {:induction false} EncodeAscii(s: string)
    requires forall i :: 0 <= i < |s| ==> s[i] as int < 0x80
    ensures |Encode(s)| == |s|
    ensures forall i :: 0 <= i < |s| ==> Encode(s)[i] == s[i] as int
  {
    if |s| > 0 {
      EncodeAscii(s[1..]);
    }
  }

  /** Encoding distributes over concatenation. */
  lemma {:induction false} EncodeAppend(s: string, t: string)
    ensures Encode(s + t) == Encode(s) + Encode(t)
  {
    if |s| == 0 {
      assert s + t == t;
    } else {
      assert (s + t)[1..] == s[1..] + t;
      EncodeAppend(s[1..], t);
    }
  }
}
