/**
 * JavaScript's `encodeURIComponent`: every character outside the unreserved
 * set `A-Z a-z 0-9 - _ . ! ~ * ' ( )` is replaced by the `%XX` escapes of its
 * UTF-8 bytes, with upper-case hexadecimal digits. Unreserved characters are
 * ASCII, so the encoding can be stated byte by byte over the UTF-8 encoding.
 * A Dafny string holds no lone surrogate, so the `URIError` case of the
 * JavaScript function cannot arise.
 */
module UriComponent {
  import opened Wrappers
  import opened Utf8

  /** Characters `encodeURIComponent` leaves as they are. */
  predicate IsUnreserved(c: char) {
    ('A' <= c <= 'Z') || ('a' <= c <= 'z') || ('0' <= c <= '9')
    || c == '-' || c == '_' || c == '.' || c == '!' || c == '~'
    || c == '*' || c == '\'' || c == '(' || c == ')'
  }

  function HexDigit(d: nat): (c: char)
    requires d < 16
  {
    if d < 10 then ('0' as int + d) as char else ('A' as int + (d - 10)) as char
  }

  /** The value of an upper- or lower-case hexadecimal digit. */
  function HexValue(c: char): (r: Option<nat>)
    ensures r.Some? ==> r.value < 16
  {
    if '0' <= c <= '9' then Some(c as int - '0' as int)
    else if 'A' <= c <= 'F' then Some(c as int - 'A' as int + 10)
    else if 'a' <= c <= 'f' then Some(c as int - 'a' as int + 10)
    else None
  }

  lemma HexValueOfHexDigit(d: nat)
    requires d < 16
    ensures HexValue(HexDigit(d)) == Some(d)
  {
  }

  /** Characters that can appear in an encoded component. */
  predicate IsEncodedChar(c: char) {
    IsUnreserved(c) || c == '%' || HexValue(c).Some?
  }

  /** One byte: itself when it is an unreserved ASCII character, otherwise `%XX`. */
  function EncodeByte(b: Byte): (s: string)
    ensures |s| == 1 || |s| == 3
    ensures |s| == 1 <==> b < 0x80 && IsUnreserved(b as char)
    ensures forall i :: 0 <= i < |s| ==> IsEncodedChar(s[i])
  {
    if b < 0x80 && IsUnreserved(b as char) then [b as char]
    else
      HexValueOfHexDigit(b / 16);
      HexValueOfHexDigit(b % 16);
      ['%', HexDigit(b / 16), HexDigit(b % 16)]
  }

  function EncodeBytes(bs: seq<Byte>): (s: string)
    ensures |bs| <= |s| <= 3 * |bs|
    ensures forall i :: 0 <= i < |s| ==> IsEncodedChar(s[i])
  {
    if |bs| == 0 then [] else EncodeByte(bs[0]) + EncodeBytes(bs[1..])
  }

  /** The percent-encoded form of `text`. */
  function Encode(text: string): string {
    EncodeBytes(Utf8.Encode(text))
  }

  /** Percent-decoding to bytes: `%` with two hexadecimal digits, or one unreserved character. */
  function DecodeBytes(s: string): Option<seq<Byte>>
    decreases |s|
  {
    if |s| == 0 then Some([])
    else if s[0] == '%' then
      if |s| < 3 then None
      else match (HexValue(s[1]), HexValue(s[2]))
        case (Some(hi), Some(lo)) =>
          (match DecodeBytes(s[3..])
           case None => None
           case Some(rest) => Some([hi * 16 + lo] + rest))
        case _ => None
    else if IsUnreserved(s[0]) then
      match DecodeBytes(s[1..])
      case None => None
      case Some(rest) => Some([s[0] as int] + rest)
    else None
  }

  /**
   * A strict percent-decoder: it agrees with `decodeURIComponent` on text that
   * `encodeURIComponent` produced, and rejects any raw character outside the
   * unreserved set, which `decodeURIComponent` would pass through.
   */
  function Decode(s: string): Option<string> {
    match DecodeBytes(s)
    case None => None
    case Some(bs) => Utf8.Decode(bs)
  }

  /** Percent-decoding the byte-wise encoding gives the bytes back. */
  lemma {:induction false} DecodeEncodeBytes(bs: seq<Byte>)
    ensures DecodeBytes(EncodeBytes(bs)) == Some(bs)
  {
    if |bs| > 0 {
      var head := EncodeByte(bs[0]);
      var s := head + EncodeBytes(bs[1..]);
      DecodeEncodeBytes(bs[1..]);
      if |head| == 3 {
        HexValueOfHexDigit(bs[0] / 16);
        HexValueOfHexDigit(bs[0] % 16);
        assert s[3..] == EncodeBytes(bs[1..]);
      } else {
        assert s[1..] == EncodeBytes(bs[1..]);
      }
      assert [bs[0]] + bs[1..] == bs;
    }
  }

  /** `decodeURIComponent(encodeURIComponent(text)) == text` for every string. */
  lemma DecodeEncode(text: string)
    ensures Decode(Encode(text)) == Some(text)
  {
    DecodeEncodeBytes(Utf8.Encode(text));
    Utf8.DecodeEncode(text);
  }

  /** A string of unreserved characters only is left unchanged. */
  lemma {:induction false} EncodeUnreservedIdentity(text: string)
    requires forall i :: 0 <= i < |text| ==> IsUnreserved(text[i])
    ensures Encode(text) == text
  {
    if |text| > 0 {
      EncodeUnreservedIdentity(text[1..]);
      Utf8.EncodeAppend([text[0]], text[1..]);
      assert [text[0]] + text[1..] == text;
      assert Utf8.Encode([text[0]]) == [text[0] as int];
    }
  }

  lemma {:induction false} EncodeBytesAppend(a: seq<Byte>, b: seq<Byte>)
    ensures EncodeBytes(a + b) == EncodeBytes(a) + EncodeBytes(b)
  {
    if |a| == 0 {
      assert a + b == b;
    } else {
      assert (a + b)[1..] == a[1..] + b;
      EncodeBytesAppend(a[1..], b);
    }
  }

  /** The encoding of a concatenation is the concatenation of the encodings. */
  lemma EncodeAppend(s: string, t: string)
    ensures Encode(s + t) == Encode(s) + Encode(t)
  {
    Utf8.EncodeAppend(s, t);
    EncodeBytesAppend(Utf8.Encode(s), Utf8.Encode(t));
  }

  /**
   * A space between two runs of unreserved characters becomes %20 and nothing
   * else changes; the default project "Azure AppConfig" is sent as
   * "Azure%20AppConfig".
   */
  lemma EncodeSpaceBetweenWords(first: string, second: string)
    requires forall i :: 0 <= i < |first| ==> IsUnreserved(first[i])
    requires forall i :: 0 <= i < |second| ==> IsUnreserved(second[i])
    ensures Encode(first + " " + second) == first + "%20" + second
  {
    EncodeAppend(first + " ", second);
    EncodeAppend(first, " ");
    EncodeUnreservedIdentity(first);
    EncodeUnreservedIdentity(second);
    assert Utf8.Encode(" ") == [32] by {
      assert " "[1..] == [];
    }
    assert Encode(" ") == "%20";
  }
}
