/**
 * Percent-encoding of UTF-8 bytes (RFC 3986, section 2.1), in the two
 * flavours the client relies on:
 *
 *  - `Component`: ECMAScript `encodeURIComponent`, which keeps the
 *    characters A-Z a-z 0-9 - _ . ! ~ * ' ( ) and writes every other byte
 *    as %XY with upper-case hexadecimal digits;
 *  - `Form`: the application/x-www-form-urlencoded byte serializer of the
 *    WHATWG URL Standard (section 5.2), used by `URLSearchParams`, which keeps
 *    A-Z a-z 0-9 * - . _ , writes the space as `+` and every other byte as %XY.
 *
 * Each encoder has a decoder and a round-trip lemma.
 */
module Percent {
  import opened Wrappers
  import opened Utf8

  datatype Mode = Component | Form

  predicate IsAsciiAlnum(c: char) {
    'a' <= c <= 'z' || 'A' <= c <= 'Z' || '0' <= c <= '9'
  }

  /** The characters a mode writes as themselves. */
  predicate Unreserved(m: Mode, c: char) {
    match m
    case Component => IsAsciiAlnum(c) || c in "-_.!~*'()"
    case Form => IsAsciiAlnum(c) || c in "*-._"
  }

  /** The characters that may appear in an encoder's output. */
  predicate Emitted(m: Mode, c: char) {
    Unreserved(m, c) || c == '%' || (m == Form && c == '+')
  }

  const HexDigits: string := "0123456789ABCDEF"

  function HexDigit(d: int): (c: char)
    requires 0 <= d < 16
    ensures IsAsciiAlnum(c)
  {
    HexDigits[d]
  }

  /** The value of a hexadecimal digit of either case; None for any other character. */
  function HexValue(c: char): (r: Option<int>)
    ensures r.Some? ==> 0 <= r.value < 16
  {
    if '0' <= c <= '9' then Some(c as int - '0' as int)
    else if 'A' <= c <= 'F' then Some(c as int - 'A' as int + 10)
    else if 'a' <= c <= 'f' then Some(c as int - 'a' as int + 10)
    else None
  }

  lemma HexValueOfDigit(d: int)
    requires 0 <= d < 16
    ensures HexValue(HexDigit(d)) == Some(d)
  {
  }

  /** How one byte is written. */
  function EncodeByte(m: Mode, b: byte): (s: string)
    ensures forall i :: 0 <= i < |s| ==> Emitted(m, s[i])
  {
    if b < 0x80 && Unreserved(m, b as char) then [b as char]
    else if m == Form && b == 0x20 then "+"
    else ['%', HexDigit(b / 16), HexDigit(b % 16)]
  }

  /** Percent-encodes a byte sequence, byte by byte. */
  function EncodeBytes(m: Mode, bs: seq<byte>): (s: string)
    ensures forall i :: 0 <= i < |s| ==> Emitted(m, s[i])
  {
    if bs == [] then [] else EncodeByte(m, bs[0]) + EncodeBytes(m, bs[1..])
  }

  /**
   * Reads back a percent-encoded byte sequence: %XY is the byte XY, `+` is a
   * space in form mode, and any other ASCII character is its own code.
   * None when a `%` is not followed by two hexadecimal digits or a character
   * is not ASCII.
   */
  function DecodeBytes(m: Mode, s: string): (r: Option<seq<byte>>)
    decreases |s|
  {
    if s == [] then Some([])
    else if s[0] == '%' then
      if |s| < 3 || HexValue(s[1]).None? || HexValue(s[2]).None? then None
      else
        match DecodeBytes(m, s[3..])
        case None => None
        case Some(rest) => Some([HexValue(s[1]).value * 16 + HexValue(s[2]).value] + rest)
    else if m == Form && s[0] == '+' then
      match DecodeBytes(m, s[1..])
      case None => None
      case Some(rest) => Some([0x20] + rest)
    else if s[0] as int < 0x80 then
      match DecodeBytes(m, s[1..])
      case None => None
      case Some(rest) => Some([s[0] as int] + rest)
    else None
  }

  lemma DecodeEncodeByte(m: Mode, b: byte, rest: string)
    ensures DecodeBytes(m, EncodeByte(m, b) + rest) ==
            match DecodeBytes(m, rest)
            case None => None
            case Some(bs) => Some([b] + bs)
  {
    var s := EncodeByte(m, b) + rest;
    if b < 0x80 && Unreserved(m, b as char) {
      assert s[1..] == rest;
    } else if m == Form && b == 0x20 {
      assert s[1..] == rest;
    } else {
      HexValueOfDigit(b / 16);
      HexValueOfDigit(b % 16);
      assert s[3..] == rest;
    }
  }

  /** Decoding undoes encoding, in both modes. */
  lemma {:induction false} DecodeEncodeBytes(m: Mode, bs: seq<byte>)
    ensures DecodeBytes(m, EncodeBytes(m, bs)) == Some(bs)
  {
    if bs != [] {
      DecodeEncodeByte(m, bs[0], EncodeBytes(m, bs[1..]));
      DecodeEncodeBytes(m, bs[1..]);
      assert [bs[0]] + bs[1..] == bs;
    }
  }

  lemma {:induction false} EncodeBytesAppend(m: Mode, a: seq<byte>, b: seq<byte>)
    ensures EncodeBytes(m, a + b) == EncodeBytes(m, a) + EncodeBytes(m, b)
  {
    if a == [] {
      assert a + b == b;
    } else {
      assert (a + b)[1..] == a[1..] + b;
      EncodeBytesAppend(m, a[1..], b);
    }
  }

  /** ECMAScript `encodeURIComponent` on a string of Unicode scalar values. */
  function EncodeURIComponent(s: string): (r: string)
    ensures forall i :: 0 <= i < |r| ==> Emitted(Component, r[i])
  {
    EncodeBytes(Component, Utf8.Encode(s))
  }

  /** The inverse of EncodeURIComponent: percent-decode, then UTF-8 decode. */
  function DecodeURIComponent(s: string): Option<string>
  {
    match DecodeBytes(Component, s)
    case None => None
    case Some(bs) => Utf8.Decode(bs)
  }

  /** The form-urlencoded serialization of one name or value. */
  function FormEncode(s: string): (r: string)
    ensures forall i :: 0 <= i < |r| ==> Emitted(Form, r[i])
  {
    EncodeBytes(Form, Utf8.Encode(s))
  }

  /** The inverse of FormEncode. */
  function FormDecode(s: string): Option<string>
  {
    match DecodeBytes(Form, s)
    case None => None
    case Some(bs) => Utf8.Decode(bs)
  }

  /** encodeURIComponent loses nothing: decoding gives back the original string. */
  lemma URIComponentRoundTrip(s: string)
    ensures DecodeURIComponent(EncodeURIComponent(s)) == Some(s)
  {
    DecodeEncodeBytes(Component, Utf8.Encode(s));
    Utf8.DecodeEncode(s);
  }

  lemma FormRoundTrip(s: string)
    ensures FormDecode(FormEncode(s)) == Some(s)
  {
    DecodeEncodeBytes(Form, Utf8.Encode(s));
    Utf8.DecodeEncode(s);
  }

  /**
   * The output of encodeURIComponent never contains a path or query
   * delimiter, so it always stays one path segment or one query value.
   */
  lemma URIComponentHasNoDelimiters(s: string)
    ensures forall i :: 0 <= i < |EncodeURIComponent(s)| ==> EncodeURIComponent(s)[i] !in "/?#&=+"
  {
  }

  /** The form serialization of a name or value contains neither `&` nor `=`. */
  lemma FormHasNoSeparators(s: string)
    ensures '&' !in FormEncode(s) && '=' !in FormEncode(s)
  {
    var r := FormEncode(s);
    assert forall i :: 0 <= i < |r| ==> Emitted(Form, r[i]);
  }

  /** A string made only of unreserved characters is written as it is. */
  lemma {:induction false} EncodeUnreserved(m: Mode, s: string)
    requires forall i :: 0 <= i < |s| ==> Unreserved(m, s[i])
    ensures EncodeBytes(m, Utf8.Encode(s)) == s
  {
    if s != [] {
      assert Utf8.Encode(s) == [s[0] as int] + Utf8.Encode(s[1..]);
      EncodeUnreserved(m, s[1..]);
      EncodeBytesAppend(m, [s[0] as int], Utf8.Encode(s[1..]));
      assert [s[0]] + s[1..] == s;
    }
  }

  /** encodeURIComponent distributes over concatenation. */
  lemma URIComponentAppend(a: string, b: string)
    ensures EncodeURIComponent(a + b) == EncodeURIComponent(a) + EncodeURIComponent(b)
  {
    Utf8.EncodeAppend(a, b);
    EncodeBytesAppend(Component, Utf8.Encode(a), Utf8.Encode(b));
  }
}
