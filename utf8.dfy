/**
 * UTF-8 encoding of Unicode scalar values (RFC 3629, section 3).
 *
 * Both `encodeURIComponent` and the `application/x-www-form-urlencoded`
 * serializer behind `URLSearchParams` first turn a string into UTF-8 bytes
 * and then percent-encode those bytes; this module is that first step,
 * together with a decoder that undoes it.
 */
module Utf8 {
  import opened Wrappers

  type byte = b: int | 0 <= b < 0x100

  /** A continuation byte has the bit pattern 10xxxxxx. */
  predicate IsContinuation(b: byte) {
    0x80 <= b < 0xC0
  }

  /** The integers that are Unicode scalar values (code points minus the surrogates). */
  predicate IsScalar(n: int) {
    0 <= n < 0xD800 || 0xE000 <= n < 0x110000
  }

  /** The UTF-8 bytes of one scalar value. */
  function EncodeChar(c: char): (bs: seq<byte>)
    ensures 1 <= |bs| <= 4
    ensures |bs| == 1 <==> c as int < 0x80
    ensures |bs| == 1 ==> bs[0] == c as int
    ensures forall i :: 0 <= i < |bs| ==> (bs[i] < 0x80 <==> c as int < 0x80)
  {
    var n := c as int;
    if n < 0x80 then [n]
    else if n < 0x800 then [0xC0 + n / 0x40, 0x80 + n % 0x40]
    else if n < 0x10000 then [0xE0 + n / 0x1000, 0x80 + (n / 0x40) % 0x40, 0x80 + n % 0x40]
    else [0xF0 + n / 0x40000, 0x80 + (n / 0x1000) % 0x40, 0x80 + (n / 0x40) % 0x40, 0x80 + n % 0x40]
  }

  /** The UTF-8 bytes of a string: the concatenation of the bytes of its characters. */
  function Encode(s: string): (bs: seq<byte>)
  {
    if s == [] then [] else EncodeChar(s[0]) + Encode(s[1..])
  }

  /**
   * Decodes the first character of `bs`, returning it with the number of
   * bytes it used; None when `bs` does not start with a well-formed sequence.
   */
  function DecodeFirst(bs: seq<byte>): (r: Option<(char, nat)>)
    ensures r.Some? ==> 1 <= r.value.1 <= |bs|
  {
    if bs == [] then None
    else
      var b0: int := bs[0];
      if b0 < 0x80 then Some((b0 as char, 1))
      else if 0xC0 <= b0 < 0xE0 then
        if |bs| < 2 || !IsContinuation(bs[1]) then None
        else
          var n: int := (b0 - 0xC0) * 0x40 + (bs[1] as int - 0x80);
          Some((n as char, 2))
      else if 0xE0 <= b0 < 0xF0 then
        if |bs| < 3 || !IsContinuation(bs[1]) || !IsContinuation(bs[2]) then None
        else
          var n: int := (b0 - 0xE0) * 0x1000 + (bs[1] as int - 0x80) * 0x40 + (bs[2] as int - 0x80);
          if IsScalar(n) then Some((n as char, 3)) else None
      else if 0xF0 <= b0 < 0xF8 then
        if |bs| < 4 || !IsContinuation(bs[1]) || !IsContinuation(bs[2]) || !IsContinuation(bs[3]) then None
        else
          var n: int := (b0 - 0xF0) * 0x40000 + (bs[1] as int - 0x80) * 0x1000 + (bs[2] as int - 0x80) * 0x40 + (bs[3] as int - 0x80);
          if IsScalar(n) then Some((n as char, 4)) else None
      else None
  }

  /** Decodes a whole byte sequence; None when any part of it is not well-formed. */
  function Decode(bs: seq<byte>): (r: Option<string>)
    decreases |bs|
  {
    if bs == [] then Some([])
    else
      match DecodeFirst(bs)
      case None => None
      case Some((c, k)) =>
        match Decode(bs[k..])
        case None => None
        case Some(cs) => Some([c] + cs)
  }

  /** Splits n into its high part and its low six bits. */
  lemma SixBits(n: int)
    requires 0 <= n
    ensures n == (n / 0x40) * 0x40 + n % 0x40
    ensures 0 <= n % 0x40 < 0x40
  {
  }

  /** The decoder reads back exactly the character that EncodeChar wrote, whatever follows it. */
  lemma DecodeFirstEncodeChar(c: char, rest: seq<byte>)
    ensures DecodeFirst(EncodeChar(c) + rest) == Some((c, |EncodeChar(c)|))
  {
    var n := c as int;
    var bs := EncodeChar(c) + rest;
    if n < 0x80 {
    } else if n < 0x800 {
      SixBits(n);
    } else if n < 0x10000 {
      SixBits(n);
      SixBits(n / 0x40);
      assert n / 0x40 / 0x40 == n / 0x1000;
    } else {
      SixBits(n);
      SixBits(n / 0x40);
      SixBits(n / 0x1000);
      assert n / 0x40 / 0x40 == n / 0x1000;
      assert n / 0x1000 / 0x40 == n / 0x40000;
    }
  }

  /** Encode distributes over concatenation. */
  lemma {:induction false} EncodeAppend(a: string, b: string)
    ensures Encode(a + b) == Encode(a) + Encode(b)
  {
    if a == [] {
      assert a + b == b;
    } else {
      assert (a + b)[1..] == a[1..] + b;
      EncodeAppend(a[1..], b);
    }
  }

  /** Decoding the UTF-8 encoding of a string gives the string back. */
  lemma {:induction false} DecodeEncode(s: string)
    ensures Decode(Encode(s)) == Some(s)
  {
    if s != [] {
      var bs := Encode(s);
      DecodeFirstEncodeChar(s[0], Encode(s[1..]));
      assert bs[|EncodeChar(s[0])|..] == Encode(s[1..]);
      DecodeEncode(s[1..]);
      assert [s[0]] + s[1..] == s;
    }
  }
}
