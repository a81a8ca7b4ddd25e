/**
 * Lower-case hexadecimal text for byte strings, as Go's `encoding/hex`
 * `EncodeToString` produces it, together with the decoder that inverts it
 * (restricted to lower-case digits, the alphabet the W3C Trace Context
 * format allows).
 */
module Hex {
  import opened Wrappers

  /** An octet, Go's `byte`. */
  newtype byte = x: int | 0 <= x < 256

  predicate IsLowerHexDigit(c: char) {
    '0' <= c <= '9' || 'a' <= c <= 'f'
  }

  predicate IsLowerHex(s: string) {
    forall i :: 0 <= i < |s| ==> IsLowerHexDigit(s[i])
  }

  /** The value of one lower-case hex digit. */
  function HexValue(c: char): (v: int)
    requires IsLowerHexDigit(c)
    ensures 0 <= v < 16
  {
    if c <= '9' then c as int - '0' as int else c as int - 'a' as int + 10
  }

  /** The lower-case digit for a nibble, as in Go's table "0123456789abcdef". */
  function HexDigit(n: int): (c: char)
    requires 0 <= n < 16
    ensures IsLowerHexDigit(c)
    ensures HexValue(c) == n
  {
    if n < 10 then ('0' as int + n) as char else ('a' as int + n - 10) as char
  }

  lemma HexDigitOfValue(c: char)
    requires IsLowerHexDigit(c)
    ensures HexDigit(HexValue(c)) == c
  {
  }

  /** Two digits per byte, high nibble first. */
  function EncodeToString(src: seq<byte>): (s: string)
    ensures |s| == 2 * |src|
    ensures IsLowerHex(s)
    ensures forall i :: 0 <= i < |src| ==>
      s[2 * i] == HexDigit(src[i] as int / 16) && s[2 * i + 1] == HexDigit(src[i] as int % 16)
  {
    if src == [] then ""
    else [HexDigit(src[0] as int / 16), HexDigit(src[0] as int % 16)] + EncodeToString(src[1..])
  }

  /** Decodes lower-case hex text; `None` for odd length or any other character. */
  function DecodeLowerHex(s: string): (r: Option<seq<byte>>)
    ensures r.Some? <==> |s| % 2 == 0 && IsLowerHex(s)
    ensures r.Some? ==> 2 * |r.value| == |s|
    decreases |s|
  {
    if |s| == 0 then Some([])
    else if |s| == 1 || !IsLowerHexDigit(s[0]) || !IsLowerHexDigit(s[1]) then None
    else
      match DecodeLowerHex(s[2..])
      case None => None
      case Some(rest) => Some([(HexValue(s[0]) * 16 + HexValue(s[1])) as byte] + rest)
  }

  /** Decoding what was encoded gives the bytes back. */
  lemma {:induction false} DecodeEncode(b: seq<byte>)
    ensures DecodeLowerHex(EncodeToString(b)) == Some(b)
  {
    if b != [] {
      var s := EncodeToString(b);
      assert s[2..] == EncodeToString(b[1..]);
      DecodeEncode(b[1..]);
      assert (HexValue(s[0]) * 16 + HexValue(s[1])) as byte == b[0];
      assert b == [b[0]] + b[1..];
    }
  }

  /** Encoding what was decoded gives the text back: the decoder accepts nothing else. */
  lemma {:induction false} EncodeDecode(s: string, b: seq<byte>)
    requires DecodeLowerHex(s) == Some(b)
    ensures EncodeToString(b) == s
  {
    if s != [] {
      var rest := DecodeLowerHex(s[2..]).value;
      EncodeDecode(s[2..], rest);
      HexDigitOfValue(s[0]);
      HexDigitOfValue(s[1]);
      var v := HexValue(s[0]) * 16 + HexValue(s[1]);
      assert b == [v as byte] + rest;
      assert v / 16 == HexValue(s[0]) && v % 16 == HexValue(s[1]);
      assert s == [s[0], s[1]] + s[2..];
    }
  }
}
