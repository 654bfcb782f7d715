/**
 * Base16 (section 8 of RFC 4648) as Go's `hex.EncodeToString` writes it:
 * two lower-case digits per byte, high nibble first.
 */
module Hex {
  import opened Wrappers
  import opened GoBase

  predicate IsLowerHexDigit(c: char)
  {
    '0' <= c <= '9' || 'a' <= c <= 'f'
  }

  function HexDigit(n: nat): (c: char)
    requires n < 16
    ensures IsLowerHexDigit(c)
  {
    if n < 10 then ('0' as int + n) as char else ('a' as int + n - 10) as char
  }

  function DigitValue(c: char): (r: Option<nat>)
    ensures r.Some? <==> IsLowerHexDigit(c)
    ensures r.Some? ==> r.value < 16 && HexDigit(r.value) == c
  {
    if '0' <= c <= '9' then Some(c as int - '0' as int)
    else if 'a' <= c <= 'f' then Some(c as int - 'a' as int + 10)
    else None
  }

  function Encode(bytes: seq<byte>): (s: string)
    ensures |s| == 2 * |bytes|
    ensures forall i :: 0 <= i < |s| ==> IsLowerHexDigit(s[i])
  {
    if bytes == [] then ""
    else
      var v := bytes[0] as int;
      [HexDigit(v / 16), HexDigit(v % 16)] + Encode(bytes[1..])
  }

  /** The inverse of Encode: None for odd lengths and for characters that are not lower-case hex digits. */
  function Decode(s: string): (r: Option<seq<byte>>)
    decreases |s|
  {
    if s == [] then Some([])
    else if |s| == 1 then None
    else
      var hi := DigitValue(s[0]);
      var lo := DigitValue(s[1]);
      var rest := Decode(s[2..]);
      if hi.Some? && lo.Some? && rest.Some? then Some([(hi.value * 16 + lo.value) as byte] + rest.value)
      else None
  }

  /** Decoding undoes encoding, so the hex text determines the bytes it encodes. */
  lemma {:induction false} DecodeEncode(bytes: seq<byte>)
    ensures Decode(Encode(bytes)) == Some(bytes)
  {
    if bytes != [] {
      var s := Encode(bytes);
      DecodeEncode(bytes[1..]);
      assert s[2..] == Encode(bytes[1..]);
      DecodePair(bytes[0], s);
      assert [bytes[0]] + bytes[1..] == bytes;
    }
  }

  lemma DecodePair(b: byte, s: string)
    requires |s| >= 2
    requires s[0] == HexDigit(b as int / 16) && s[1] == HexDigit(b as int % 16)
    ensures DigitValue(s[0]) == Some(b as int / 16) && DigitValue(s[1]) == Some(b as int % 16)
    ensures ((b as int / 16) * 16 + b as int % 16) as byte == b
  {
    var v := b as int;
    assert (v / 16) * 16 + v % 16 == v;
  }
}
