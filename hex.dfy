/**
 * `hex::encode`: Base16 encoding as in section 8 of RFC 4648, with the
 * lower-case alphabet, two characters per byte, high nibble first.
 * `Decode` is its inverse on lower-case text.
 */
module Hex {
  import opened Wrappers

  type byte = b: int | 0 <= b < 256

  /** The lower-case hex digit of a nibble: '0'..'9', then 'a'..'f'. */
  function HexDigit(v: nat): (c: char)
    requires v < 16
    ensures IsLowerHexDigit(c)
  {
    if v < 10 then ('0' as int + v) as char else ('a' as int + v - 10) as char
  }

  predicate IsLowerHexDigit(c: char)
  {
    '0' <= c <= '9' || 'a' <= c <= 'f'
  }

  predicate IsLowerHex(s: string)
  {
    forall i :: 0 <= i < |s| ==> IsLowerHexDigit(s[i])
  }

  /** The nibble a lower-case hex digit stands for; `HexDigit` inverted. */
  function NibbleValue(c: char): (v: nat)
    requires IsLowerHexDigit(c)
    ensures v < 16 && HexDigit(v) == c
  {
    if c <= '9' then (c as int - '0' as int) as nat
    else (c as int - 'a' as int + 10) as nat
  }

  lemma NibbleOfDigit(v: nat)
    requires v < 16
    ensures NibbleValue(HexDigit(v)) == v
  {
  }

  function Encode(bytes: seq<byte>): (s: string)
    ensures |s| == 2 * |bytes|
    ensures IsLowerHex(s)
    ensures forall i :: 0 <= i < |bytes| ==>
              s[2 * i] == HexDigit(bytes[i] / 16) && s[2 * i + 1] == HexDigit(bytes[i] % 16)
  {
    if bytes == [] then ""
    else
      var rest := Encode(bytes[1..]);
      var s := [HexDigit(bytes[0] / 16), HexDigit(bytes[0] % 16)] + rest;
      assert forall i :: 1 <= i < |bytes| ==> s[2 * i] == rest[2 * (i - 1)] && bytes[i] == bytes[1..][i - 1];
      s
  }

  function Decode(s: string): (r: Option<seq<byte>>)
    ensures r.Some? ==> 2 * |r.value| == |s|
    decreases |s|
  {
    if s == [] then Some([])
    else if |s| == 1 || !IsLowerHexDigit(s[0]) || !IsLowerHexDigit(s[1]) then None
    else
      match Decode(s[2..])
      case None => None
      case Some(rest) => Some([(16 * NibbleValue(s[0]) + NibbleValue(s[1])) as byte] + rest)
  }

  /** Decoding the encoding of any byte string gives the bytes back. */
  lemma {:induction false} DecodeEncode(bytes: seq<byte>)
    ensures Decode(Encode(bytes)) == Some(bytes)
  {
    if bytes != [] {
      var b := bytes[0];
      var hi, lo := b / 16, b % 16;
      var rest := Encode(bytes[1..]);
      var s := Encode(bytes);
      assert s == [HexDigit(hi), HexDigit(lo)] + rest;
      DecodeEncode(bytes[1..]);
      assert s[2..] == rest;
      NibbleOfDigit(hi);
      NibbleOfDigit(lo);
      assert 16 * hi + lo == b;
      assert Decode(s) == Some([b] + bytes[1..]);
      assert [b] + bytes[1..] == bytes;
    }
  }

  /** Distinct byte strings have distinct encodings. */
  lemma EncodeInjective(a: seq<byte>, b: seq<byte>)
    ensures Encode(a) == Encode(b) <==> a == b
  {
    DecodeEncode(a);
    DecodeEncode(b);
  }
}
