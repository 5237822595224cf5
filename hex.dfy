/**
 * Lower-case hexadecimal text of a byte string, as produced by a script's
 * `ToHex()` before it is sent to the server for monitoring, with its inverse.
 */
module Hex {
  import opened Wrappers

  newtype byte = x: int | 0 <= x < 256

  predicate IsDigit(c: char)
  {
    '0' <= c <= '9' || 'a' <= c <= 'f'
  }

  /** The lower-case digit for a nibble. */
  function DigitChar(d: int): (c: char)
    requires 0 <= d < 16
    ensures IsDigit(c)
  {
    if d < 10 then ('0' as int + d) as char else ('a' as int + d - 10) as char
  }

  /** The value of one hexadecimal digit, or None for any other character. */
  function DigitValue(c: char): (r: Option<int>)
    ensures r.Some? <==> IsDigit(c)
    ensures r.Some? ==> 0 <= r.value < 16 && DigitChar(r.value) == c
  {
    if '0' <= c <= '9' then Some(c as int - '0' as int)
    else if 'a' <= c <= 'f' then Some(c as int - 'a' as int + 10)
    else None
  }

  /** Two digits per byte, high nibble first. */
  function ToHex(bytes: seq<byte>): (s: string)
    ensures |s| == 2 * |bytes|
    ensures forall i :: 0 <= i < |s| ==> IsDigit(s[i])
  {
    if bytes == [] then ""
    else [DigitChar(bytes[0] as int / 16), DigitChar(bytes[0] as int % 16)] + ToHex(bytes[1..])
  }

  /** Parses text made of digit pairs; None for odd length or a non-digit. */
  function FromHex(s: string): (r: Option<seq<byte>>)
    ensures r.Some? ==> 2 * |r.value| == |s|
    decreases |s|
  {
    if s == [] then Some([])
    else if |s| == 1 then None
    else
      var high, low, rest := DigitValue(s[0]), DigitValue(s[1]), FromHex(s[2..]);
      if high.Some? && low.Some? && rest.Some?
      then Some([(high.value * 16 + low.value) as byte] + rest.value)
      else None
  }

  lemma DigitRoundTrip(d: int)
    requires 0 <= d < 16
    ensures DigitValue(DigitChar(d)) == Some(d)
  {
  }

  /** A byte splits into two nibbles that recombine to it. */
  lemma SplitByte(b: byte)
    ensures 0 <= b as int / 16 < 16 && 0 <= b as int % 16 < 16
    ensures (b as int / 16) * 16 + b as int % 16 == b as int
  {
  }

  /** The text of one byte followed by more digits parses as that byte followed by the rest. */
  lemma FromHexCons(b: byte, rest: string, tail: seq<byte>)
    requires FromHex(rest) == Some(tail)
    ensures FromHex(ToHex([b]) + rest) == Some([b] + tail)
  {
    SplitByte(b);
    var h, l := b as int / 16, b as int % 16;
    var s := ToHex([b]) + rest;
    assert s[0] == DigitChar(h) && s[1] == DigitChar(l) && s[2..] == rest;
    DigitRoundTrip(h);
    DigitRoundTrip(l);
    assert (h * 16 + l) as byte == b;
  }

  /** Decoding the hexadecimal text gives back the script bytes. */
  lemma {:induction false} FromHexToHex(bytes: seq<byte>)
    ensures FromHex(ToHex(bytes)) == Some(bytes)
  {
    if bytes != [] {
      FromHexToHex(bytes[1..]);
      assert ToHex(bytes) == ToHex([bytes[0]]) + ToHex(bytes[1..]);
      FromHexCons(bytes[0], ToHex(bytes[1..]), bytes[1..]);
      assert [bytes[0]] + bytes[1..] == bytes;
    }
  }

  /** Two scripts with the same hexadecimal text are the same script. */
  lemma ToHexInjective(a: seq<byte>, b: seq<byte>)
    requires ToHex(a) == ToHex(b)
    ensures a == b
  {
    FromHexToHex(a);
    FromHexToHex(b);
  }
}
