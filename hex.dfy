/**
 * `hex::encode` as the hex crate writes it: two lowercase hexadecimal digits
 * per byte, high nibble first. `HexDecode` is the inverse used to state what
 * the encoding preserves; it accepts only lowercase digits, the encoder's
 * own alphabet.
 */
module Hex {
  import opened Prelude

  predicate IsLowerHex(c: char) { '0' <= c <= '9' || 'a' <= c <= 'f' }

  /** The lowercase digit for a nibble. */
  function HexDigit(v: nat): (c: char)
    requires v < 16
    ensures IsLowerHex(c)
  {
    if v < 10 then ('0' as int + v) as char else ('a' as int + v - 10) as char
  }

  /** The nibble a lowercase digit stands for. */
  function HexDigitValue(c: char): (r: Option<nat>)
    ensures r.Some? <==> IsLowerHex(c)
    ensures r.Some? ==> r.value < 16 && HexDigit(r.value) == c
  {
    if '0' <= c <= '9' then Some(c as int - '0' as int)
    else if 'a' <= c <= 'f' then Some(c as int - 'a' as int + 10)
    else None
  }

  function HexEncode(bytes: seq<byte>): (s: string)
    ensures |s| == 2 * |bytes|
    ensures forall i :: 0 <= i < |s| ==> IsLowerHex(s[i])
    decreases |bytes|
  {
    if bytes == [] then ""
    else [HexDigit(bytes[0] as int / 16), HexDigit(bytes[0] as int % 16)] + HexEncode(bytes[1..])
  }

  function HexDecode(s: string): Option<seq<byte>>
    decreases |s|
  {
    if s == [] then Some([])
    else if |s| == 1 then None
    else match (HexDigitValue(s[0]), HexDigitValue(s[1]), HexDecode(s[2..]))
      case (Some(hi), Some(lo), Some(rest)) => Some([(hi * 16 + lo) as byte] + rest)
      case _ => None
  }

  /** Byte `i` of the input occupies characters `2*i` (high nibble) and `2*i + 1` (low nibble). */
  lemma {:induction false} HexEncodeAt(bytes: seq<byte>, i: nat)
    requires i < |bytes|
    ensures HexEncode(bytes)[2 * i] == HexDigit(bytes[i] as int / 16)
    ensures HexEncode(bytes)[2 * i + 1] == HexDigit(bytes[i] as int % 16)
    decreases i
  {
    if i > 0 {
      HexEncodeAt(bytes[1..], i - 1);
    }
  }

  /** Decoding undoes encoding. */
  lemma {:induction false} HexRoundTrip(bytes: seq<byte>)
    ensures HexDecode(HexEncode(bytes)) == Some(bytes)
    decreases |bytes|
  {
    if bytes != [] {
      var b := bytes[0] as int;
      var e := HexEncode(bytes);
      assert e[2..] == HexEncode(bytes[1..]);
      HexRoundTrip(bytes[1..]);
      assert HexDigitValue(e[0]) == Some(b / 16);
      assert HexDigitValue(e[1]) == Some(b % 16);
      assert [(b / 16 * 16 + b % 16) as byte] + bytes[1..] == bytes;
    }
  }

  /** A string that decodes is the encoding of what it decodes to. */
  lemma {:induction false} HexDecodeRoundTrip(s: string)
    ensures HexDecode(s).Some? ==> HexEncode(HexDecode(s).value) == s
    decreases |s|
  {
    if HexDecode(s).Some? && |s| >= 2 {
      var bytes := HexDecode(s).value;
      var hi := HexDigitValue(s[0]).value;
      var lo := HexDigitValue(s[1]).value;
      var rest := HexDecode(s[2..]).value;
      assert bytes == [(hi * 16 + lo) as byte] + rest;
      HexDecodeRoundTrip(s[2..]);
      assert bytes[1..] == rest;
      assert bytes[0] as int / 16 == hi && bytes[0] as int % 16 == lo;
      assert s == [s[0], s[1]] + s[2..];
    }
  }

  /** Different inputs have different encodings. */
  lemma HexEncodeInjective(a: seq<byte>, b: seq<byte>)
    ensures HexEncode(a) == HexEncode(b) ==> a == b
  {
    HexRoundTrip(a);
    HexRoundTrip(b);
  }

  /** The UTF-8 bytes of an ASCII string: each character is one byte with the same code. */
  function Ascii(s: string): (r: seq<byte>)
    requires forall i :: 0 <= i < |s| ==> s[i] as int < 0x80
    ensures |r| == |s|
    ensures forall i :: 0 <= i < |s| ==> r[i] as int == s[i] as int
  {
    seq(|s|, i requires 0 <= i < |s| => s[i] as int as byte)
  }

  lemma AsciiInjective(s: string, t: string)
    requires forall i :: 0 <= i < |s| ==> s[i] as int < 0x80
    requires forall i :: 0 <= i < |t| ==> t[i] as int < 0x80
    ensures Ascii(s) == Ascii(t) ==> s == t
  {
  }
}
