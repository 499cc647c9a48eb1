/** Lower-case hexadecimal text, as the `hex` library writes and reads it. */
module Hex {
  import opened Prelude
  import opened Positional

  type Byte = b: nat | b < 256
  type Hash = h: seq<Byte> | |h| == 32 witness seq(32, _ => 0)

  const DIGITS: string := "0123456789abcdef"

  function DigitChar(n: nat): (c: char)
    requires n < 16
  {
    DIGITS[n]
  }

  predicate IsHexDigit(c: char) {
    '0' <= c <= '9' || 'a' <= c <= 'f' || 'A' <= c <= 'F'
  }

  predicate IsLowerHexDigit(c: char) {
    '0' <= c <= '9' || 'a' <= c <= 'f'
  }

  predicate IsHex(s: string) {
    forall i :: 0 <= i < |s| ==> IsHexDigit(s[i])
  }

  predicate IsLowerHex(s: string) {
    forall i :: 0 <= i < |s| ==> IsLowerHexDigit(s[i])
  }

  function DigitOf(c: char): (n: nat)
    requires IsHexDigit(c)
    ensures n < 16
  {
    if '0' <= c <= '9' then c as int - '0' as int
    else if 'a' <= c <= 'f' then c as int - 'a' as int + 10
    else c as int - 'A' as int + 10
  }

  function DigitsOf(s: string): (ds: seq<nat>)
    requires IsHex(s)
    ensures |ds| == |s|
    ensures forall i :: 0 <= i < |s| ==> ds[i] == DigitOf(s[i])
  {
    seq(|s|, i requires 0 <= i < |s| => DigitOf(s[i]))
  }

  /** The number a hexadecimal text denotes. */
  function HexValue(s: string): nat
    requires IsHex(s)
  {
    Value(DigitsOf(s), 16)
  }

  function LowerChar(c: char): char {
    if 'A' <= c <= 'Z' then (c as int - 'A' as int + 'a' as int) as char else c
  }

  function Lower(s: string): (r: string)
    ensures |r| == |s|
    ensures forall i :: 0 <= i < |s| ==> r[i] == LowerChar(s[i])
  {
    seq(|s|, i requires 0 <= i < |s| => LowerChar(s[i]))
  }

  function Encode(bytes: seq<Byte>): string {
    if bytes == [] then ""
    else [DigitChar(bytes[0] / 16), DigitChar(bytes[0] % 16)] + Encode(bytes[1..])
  }

  function Decode(s: string): Option<seq<Byte>> {
    if s == "" then Some([])
    else if |s| < 2 || !IsHexDigit(s[0]) || !IsHexDigit(s[1]) then None
    else
      match Decode(s[2..])
      case None => None
      case Some(rest) => Some([JoinDigits(DigitOf(s[0]), DigitOf(s[1]))] + rest)
  }

  lemma DigitRoundTrip(n: nat)
    requires n < 16
    ensures IsLowerHexDigit(DigitChar(n)) && DigitOf(DigitChar(n)) == n
  {
  }

  lemma CharRoundTrip(c: char)
    requires IsLowerHexDigit(c)
    ensures IsHexDigit(c) && DigitChar(DigitOf(c)) == c
  {
  }

  function JoinDigits(hi: nat, lo: nat): (b: Byte)
    requires hi < 16 && lo < 16
    ensures b / 16 == hi && b % 16 == lo
  {
    hi * 16 + lo
  }

  lemma DecodePair(hi: char, lo: char, tail: string)
    requires IsHexDigit(hi) && IsHexDigit(lo) && Decode(tail).Some?
    ensures Decode([hi, lo] + tail) == Some([JoinDigits(DigitOf(hi), DigitOf(lo))] + Decode(tail).value)
  {
    assert ([hi, lo] + tail)[2..] == tail;
  }

  lemma EncodePair(b: Byte, rest: seq<Byte>)
    ensures Encode([b] + rest) == [DigitChar(b / 16), DigitChar(b % 16)] + Encode(rest)
  {
    assert ([b] + rest)[1..] == rest;
  }

  lemma LowerPair(hi: nat, lo: nat, tail: string)
    requires hi < 16 && lo < 16 && IsLowerHex(tail)
    ensures IsLowerHex([DigitChar(hi), DigitChar(lo)] + tail)
  {
    DigitRoundTrip(hi);
    DigitRoundTrip(lo);
  }

  lemma DecodeByte(b: Byte, rest: seq<Byte>)
    requires Decode(Encode(rest)) == Some(rest)
    ensures Decode(Encode([b] + rest)) == Some([b] + rest)
  {
    EncodePair(b, rest);
    DigitRoundTrip(b / 16);
    DigitRoundTrip(b % 16);
    DecodePair(DigitChar(b / 16), DigitChar(b % 16), Encode(rest));
  }

  /** Reading back what was written gives the same bytes. */
  lemma {:induction false} DecodeEncode(bytes: seq<Byte>)
    ensures Decode(Encode(bytes)) == Some(bytes)
    ensures |Encode(bytes)| == 2 * |bytes| && IsLowerHex(Encode(bytes))
    decreases |bytes|
  {
    if bytes != [] {
      var b, rest := bytes[0], bytes[1..];
      assert bytes == [b] + rest;
      DecodeEncode(rest);
      DecodeByte(b, rest);
      EncodePair(b, rest);
      LowerPair(b / 16, b % 16, Encode(rest));
    }
  }

  /** Every lower-case text of even length is the text of what it decodes to. */
  lemma {:induction false} EncodeDecode(s: string)
    requires IsLowerHex(s) && |s| % 2 == 0
    ensures Decode(s).Some? && Encode(Decode(s).value) == s && 2 * |Decode(s).value| == |s|
    decreases |s|
  {
    if s != "" {
      var tail := s[2..];
      EncodeDecode(tail);
      CharRoundTrip(s[0]);
      CharRoundTrip(s[1]);
      DecodePair(s[0], s[1], tail);
      EncodePair(JoinDigits(DigitOf(s[0]), DigitOf(s[1])), Decode(tail).value);
      assert s == [s[0], s[1]] + tail;
    }
  }

  /** Text comparison of lower-case digits is digit comparison. */
  function Codes(s: string): (cs: seq<nat>)
    ensures |cs| == |s|
    ensures forall i :: 0 <= i < |s| ==> cs[i] == s[i] as int
  {
    seq(|s|, i requires 0 <= i < |s| => s[i] as int)
  }

  lemma LowerHexIsHex(s: string)
    requires IsLowerHex(s)
    ensures IsHex(s)
  {
  }

  /** Equally long lower-case hexadecimal texts compare as the numbers they denote. */
  lemma TextOrderIsNumeric(a: string, b: string)
    requires IsLowerHex(a) && IsLowerHex(b) && |a| == |b|
    ensures IsHex(a) && IsHex(b)
    ensures LexLeq(Codes(a), Codes(b)) <==> HexValue(a) <= HexValue(b)
  {
    LowerHexIsHex(a);
    LowerHexIsHex(b);
    LexMap(Codes(a), Codes(b), DigitsOf(a), DigitsOf(b));
    LexIsNumeric(DigitsOf(a), DigitsOf(b), 16);
  }
}
