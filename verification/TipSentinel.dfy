/** What the tip sentinel reads from two nodes, and when it calls the current parent stale. */
module TipSentinel {
  import opened Prelude
  import opened Positional
  import opened Hex

  datatype ObservedTip = ObservedTip(height: nat, tipHex: string, chainworkHex: string)
  datatype Observation = Observation(primary: ObservedTip, secondary: ObservedTip)

  /** Unicode white space, which `trim` removes at both ends. */
  predicate IsSpace(c: char) {
    var n := c as int;
    0x09 <= n <= 0x0D || n in {0x20, 0x85, 0xA0, 0x1680, 0x2028, 0x2029, 0x202F, 0x205F, 0x3000}
    || 0x2000 <= n <= 0x200A
  }

  function TrimStart(s: string): string {
    if s != "" && IsSpace(s[0]) then TrimStart(s[1..]) else s
  }

  function TrimEnd(s: string): string {
    if s != "" && IsSpace(s[|s| - 1]) then TrimEnd(s[..|s| - 1]) else s
  }

  function Trim(s: string): string {
    TrimEnd(TrimStart(s))
  }

  function StripPrefix(s: string): string {
    if "0x" <= s || "0X" <= s then s[2..] else s
  }

  function TrimZeros(s: string): string {
    if s != "" && s[0] == '0' then TrimZeros(s[1..]) else s
  }

  function CanonicalHealthHash(value: string): Option<string> {
    var text := StripPrefix(Trim(value));
    if |text| != 64 || !IsHex(text) then None else Some(Lower(text))
  }

  function CanonicalChainwork(value: string): Option<string> {
    var text := StripPrefix(Trim(value));
    if text == "" || !IsHex(text) then None
    else
      var digits := TrimZeros(text);
      Some(if digits == "" then "0" else Lower(digits))
  }

  predicate ChainworkAtLeast(left: string, right: string) {
    var l, r := TrimZeros(left), TrimZeros(right);
    |l| > |r| || (|l| == |r| && LexLeq(Codes(r), Codes(l)))
  }

  predicate InvalidatesParent(parent: Hash, o: Observation) {
    o.primary.tipHex != Encode(parent)
    || o.secondary.height > o.primary.height
    || (o.secondary.height == o.primary.height
        && o.secondary.tipHex != o.primary.tipHex
        && ChainworkAtLeast(o.secondary.chainworkHex, o.primary.chainworkHex))
  }

  predicate IsTipText(s: string) {
    |s| == 64 && IsLowerHex(s)
  }

  predicate IsWorkText(s: string) {
    s != "" && IsLowerHex(s) && (s == "0" || s[0] != '0')
  }

  predicate IsCanonicalTip(t: ObservedTip) {
    IsTipText(t.tipHex) && IsWorkText(t.chainworkHex)
  }

  // ---------------------------------------------------------------- canonical texts

  lemma LowerKeepsDigits(s: string)
    requires IsHex(s)
    ensures IsLowerHex(Lower(s)) && IsHex(Lower(s))
    ensures DigitsOf(Lower(s)) == DigitsOf(s)
  {
    forall i | 0 <= i < |s|
      ensures IsLowerHexDigit(Lower(s)[i]) && DigitOf(Lower(s)[i]) == DigitOf(s[i])
    {
      assert Lower(s)[i] == LowerChar(s[i]);
    }
  }

  lemma {:induction false} TrimZerosKeepsValue(s: string)
    requires IsHex(s)
    ensures IsHex(TrimZeros(s)) && HexValue(TrimZeros(s)) == HexValue(s)
    ensures TrimZeros(s) != "" ==> TrimZeros(s)[0] != '0'
    ensures IsLowerHex(s) ==> IsLowerHex(TrimZeros(s))
    decreases |s|
  {
    if s != "" && s[0] == '0' {
      TrimZerosKeepsValue(s[1..]);
      LeadingZero(DigitsOf(s), 16);
      assert DigitsOf(s)[1..] == DigitsOf(s[1..]);
    }
  }

  /** Canonical chainwork denotes the same number, in the one text without leading zeros or capitals. */
  lemma CanonicalChainworkIsExact(value: string)
    ensures CanonicalChainwork(value).Some? <==>
              StripPrefix(Trim(value)) != "" && IsHex(StripPrefix(Trim(value)))
    ensures CanonicalChainwork(value).Some? ==>
              var text := CanonicalChainwork(value).value;
              IsWorkText(text) && IsHex(text) && HexValue(text) == HexValue(StripPrefix(Trim(value)))
  {
    var text := StripPrefix(Trim(value));
    if text != "" && IsHex(text) {
      TrimZerosKeepsValue(text);
      var digits := TrimZeros(text);
      LowerKeepsDigits(digits);
      if digits == "" {
        LeadingZero(DigitsOf("0"), 16);
        assert DigitsOf("0")[1..] == DigitsOf("");
      } else {
        assert Lower(digits)[0] == LowerChar(digits[0]);
      }
    }
  }

  /** Canonical tip hashes exist for exactly the texts of 32 bytes, and denote the same bytes in lower case. */
  lemma CanonicalHealthHashIsExact(value: string)
    ensures CanonicalHealthHash(value).Some? <==>
              Decode(StripPrefix(Trim(value))).Some? && |Decode(StripPrefix(Trim(value))).value| == 32
    ensures CanonicalHealthHash(value).Some? ==>
              var text := CanonicalHealthHash(value).value;
              && IsTipText(text)
              && Decode(text).Some? && Decode(text) == Decode(StripPrefix(Trim(value)))
              && |Decode(text).value| == 32
  {
    var text := StripPrefix(Trim(value));
    if |text| == 64 && IsHex(text) {
      LowerKeepsDigits(text);
      EncodeDecode(Lower(text));
      DecodeIgnoresCase(text);
    } else if Decode(text).Some? {
      DecodesHexOnly(text);
    }
  }

  lemma {:induction false} DecodesHexOnly(s: string)
    requires Decode(s).Some?
    ensures IsHex(s) && |s| == 2 * |Decode(s).value|
    decreases |s|
  {
    if s != "" {
      DecodesHexOnly(s[2..]);
      assert s == [s[0], s[1]] + s[2..];
    }
  }

  /** `s` with white space before and after. */
  ghost predicate Padded(s: string, before: string, core: string, after: string) {
    && s == before + core + after
    && (forall i :: 0 <= i < |before| ==> IsSpace(before[i]))
    && (forall i :: 0 <= i < |after| ==> IsSpace(after[i]))
    && (core != "" ==> !IsSpace(core[0]) && !IsSpace(core[|core| - 1]))
  }

  lemma {:induction false} TrimStartIs(s: string) returns (before: string)
    ensures s == before + TrimStart(s) && forall i :: 0 <= i < |before| ==> IsSpace(before[i])
    ensures TrimStart(s) != "" ==> !IsSpace(TrimStart(s)[0])
    decreases |s|
  {
    before := "";
    if s != "" && IsSpace(s[0]) {
      var rest := TrimStartIs(s[1..]);
      before := [s[0]] + rest;
      assert s == [s[0]] + s[1..];
    }
  }

  lemma {:induction false} TrimEndIs(s: string) returns (after: string)
    ensures s == TrimEnd(s) + after && forall i :: 0 <= i < |after| ==> IsSpace(after[i])
    ensures TrimEnd(s) != "" ==> TrimEnd(s)[0] == s[0] && !IsSpace(TrimEnd(s)[|TrimEnd(s)| - 1])
    decreases |s|
  {
    after := "";
    if s != "" && IsSpace(s[|s| - 1]) {
      var n := |s| - 1;
      var rest := TrimEndIs(s[..n]);
      after := rest + [s[n]];
      assert s == s[..n] + [s[n]];
    }
  }

  /** Trimming takes white space off both ends until none is left there. */
  lemma TrimIs(s: string) returns (before: string, after: string)
    ensures Padded(s, before, Trim(s), after)
  {
    before := TrimStartIs(s);
    after := TrimEndIs(TrimStart(s));
    assert s == before + (Trim(s) + after) == before + Trim(s) + after;
  }

  lemma {:induction false} DecodeIgnoresCase(s: string)
    requires IsHex(s)
    ensures Decode(Lower(s)) == Decode(s)
    decreases |s|
  {
    if |s| >= 2 {
      LowerKeepsDigits(s);
      DecodeIgnoresCase(s[2..]);
      assert Lower(s)[2..] == Lower(s[2..]);
      assert DigitsOf(s)[0] == DigitOf(s[0]) && DigitsOf(s)[1] == DigitOf(s[1]);
      assert DigitsOf(Lower(s))[0] == DigitOf(Lower(s)[0]) && DigitsOf(Lower(s))[1] == DigitOf(Lower(s)[1]);
    }
  }

  /** Comparing trimmed texts by length and then by character compares the accumulated work itself. */
  lemma ChainworkOrderIsNumeric(left: string, right: string)
    requires IsLowerHex(left) && IsLowerHex(right)
    ensures IsHex(left) && IsHex(right)
    ensures ChainworkAtLeast(left, right) <==> HexValue(left) >= HexValue(right)
  {
    LowerHexIsHex(left);
    LowerHexIsHex(right);
    TrimZerosKeepsValue(left);
    TrimZerosKeepsValue(right);
    var l, r := TrimZeros(left), TrimZeros(right);
    if |l| == |r| {
      TextOrderIsNumeric(r, l);
    } else if |l| > |r| {
      LongerIsLarger(DigitsOf(l), DigitsOf(r), 16);
    } else {
      LongerIsLarger(DigitsOf(r), DigitsOf(l), 16);
    }
  }

  /**
   The parent is called stale exactly when node A has left it, node B is strictly higher, or B has a different
   tip at the same height with at least as much work.
   */
  lemma InvalidatesParentMeaning(parent: Hash, o: Observation)
    requires IsCanonicalTip(o.primary) && IsCanonicalTip(o.secondary)
    ensures Decode(o.primary.tipHex).Some? && Decode(o.secondary.tipHex).Some?
    ensures IsHex(o.primary.chainworkHex) && IsHex(o.secondary.chainworkHex)
    ensures InvalidatesParent(parent, o) <==>
              || Decode(o.primary.tipHex).value != parent
              || o.secondary.height > o.primary.height
              || (o.secondary.height == o.primary.height
                  && Decode(o.secondary.tipHex) != Decode(o.primary.tipHex)
                  && HexValue(o.secondary.chainworkHex) >= HexValue(o.primary.chainworkHex))
  {
    EncodeDecode(o.primary.tipHex);
    EncodeDecode(o.secondary.tipHex);
    DecodeEncode(parent);
    ChainworkOrderIsNumeric(o.secondary.chainworkHex, o.primary.chainworkHex);
  }
}
