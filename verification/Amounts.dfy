/** Decimal CSD amounts: writing base units as text, and reading such text back. */
module Amounts {
  import opened Prelude
  import opened Positional
  import opened TipSentinel
  import opened Ledger

  const COIN: nat := 100_000_000

  datatype ParseResult = Ok(units: U128) | InvalidAmount(text: string)

  predicate IsDigit(c: char) {
    '0' <= c <= '9'
  }

  predicate AllDigits(s: string) {
    forall i :: 0 <= i < |s| ==> IsDigit(s[i])
  }

  function DigitValues(s: string): (ds: seq<nat>)
    requires AllDigits(s)
    ensures |ds| == |s| && Digits(ds, 10)
    ensures forall i :: 0 <= i < |s| ==> ds[i] == s[i] as int - '0' as int
  {
    seq(|s|, i requires 0 <= i < |s| => s[i] as int - '0' as int)
  }

  /** The number a decimal text denotes. */
  function DecimalValue(s: string): nat
    requires AllDigits(s)
  {
    Value(DigitValues(s), 10)
  }

  // ---------------------------------------------------------------- writing

  /** `to_string` on an unsigned integer. */
  function Decimal(n: nat): (s: string)
    ensures s != "" && AllDigits(s)
  {
    if n < 10 then [Hex.DigitChar(n)] else Decimal(n / 10) + [Hex.DigitChar(n % 10)]
  }

  /** Left padding with zeros up to a width, as `{:08}` does. */
  function PadLeft(s: string, width: nat): (p: string)
    ensures AllDigits(s) ==> AllDigits(p)
    ensures |p| == if |s| < width then width else |s|
    decreases width - |s|
  {
    if |s| < width then PadLeft("0" + s, width) else s
  }

  function FormatCsd(units: U128): string {
    Decimal(units / COIN) + "." + PadLeft(Decimal(units % COIN), 8)
  }

  // ---------------------------------------------------------------- reading

  /** The pieces between the separators; there is always at least one. */
  function Split(s: string, sep: char): (parts: seq<string>)
    ensures parts != []
  {
    if s == "" then [""]
    else
      var rest := Split(s[1..], sep);
      if s[0] == sep then [""] + rest else [[s[0]] + rest[0]] + rest[1..]
  }

  /** Right padding with zeros up to a width. */
  function PadRight(s: string, width: nat): (p: string)
    ensures AllDigits(s) ==> AllDigits(p)
    decreases width - |s|
  {
    if |s| < width then PadRight(s + "0", width) else s
  }

  function ParseParts(trimmed: string, whole: string, frac: string): ParseResult {
    if whole == "" || !AllDigits(whole) || !AllDigits(frac) || |frac| > 8 then InvalidAmount(trimmed)
    else if DecimalValue(whole) >= TWO_128 || DecimalValue(whole) * COIN >= TWO_128 then InvalidAmount(trimmed)
    else Ok(Wrap(DecimalValue(whole) * COIN + DecimalValue(PadRight(frac, 8))))
  }

  function ParseCsd(value: string): ParseResult {
    var trimmed := Trim(value);
    var parts := Split(trimmed, '.');
    if |parts| > 2 then InvalidAmount(trimmed)
    else ParseParts(trimmed, parts[0], if |parts| > 1 then parts[1] else "")
  }

  /** `str::parse::<u128>` on a nonempty text of digits. */
  method ParseU128(s: string) returns (n: Option<U128>)
    requires AllDigits(s) && s != ""
    ensures n == if DecimalValue(s) < TWO_128 then Some(DecimalValue(s)) else None
  {
    var acc := 0;
    for i := 0 to |s|
      invariant acc == DecimalValue(s[..i]) < TWO_128
    {
      NextDigit(s, i);
      acc := acc * 10 + (s[i] as int - '0' as int);
      if acc >= TWO_128 {
        PrefixIsSmaller(s, i + 1);
        return None;
      }
    }
    assert s[..|s|] == s;
    n := Some(acc);
  }

  lemma NextDigit(s: string, i: nat)
    requires AllDigits(s) && i < |s|
    ensures DecimalValue(s[..i + 1]) == DecimalValue(s[..i]) * 10 + (s[i] as int - '0' as int)
  {
    assert DigitValues(s[..i + 1])[..i] == DigitValues(s[..i]);
  }

  lemma {:induction false} PrefixIsSmaller(s: string, i: nat)
    requires AllDigits(s) && i <= |s|
    ensures DecimalValue(s[..i]) <= DecimalValue(s)
    decreases |s| - i
  {
    if i == |s| {
      assert s[..i] == s;
    } else {
      NextDigit(s, i);
      PrefixIsSmaller(s, i + 1);
    }
  }

  method ParseCsdBaseUnits(value: string) returns (r: ParseResult)
    ensures r == ParseCsd(value)
  {
    var trimmed := Trim(value);
    var parts := Split(trimmed, '.');
    var whole := parts[0];
    var frac := if |parts| > 1 then parts[1] else "";
    if |parts| > 2 || whole == "" || !AllDigits(whole) || !AllDigits(frac) || |frac| > 8 {
      return InvalidAmount(trimmed);
    }
    var wholeCoins := ParseU128(whole);
    if wholeCoins.None? || wholeCoins.value * COIN >= TWO_128 {
      return InvalidAmount(trimmed);
    }
    var padded := frac;
    while |padded| < 8
      invariant AllDigits(padded) && |padded| <= 8 && PadRight(padded, 8) == PadRight(frac, 8)
    {
      padded := padded + "0";
    }
    var fracUnits := ParseU128(padded);
    EightDigits(padded);
    r := Ok(Wrap(wholeCoins.value * COIN + fracUnits.value));
  }

  lemma EightDigits(s: string)
    requires AllDigits(s) && |s| == 8
    ensures DecimalValue(s) < COIN
  {
    ValueBound(DigitValues(s), 10);
    assert Pow(10, 8) == COIN by {
      assert Pow(10, 2) == 100;
      assert Pow(10, 4) == 10_000;
      assert Pow(10, 6) == 1_000_000;
    }
  }

  // ---------------------------------------------------------------- decimal texts

  lemma ValueAppend(s: string, c: char)
    requires AllDigits(s) && IsDigit(c)
    ensures AllDigits(s + [c]) && DecimalValue(s + [c]) == DecimalValue(s) * 10 + (c as int - '0' as int)
  {
    NextDigit(s + [c], |s|);
    assert (s + [c])[..|s|] == s && (s + [c])[..|s| + 1] == s + [c];
  }

  lemma OneDigit(c: char)
    requires IsDigit(c)
    ensures AllDigits([c]) && DecimalValue([c]) == c as int - '0' as int
  {
    ValueAppend("", c);
    assert "" + [c] == [c] && DecimalValue("") == 0;
  }

  lemma {:induction false} DecimalIsExact(n: nat)
    ensures DecimalValue(Decimal(n)) == n
    ensures Decimal(n)[0] == '0' ==> n == 0
  {
    if n < 10 {
      OneDigit(Hex.DigitChar(n));
    } else {
      DecimalIsExact(n / 10);
      ValueAppend(Decimal(n / 10), Hex.DigitChar(n % 10));
    }
  }

  lemma DecimalAppend(v: nat, d: nat)
    requires v > 0 && d < 10
    ensures Decimal(v * 10 + d) == Decimal(v) + [Hex.DigitChar(d)]
  {
    QuotientIs(v * 10 + d, v, d, 10);
  }

  lemma DigitOfChar(c: char)
    requires IsDigit(c)
    ensures Hex.DigitChar(c as int - '0' as int) == c
  {
  }

  /** A text of digits without a leading zero, or "0" itself, is the decimal text of its value. */
  lemma {:induction false} DecimalOfValue(s: string)
    requires AllDigits(s) && s != "" && (s[0] != '0' || s == "0")
    ensures Decimal(DecimalValue(s)) == s
    decreases |s|
  {
    var init, c := s[..|s| - 1], s[|s| - 1];
    assert s == init + [c];
    DigitOfChar(c);
    if init == "" {
      OneDigit(c);
    } else {
      DecimalOfValue(init);
      DecimalOfLonger(init, c);
    }
  }

  lemma DecimalOfLonger(init: string, c: char)
    requires AllDigits(init) && init != "" && init[0] != '0' && Decimal(DecimalValue(init)) == init && IsDigit(c)
    ensures AllDigits(init + [c]) && Decimal(DecimalValue(init + [c])) == init + [c]
  {
    DigitOfChar(c);
    ZeroIsShort(init);
    ValueAppend(init, c);
    DecimalAppend(DecimalValue(init), c as int - '0' as int);
  }

  lemma ZeroIsShort(s: string)
    requires AllDigits(s) && s != "" && s[0] != '0' && Decimal(DecimalValue(s)) == s
    ensures DecimalValue(s) > 0
  {
    assert Decimal(0)[0] == '0';
  }

  lemma {:induction false} PadLeftKeepsValue(s: string, width: nat)
    requires AllDigits(s)
    ensures DecimalValue(PadLeft(s, width)) == DecimalValue(s)
    decreases width - |s|
  {
    if |s| < width {
      var t := "0" + s;
      LeadingZero(DigitValues(t), 10);
      assert DigitValues(t)[1..] == DigitValues(s);
      PadLeftKeepsValue(t, width);
    }
  }

  lemma AppendZero(s: string)
    requires AllDigits(s)
    ensures AllDigits(s + "0") && DecimalValue(s + "0") == DecimalValue(s) * 10
  {
    var t := s + "0";
    NextDigit(t, |s|);
    assert t[..|s|] == s && t[..|s| + 1] == t;
  }

  lemma {:induction false} PadRightScales(s: string, width: nat)
    requires AllDigits(s) && |s| <= width
    ensures |PadRight(s, width)| == width
    ensures DecimalValue(PadRight(s, width)) == DecimalValue(s) * Pow(10, width - |s|)
    decreases width - |s|
  {
    if |s| < width {
      AppendZero(s);
      PadRightScales(s + "0", width);
      Reassociate(DecimalValue(s), 10, Pow(10, width - |s| - 1));
    }
  }

  lemma Reassociate(a: nat, b: nat, c: nat)
    ensures a * b * c == a * (b * c)
  {
  }

  // ---------------------------------------------------------------- splitting and trimming

  lemma {:induction false} SplitPlain(s: string, sep: char)
    requires sep !in s
    ensures Split(s, sep) == [s]
    decreases |s|
  {
    if s != "" {
      SplitPlain(s[1..], sep);
      assert s == [s[0]] + s[1..];
    }
  }

  lemma {:induction false} SplitAtFirst(head: string, sep: char, tail: string)
    requires sep !in head
    ensures Split(head + [sep] + tail, sep) == [head] + Split(tail, sep)
    decreases |head|
  {
    var s := head + [sep] + tail;
    if head == "" {
      assert s[1..] == tail;
    } else {
      SplitAtFirst(head[1..], sep, tail);
      assert s[1..] == head[1..] + [sep] + tail;
      assert head == [head[0]] + head[1..];
    }
  }

  lemma SplitFirst(s: string, sep: char, rest: seq<string>)
    requires s != "" && rest == Split(s[1..], sep) && sep !in rest[0]
    requires |rest| == 1 ==> s[1..] == rest[0]
    requires |rest| == 2 ==> s[1..] == rest[0] + [sep] + rest[1]
    ensures var parts := Split(s, sep);
      && sep !in parts[0]
      && (|parts| == 1 ==> s == parts[0])
      && (|parts| == 2 ==> s == parts[0] + [sep] + parts[1])
  {
    var head := [s[0]];
    assert s == head + s[1..];
    if s[0] == sep {
      assert Split(s, sep) == [""] + rest;
      assert "" + [sep] + rest[0] == head + rest[0];
    } else {
      assert Split(s, sep) == [head + rest[0]] + rest[1..];
      if |rest| == 2 {
        Associate(head, rest[0], [sep], rest[1]);
      }
    }
  }

  lemma Associate(a: string, b: string, c: string, d: string)
    ensures a + (b + c + d) == a + b + c + d
  {
  }

  lemma {:induction false} SplitJoins(s: string, sep: char)
    ensures var parts := Split(s, sep);
      && sep !in parts[0]
      && (|parts| == 1 ==> s == parts[0])
      && (|parts| == 2 ==> s == parts[0] + [sep] + parts[1])
    decreases |s|
  {
    if s != "" {
      SplitJoins(s[1..], sep);
      SplitFirst(s, sep, Split(s[1..], sep));
    }
  }

  lemma TrimKeeps(s: string)
    requires s != "" && !IsSpace(s[0]) && !IsSpace(s[|s| - 1])
    ensures Trim(s) == s
  {
  }

  // ---------------------------------------------------------------- round trips

  /** What an accepted text looks like: digits, and possibly a point with at most eight further digits. */
  ghost predicate IsAmountText(text: string, whole: string, frac: string) {
    && whole != "" && AllDigits(whole) && AllDigits(frac) && |frac| <= 8
    && ((frac == "" && text == whole) || text == whole + "." + frac)
  }

  /** Base units of such a text, before any width is considered. */
  function TrueUnits(whole: string, frac: string): nat
    requires AllDigits(whole) && AllDigits(frac) && |frac| <= 8
  {
    DecimalValue(whole) * COIN + DecimalValue(frac) * Pow(10, 8 - |frac|)
  }

  lemma SplitText(text: string, whole: string, frac: string)
    requires IsAmountText(text, whole, frac)
    ensures Split(text, '.') == if text == whole then [whole] else [whole, frac]
  {
    SplitPlain(whole, '.');
    SplitPlain(frac, '.');
    SplitAtFirst(whole, '.', frac);
  }

  lemma PartsParsed(trimmed: string, whole: string, frac: string)
    requires whole != "" && AllDigits(whole) && AllDigits(frac) && |frac| <= 8
    ensures ParseParts(trimmed, whole, frac) ==
              if DecimalValue(whole) * COIN < TWO_128 then Ok(Wrap(TrueUnits(whole, frac))) else InvalidAmount(trimmed)
  {
    PadRightScales(frac, 8);
    ScaledUp(DecimalValue(whole));
  }

  lemma ParseText(value: string, whole: string, frac: string)
    requires IsAmountText(Trim(value), whole, frac)
    ensures ParseCsd(value) ==
              if DecimalValue(whole) * COIN < TWO_128 then Ok(Wrap(TrueUnits(whole, frac))) else InvalidAmount(Trim(value))
  {
    SplitText(Trim(value), whole, frac);
    assert Trim(value) == whole ==> frac == "";
    PartsParsed(Trim(value), whole, frac);
  }

  lemma ScaledUp(whole: nat)
    ensures whole * COIN < TWO_128 ==> whole < TWO_128
  {
  }

  /** Exactly the amount texts whose whole part fits are accepted. */
  lemma AcceptedIff(value: string)
    ensures ParseCsd(value).Ok? <==>
              exists whole, frac :: IsAmountText(Trim(value), whole, frac) && DecimalValue(whole) * COIN < TWO_128
    ensures ParseCsd(value).InvalidAmount? ==> ParseCsd(value).text == Trim(value)
  {
    if ParseCsd(value).Ok? {
      var parts := Split(Trim(value), '.');
      SplitJoins(Trim(value), '.');
      var frac := if |parts| > 1 then parts[1] else "";
      assert IsAmountText(Trim(value), parts[0], frac);
    } else {
      forall whole, frac | IsAmountText(Trim(value), whole, frac)
        ensures DecimalValue(whole) * COIN >= TWO_128
      {
        ParseText(value, whole, frac);
      }
    }
  }

  lemma FracFits(frac: string)
    requires AllDigits(frac) && |frac| <= 8
    ensures DecimalValue(frac) * Pow(10, 8 - |frac|) < COIN
  {
    PadRightScales(frac, 8);
    EightDigits(PadRight(frac, 8));
  }

  /** The greatest number of whole coins that fits, though not with every fraction. */
  const LAST_WHOLE: nat := 3402823669209384634633746074317

  /**
   The final addition of an accepted text is exact except for the greatest whole part that fits together with a
   fraction above .68211455, where it wraps around.
   */
  lemma ParseIsExactIff(value: string, whole: string, frac: string)
    requires IsAmountText(Trim(value), whole, frac) && ParseCsd(value).Ok?
    ensures (ParseCsd(value).units == TrueUnits(whole, frac)) <==>
            !(DecimalValue(whole) == LAST_WHOLE && TrueUnits(whole, frac) % COIN > 68211455)
  {
    ParseText(value, whole, frac);
    UnitsFit(whole, frac);
  }

  lemma UnitsFit(whole: string, frac: string)
    requires AllDigits(whole) && AllDigits(frac) && |frac| <= 8 && DecimalValue(whole) * COIN < TWO_128
    ensures var units := TrueUnits(whole, frac);
      Wrap(units) == units <==> !(DecimalValue(whole) == LAST_WHOLE && units % COIN > 68211455)
  {
    FracFits(frac);
    LastWhole(DecimalValue(whole), DecimalValue(frac) * Pow(10, 8 - |frac|), TrueUnits(whole, frac));
  }

  lemma LastWhole(whole: nat, frac: nat, units: nat)
    requires whole * COIN < TWO_128 && frac < COIN && units == whole * COIN + frac
    ensures Wrap(units) == units <==> !(whole == LAST_WHOLE && units % COIN > 68211455)
  {
    QuotientIs(units, whole, frac, COIN);
  }

  /** One such text: 3402823669209384634633746074317.99999999, which is 2^128 + 31788543 base units, is read as 31788543. */
  lemma ParseCanWrap(value: string, whole: string)
    requires whole == Decimal(LAST_WHOLE) && value == whole + "." + "99999999"
    ensures ParseCsd(value) == Ok(31788543)
  {
    DecimalIsExact(LAST_WHOLE);
    NinesValue();
    TrimKeeps(value);
    assert IsAmountText(value, whole, "99999999");
    CanonicalUnits(whole, "99999999");
    ParseText(value, whole, "99999999");
    QuotientIs(LAST_WHOLE * COIN + 99999999, 1, 31788543, TWO_128);
  }

  lemma NinesValue()
    ensures AllDigits("99999999") && DecimalValue("99999999") == 99999999
  {
    DecimalOfDigits("99999999", 99999999);
  }

  lemma DecimalOfDigits(s: string, n: nat)
    requires s == Decimal(n)
    ensures AllDigits(s) && DecimalValue(s) == n
  {
    DecimalIsExact(n);
  }

  /** Canonical texts: no needless leading zero, and exactly eight digits after the point. */
  ghost predicate IsCanonical(text: string, whole: string, frac: string) {
    && whole != "" && AllDigits(whole) && (whole[0] != '0' || whole == "0")
    && |frac| == 8 && AllDigits(frac) && text == whole + "." + frac
  }

  lemma FormatIsCanonical(n: U128)
    ensures var whole, frac := Decimal(n / COIN), PadLeft(Decimal(n % COIN), 8);
      && IsCanonical(FormatCsd(n), whole, frac)
      && DecimalValue(whole) == n / COIN && DecimalValue(frac) == n % COIN
      && TrueUnits(whole, frac) == n
  {
    DecimalIsExact(n / COIN);
    DecimalIsExact(n % COIN);
    DecimalOfValue(Decimal(n / COIN));
    ShortDecimal(n % COIN, 8);
    PadLeftKeepsValue(Decimal(n % COIN), 8);
    CanonicalUnits(Decimal(n / COIN), PadLeft(Decimal(n % COIN), 8));
    assert n == n / COIN * COIN + n % COIN;
  }

  lemma CanonicalUnits(whole: string, frac: string)
    requires AllDigits(whole) && AllDigits(frac) && |frac| == 8
    ensures TrueUnits(whole, frac) == DecimalValue(whole) * COIN + DecimalValue(frac)
  {
    assert Pow(10, 0) == 1;
  }

  lemma {:induction false} ShortDecimal(n: nat, width: nat)
    requires n < Pow(10, width) && width > 0
    ensures |Decimal(n)| <= width
    decreases width
  {
    if n >= 10 {
      ShortDecimal(n / 10, width - 1);
    }
  }

  /** Reading a written amount gives the amount back: for every `u128`, without overflow. */
  lemma FormatThenParse(n: U128)
    ensures ParseCsd(FormatCsd(n)) == Ok(n)
  {
    var whole, frac := Decimal(n / COIN), PadLeft(Decimal(n % COIN), 8);
    var text := FormatCsd(n);
    FormatIsCanonical(n);
    assert text[0] == whole[0] && text[|text| - 1] == frac[7];
    TrimKeeps(text);
    assert IsAmountText(text, whole, frac);
    ParseText(text, whole, frac);
    assert n == n / COIN * COIN + n % COIN;
  }

  /** Writing what was read from a canonical text gives the text back, if its value fits. */
  lemma ParseThenFormat(text: string, whole: string, frac: string)
    requires IsCanonical(text, whole, frac) && TrueUnits(whole, frac) < TWO_128
    ensures ParseCsd(text).Ok? && FormatCsd(ParseCsd(text).units) == text
  {
    assert text[0] == whole[0] && text[|text| - 1] == frac[7];
    TrimKeeps(text);
    assert IsAmountText(text, whole, frac);
    ParseText(text, whole, frac);
    CanonicalUnits(whole, frac);
    EightDigits(frac);
    QuotientIs(TrueUnits(whole, frac), DecimalValue(whole), DecimalValue(frac), COIN);
    DecimalOfValue(whole);
    PadOfValue(frac, 8);
  }

  lemma {:induction false} PadOfValue(s: string, width: nat)
    requires AllDigits(s) && |s| == width && width > 0
    ensures PadLeft(Decimal(DecimalValue(s)), width) == s
  {
    PadStep(s, s);
  }

  /** Removing leading zeros and padding again changes nothing. */
  lemma {:induction false} PadStep(s: string, t: string)
    requires AllDigits(s) && AllDigits(t) && t != "" && |t| <= |s|
    requires PadLeft(t, |s|) == s && DecimalValue(t) == DecimalValue(s)
    ensures PadLeft(Decimal(DecimalValue(s)), |s|) == s
    decreases |t|
  {
    if t[0] == '0' && |t| > 1 {
      assert t == "0" + t[1..];
      LeadingZero(DigitValues(t), 10);
      assert DigitValues(t)[1..] == DigitValues(t[1..]);
      PadStep(s, t[1..]);
    } else {
      assert t[0] == '0' ==> t == "0";
      DecimalOfValue(t);
    }
  }

  /** Writing any amount that was read exactly gives a canonical text of the same value. */
  lemma ReformattingIsCanonical(value: string, whole: string, frac: string)
    requires IsAmountText(Trim(value), whole, frac) && TrueUnits(whole, frac) < TWO_128
    ensures ParseCsd(value).Ok?
    ensures var units := ParseCsd(value).units; var w, f := Decimal(units / COIN), PadLeft(Decimal(units % COIN), 8);
      IsCanonical(FormatCsd(units), w, f) && TrueUnits(w, f) == TrueUnits(whole, frac)
  {
    ParseText(value, whole, frac);
    FormatIsCanonical(ParseCsd(value).units);
  }
}
