/** Big-endian positional numbers, and lexicographic comparison of their digits. */
module Positional {

  ghost predicate Digits(ds: seq<nat>, base: nat) {
    forall i :: 0 <= i < |ds| ==> ds[i] < base
  }

  function Value(ds: seq<nat>, base: nat): nat {
    if ds == [] then 0 else Value(ds[..|ds| - 1], base) * base + ds[|ds| - 1]
  }

  function Pow(base: nat, n: nat): nat {
    if n == 0 then 1 else base * Pow(base, n - 1)
  }

  /** The order of Rust's slices, arrays and strings: first difference decides, a proper prefix comes first. */
  predicate LexLeq(a: seq<nat>, b: seq<nat>) {
    a == [] || (b != [] && (a[0] < b[0] || (a[0] == b[0] && LexLeq(a[1..], b[1..]))))
  }

  lemma {:induction false} PowPositive(base: nat, n: nat)
    requires base > 0
    ensures Pow(base, n) > 0
  {
    if n > 0 {
      PowPositive(base, n - 1);
    }
  }

  lemma {:induction false} PowMonotone(base: nat, m: nat, n: nat)
    requires base > 0 && m <= n
    ensures Pow(base, m) <= Pow(base, n)
  {
    if m < n {
      PowMonotone(base, m, n - 1);
      MulMonotone(1, base, Pow(base, n - 1));
    }
  }

  lemma Distribute(d: nat, p: nat, v: nat, base: nat)
    ensures (d * p + v) * base == d * (base * p) + v * base
  {
    assert d * p * base == d * (base * p);
  }

  lemma {:induction false} ValueSplit(d: nat, rest: seq<nat>, base: nat)
    ensures Value([d] + rest, base) == d * Pow(base, |rest|) + Value(rest, base)
    decreases |rest|
  {
    var whole := [d] + rest;
    if rest == [] {
      assert whole == [d] && whole[..0] == [];
      assert Value(whole[..0], base) * base == 0;
    } else {
      var n := |rest| - 1;
      assert whole[..n + 1] == [d] + rest[..n];
      ValueSplit(d, rest[..n], base);
      Distribute(d, Pow(base, n), Value(rest[..n], base), base);
    }
  }

  lemma DigitFits(v: nat, d: nat, base: nat, p: nat)
    requires v < p && d < base
    ensures v * base + d < base * p
  {
    MulMonotone(v + 1, p, base);
  }

  lemma {:induction false} ValueBound(ds: seq<nat>, base: nat)
    requires Digits(ds, base) && base > 0
    ensures Value(ds, base) < Pow(base, |ds|)
    decreases |ds|
  {
    if ds != [] {
      var n := |ds| - 1;
      ValueBound(ds[..n], base);
      DigitFits(Value(ds[..n], base), ds[n], base, Pow(base, n));
    }
  }

  lemma MulMonotone(a: nat, b: nat, c: nat)
    requires a <= b
    ensures a * c <= b * c
  {
  }

  /** Quotient and remainder are determined by the division equation. */
  lemma QuotientIs(n: nat, q: nat, r: nat, d: nat)
    requires d > 0 && r < d && n == q * d + r
    ensures n / d == q && n % d == r
  {
    if n / d < q {
      MulMonotone(n / d + 1, q, d);
    } else if n / d > q {
      MulMonotone(q + 1, n / d, d);
    }
  }

  lemma LeadingDigitDecides(x: nat, y: nat, v: nat, w: nat, p: nat)
    requires v < p && w < p
    ensures x * p + v <= y * p + w <==> x < y || (x == y && v <= w)
  {
    if x < y {
      MulMonotone(x + 1, y, p);
    } else if y < x {
      MulMonotone(y + 1, x, p);
    }
  }

  /** Comparing equally long digit strings from the left compares the numbers. */
  lemma {:induction false} LexIsNumeric(a: seq<nat>, b: seq<nat>, base: nat)
    requires |a| == |b| && Digits(a, base) && Digits(b, base)
    ensures LexLeq(a, b) <==> Value(a, base) <= Value(b, base)
    decreases |a|
  {
    if a != [] {
      var p := Pow(base, |a| - 1);
      assert a == [a[0]] + a[1..] && b == [b[0]] + b[1..];
      ValueSplit(a[0], a[1..], base);
      ValueSplit(b[0], b[1..], base);
      ValueBound(a[1..], base);
      ValueBound(b[1..], base);
      LexIsNumeric(a[1..], b[1..], base);
      LeadingDigitDecides(a[0], b[0], Value(a[1..], base), Value(b[1..], base), p);
    }
  }

  lemma {:induction false} LexMap(a: seq<nat>, b: seq<nat>, x: seq<nat>, y: seq<nat>)
    requires |a| == |x| && |b| == |y|
    requires forall i, j :: 0 <= i < |a| && 0 <= j < |b| ==> (a[i] < b[j] <==> x[i] < y[j]) && (a[i] == b[j] <==> x[i] == y[j])
    ensures LexLeq(a, b) <==> LexLeq(x, y)
    decreases |a|
  {
    if a != [] && b != [] {
      LexMap(a[1..], b[1..], x[1..], y[1..]);
    }
  }

  /** A nonzero leading digit makes the longer number the larger one. */
  lemma LongerIsLarger(a: seq<nat>, b: seq<nat>, base: nat)
    requires |a| > |b| && Digits(a, base) && Digits(b, base) && base > 0 && a[0] > 0
    ensures Value(a, base) > Value(b, base)
  {
    assert a == [a[0]] + a[1..];
    ValueSplit(a[0], a[1..], base);
    ValueBound(b, base);
    PowMonotone(base, |b|, |a| - 1);
    MulMonotone(1, a[0], Pow(base, |a| - 1));
  }

  lemma LeadingZero(ds: seq<nat>, base: nat)
    requires ds != [] && ds[0] == 0
    ensures Value(ds, base) == Value(ds[1..], base)
  {
    assert ds == [0] + ds[1..];
    ValueSplit(0, ds[1..], base);
  }
}
