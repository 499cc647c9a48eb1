/**
 Splitting a block reward over a window of shares.  Amounts are `u128` and every operation that can leave that
 range wraps, as it does in a release build, so the results below hold for every reward and every window.
 */
module Pplns {
  import opened Prelude
  import opened Positional
  import opened TextOrder
  import opened Ledger

  const U64_SIZE: nat := 0x1_0000_0000_0000_0000

  type U64 = n: nat | n < U64_SIZE
  type FeeBps = n: nat | n < 0x1_0000

  datatype ShareWeight = ShareWeight(miner: string, difficulty: U64)

  /** A slice of two-word-or-larger records holds fewer than 2^63 of them. */
  type ShareWindow = s: seq<ShareWeight> | |s| < 0x8000_0000_0000_0000

  datatype RewardAllocation = RewardAllocation(miner: string, amount: U128)
  datatype PplnsResult = PplnsResult(reward: U128, fee: U128, minerTotal: U128, allocations: seq<RewardAllocation>)
  datatype AccountingError = InvalidFeeBps | EmptyShareWindow | ZeroShareDifficulty
  datatype Outcome = Ok(value: PplnsResult) | Err(error: AccountingError)

  // ---------------------------------------------------------------- weights

  ghost function Miners(shares: seq<ShareWeight>): set<string> {
    set s | s in shares :: s.miner
  }

  ghost function WeightOf(shares: seq<ShareWeight>, miner: string): nat {
    if shares == [] then 0
    else
      var last := shares[|shares| - 1];
      WeightOf(shares[..|shares| - 1], miner) + (if last.miner == miner then last.difficulty else 0)
  }

  ghost function TotalWeight(shares: seq<ShareWeight>): nat {
    if shares == [] then 0 else TotalWeight(shares[..|shares| - 1]) + shares[|shares| - 1].difficulty
  }

  ghost function Tally(shares: seq<ShareWeight>): map<string, nat> {
    map m | m in Miners(shares) :: WeightOf(shares, m)
  }

  ghost function WeightsOf(shares: seq<ShareWeight>, order: seq<string>): (ws: seq<int>)
    ensures |ws| == |order| && NonNegative(ws)
    ensures forall i :: 0 <= i < |order| ==> ws[i] == WeightOf(shares, order[i])
  {
    seq(|order|, i requires 0 <= i < |order| => WeightOf(shares, order[i]))
  }

  lemma {:induction false} WeightBounds(shares: seq<ShareWeight>, miner: string)
    ensures WeightOf(shares, miner) <= TotalWeight(shares) <= |shares| * (U64_SIZE - 1)
    decreases |shares|
  {
    if shares != [] {
      WeightBounds(shares[..|shares| - 1], miner);
    }
  }

  lemma {:induction false} AbsentMeansZero(shares: seq<ShareWeight>, miner: string)
    requires miner !in Miners(shares)
    ensures WeightOf(shares, miner) == 0
    decreases |shares|
  {
    if shares != [] {
      assert shares[|shares| - 1] in shares;
      AbsentMeansZero(shares[..|shares| - 1], miner);
    }
  }

  lemma {:induction false} OneMoreShare(order: seq<string>, shares: seq<ShareWeight>, s: ShareWeight)
    requires Distinct(order)
    ensures Sum(WeightsOf(shares + [s], order)) == Sum(WeightsOf(shares, order)) + (if s.miner in order then s.difficulty else 0)
    decreases |order|
  {
    if order != [] {
      var init, m := order[..|order| - 1], order[|order| - 1];
      OneMoreShare(init, shares, s);
      assert WeightsOf(shares, order)[..|init|] == WeightsOf(shares, init);
      assert WeightsOf(shares + [s], order)[..|init|] == WeightsOf(shares + [s], init);
      assert (shares + [s])[..|shares|] == shares;
      assert m !in init;
      assert order == init + [m];
    }
  }

  /** Per-miner weights add up to the difficulty of the whole window. */
  lemma {:induction false} WeightsAddUp(order: seq<string>, shares: seq<ShareWeight>)
    requires Distinct(order)
    requires forall s :: s in shares ==> s.miner in order
    ensures Sum(WeightsOf(shares, order)) == TotalWeight(shares)
    decreases |shares|
  {
    if shares == [] {
      NoWeights(order);
    } else {
      var init, s := shares[..|shares| - 1], shares[|shares| - 1];
      assert shares == init + [s];
      WeightsAddUp(order, init);
      OneMoreShare(order, init, s);
    }
  }

  lemma {:induction false} NoWeights(order: seq<string>)
    ensures Sum(WeightsOf([], order)) == 0
    decreases |order|
  {
    if order != [] {
      NoWeights(order[..|order| - 1]);
      assert WeightsOf([], order)[..|order| - 1] == WeightsOf([], order[..|order| - 1]);
    }
  }

  // ---------------------------------------------------------------- the split

  predicate NonNegative(ns: seq<int>) {
    forall i :: 0 <= i < |ns| ==> 0 <= ns[i]
  }

  predicate AreU128(ns: seq<int>) {
    forall i :: 0 <= i < |ns| ==> 0 <= ns[i] < TWO_128
  }

  /** What one miner but the last receives. */
  function Portion(total: U128, weight: nat, window: nat): (amount: U128)
    requires window > 0
    ensures amount * window <= total * weight
  {
    PortionIsAtMost(total * weight, window);
    Wrap(total * weight) / window
  }

  lemma PortionIsAtMost(product: nat, window: nat)
    requires window > 0
    ensures Wrap(product) / window * window <= product && Wrap(product) / window < TWO_128
  {
    assert Wrap(product) <= product;
    assert Wrap(product) / window * window <= Wrap(product);
    MulMonotone(1, window, Wrap(product) / window);
  }

  function Portions(total: U128, ws: seq<int>, window: nat): (amounts: seq<int>)
    requires window > 0 && NonNegative(ws)
    ensures |amounts| == |ws| && NonNegative(amounts)
    ensures forall i :: 0 <= i < |ws| ==> amounts[i] == Portion(total, ws[i], window)
  {
    seq(|ws|, i requires 0 <= i < |ws| => Portion(total, ws[i], window))
  }

  lemma {:induction false} PortionsAreAtMost(total: U128, ws: seq<int>, window: nat)
    requires window > 0 && NonNegative(ws)
    ensures Sum(Portions(total, ws, window)) * window <= total * Sum(ws)
    decreases |ws|
  {
    if ws != [] {
      var init, w := ws[..|ws| - 1], ws[|ws| - 1];
      PortionsAreAtMost(total, init, window);
      var paid, p := Sum(Portions(total, init, window)), Portion(total, w, window);
      assert Portions(total, ws, window)[..|init|] == Portions(total, init, window);
      AddProducts(paid, p, window, total, Sum(init), w);
    }
  }

  lemma AddProducts(a: int, b: int, window: int, total: int, v: int, w: int)
    requires a * window <= total * v && b * window <= total * w
    ensures (a + b) * window <= total * (v + w)
  {
  }

  lemma CancelWindow(paid: int, total: int, window: int, part: int)
    requires window > 0 && total >= 0 && part <= window
    requires paid * window <= total * part
    ensures paid <= total
  {
    MulMonotoneInt(part, window, total);
    if paid > total {
      MulMonotoneInt(total + 1, paid, window);
    }
  }

  lemma MulMonotoneInt(a: int, b: int, c: int)
    requires a <= b && c >= 0
    ensures a * c <= b * c
  {
  }

  lemma {:induction false} SumOfNats(ns: seq<int>)
    requires NonNegative(ns)
    ensures Sum(ns) >= 0
    decreases |ns|
  {
    if ns != [] {
      SumOfNats(ns[..|ns| - 1]);
    }
  }

  lemma SumOfPrefix(ns: seq<int>, k: nat)
    requires k <= |ns| && NonNegative(ns)
    ensures 0 <= Sum(ns[..k]) <= Sum(ns)
  {
    assert ns == ns[..k] + ns[k..];
    SumConcat(ns[..k], ns[k..]);
    SumOfNats(ns[..k]);
    SumOfNats(ns[k..]);
  }

  /** However many miners are paid their portion, the total is not exceeded: the running sum never wraps. */
  lemma PortionsFit(total: U128, ws: seq<int>, window: nat, k: nat)
    requires window > 0 && NonNegative(ws) && Sum(ws) <= window && k <= |ws|
    ensures 0 <= Sum(Portions(total, ws[..k], window)) <= total
  {
    SumOfPrefix(ws, k);
    PortionsAreAtMost(total, ws[..k], window);
    CancelWindow(Sum(Portions(total, ws[..k], window)), total, window, Sum(ws[..k]));
    SumOfNats(Portions(total, ws[..k], window));
  }

  /** Every miner but the last is paid a portion, the last gets what is left. */
  ghost function Split(total: U128, ws: seq<int>, window: nat): (amounts: seq<int>)
    requires window > 0 && NonNegative(ws) && Sum(ws) <= window && ws != []
    ensures |amounts| == |ws| && AreU128(amounts)
  {
    var init := ws[..|ws| - 1];
    PortionsFit(total, ws, window, |init|);
    Portions(total, init, window) + [total - Sum(Portions(total, init, window))]
  }

  ghost function Pair(order: seq<string>, amounts: seq<int>): (allocations: seq<RewardAllocation>)
    requires |order| == |amounts| && AreU128(amounts)
    ensures |allocations| == |order|
    ensures forall i :: 0 <= i < |order| ==> allocations[i] == RewardAllocation(order[i], amounts[i])
  {
    seq(|order|, i requires 0 <= i < |order| => RewardAllocation(order[i], amounts[i]))
  }

  lemma SplitAt(total: U128, ws: seq<int>, window: nat, i: nat)
    requires window > 0 && NonNegative(ws) && Sum(ws) <= window && i < |ws|
    ensures 0 <= Sum(Portions(total, ws[..i], window)) <= total
    ensures Split(total, ws, window)[i] ==
              if i < |ws| - 1 then Portion(total, ws[i], window) else total - Sum(Portions(total, ws[..i], window))
  {
    PortionsFit(total, ws, window, i);
  }

  function FeeOf(reward: U128, feeBps: FeeBps): (fee: U128)
    requires feeBps <= 10_000
    ensures fee <= reward
  {
    FeeIsAtMost(reward, feeBps);
    Wrap(reward * feeBps) / 10_000
  }

  lemma FeeIsAtMost(reward: U128, feeBps: FeeBps)
    requires feeBps <= 10_000
    ensures Wrap(reward * feeBps) / 10_000 <= reward
  {
    var product := reward * feeBps;
    FeeProduct(reward, feeBps);
    FractionIsAtMost(product, reward);
  }

  lemma FeeProduct(reward: nat, bps: nat)
    requires bps <= 10_000
    ensures reward * bps <= reward * 10_000
  {
    MulMonotoneInt(bps, 10_000, reward);
  }

  lemma FractionIsAtMost(product: nat, reward: nat)
    requires product <= reward * 10_000
    ensures Wrap(product) / 10_000 <= reward
  {
    TenThousandth(Wrap(product), reward);
  }

  lemma TenThousandth(product: nat, reward: nat)
    requires product <= reward * 10_000
    ensures product / 10_000 <= reward
  {
  }

  ghost function Allocate(reward: U128, feeBps: FeeBps, shares: ShareWindow): Outcome {
    if feeBps > 10_000 then Err(InvalidFeeBps)
    else if shares == [] then Err(EmptyShareWindow)
    else if TotalWeight(shares) == 0 then Err(ZeroShareDifficulty)
    else
      var fee := FeeOf(reward, feeBps);
      Ok(PplnsResult(reward, fee, reward - fee, SplitWindow(reward - fee, shares)))
  }

  ghost function SplitWindow(total: U128, shares: seq<ShareWeight>): seq<RewardAllocation>
    requires TotalWeight(shares) > 0
  {
    var order := InOrder(Miners(shares));
    WindowOrder(shares);
    Pair(order, Split(total, WeightsOf(shares, order), TotalWeight(shares)))
  }

  lemma WindowOrder(shares: seq<ShareWeight>)
    ensures var order := InOrder(Miners(shares));
      && Distinct(order)
      && Sum(WeightsOf(shares, order)) == TotalWeight(shares)
      && (shares != [] ==> order != [])
  {
    var order := InOrder(Miners(shares));
    InOrderIsStrict(Miners(shares));
    WeightsAddUp(order, shares);
    if shares != [] {
      assert shares[0].miner in order;
    }
  }

  // ---------------------------------------------------------------- the program

  lemma WindowFits(shares: ShareWindow)
    ensures TotalWeight(shares) < TWO_127
  {
    WeightBounds(shares, "");
  }

  lemma PrefixMiners(shares: seq<ShareWeight>, i: nat)
    requires i < |shares|
    ensures Miners(shares[..i + 1]) == Miners(shares[..i]) + {shares[i].miner}
  {
    assert forall t :: t in shares[..i + 1] <==> t in shares[..i] || t == shares[i];
  }

  lemma NextWeight(shares: seq<ShareWeight>, i: nat, m: string)
    requires i < |shares|
    ensures WeightOf(shares[..i + 1], m) == WeightOf(shares[..i], m) + (if m == shares[i].miner then shares[i].difficulty else 0)
  {
    assert shares[..i + 1][..i] == shares[..i];
  }

  /** One more share raises its miner's weight, from zero if the miner is new. */
  lemma TallyStep(shares: ShareWindow, i: nat)
    requires i < |shares|
    ensures var s := shares[i]; var before := Tally(shares[..i]);
      var weight := (if s.miner in before then before[s.miner] else 0) + s.difficulty;
      weight < TWO_128 && Tally(shares[..i + 1]) == before[s.miner := weight]
  {
    var s := shares[i];
    PrefixMiners(shares, i);
    forall m
      ensures WeightOf(shares[..i + 1], m) == WeightOf(shares[..i], m) + (if m == s.miner then s.difficulty else 0)
    {
      NextWeight(shares, i, m);
    }
    if s.miner !in Miners(shares[..i]) {
      AbsentMeansZero(shares[..i], s.miner);
    }
    WeightBounds(shares[..i + 1], s.miner);
    WindowFits(shares[..i + 1]);
  }

  /** The weights of the window by miner; the running sums stay far below 2^128. */
  method TallyShares(shares: ShareWindow) returns (weights: map<string, nat>)
    ensures weights == Tally(shares)
  {
    weights := map[];
    for i := 0 to |shares|
      invariant weights == Tally(shares[..i])
    {
      var share := shares[i];
      TallyStep(shares, i);
      var weight := if share.miner in weights then weights[share.miner] else 0;
      weights := weights[share.miner := Wrap(weight + share.difficulty)];
    }
    assert shares[..|shares|] == shares;
  }

  lemma TallyReads(shares: ShareWindow, weights: map<string, nat>, order: seq<string>)
    requires weights == Tally(shares) && order == InOrder(weights.Keys)
    ensures order == InOrder(Miners(shares)) && Reads(weights, order, WeightsOf(shares, order))
    ensures Distinct(order) && (shares != [] ==> order != [])
    ensures Sum(WeightsOf(shares, order)) == TotalWeight(shares) < TWO_128
  {
    assert weights.Keys == Miners(shares);
    WindowOrder(shares);
    WindowFits(shares);
  }

  method AllocatePplns(reward: U128, feeBps: FeeBps, shares: ShareWindow) returns (r: Outcome)
    ensures r == Allocate(reward, feeBps, shares)
  {
    if feeBps > 10_000 {
      return Err(InvalidFeeBps);
    }
    if |shares| == 0 {
      return Err(EmptyShareWindow);
    }
    var weights := TallyShares(shares);
    var order := Ascending(weights.Keys);
    ghost var ws := WeightsOf(shares, order);
    TallyReads(shares, weights, order);
    var window := TotalOver(weights, order, ws);
    if window == 0 {
      return Err(ZeroShareDifficulty);
    }
    var fee := FeeOf(reward, feeBps);
    var minerTotal := Monus(reward, fee);
    var allocations := PayOut(minerTotal, order, weights, window, ws);
    r := Ok(PplnsResult(reward, fee, minerTotal, allocations));
  }

  /** The payment loop: the running sum `paid` tells the last miner, found by its key, what is left. */
  method PayOut(minerTotal: U128, order: seq<string>, weights: map<string, nat>, window: nat, ghost ws: seq<int>)
    returns (allocations: seq<RewardAllocation>)
    requires Distinct(order) && order != [] && Reads(weights, order, ws)
    requires window > 0 && NonNegative(ws) && Sum(ws) <= window
    ensures allocations == Pair(order, Split(minerTotal, ws, window))
  {
    allocations := [];
    var paid: U128 := 0;
    ghost var split := Split(minerTotal, ws, window);
    for i := 0 to |order|
      invariant |allocations| == i
      invariant forall j :: 0 <= j < i ==> allocations[j] == RewardAllocation(order[j], split[j])
      invariant i < |order| ==> paid == Sum(Portions(minerTotal, ws[..i], window))
    {
      var miner := order[i];
      var amount := Portion(minerTotal, weights[miner], window);
      SplitAt(minerTotal, ws, window, i);
      if miner == order[|order| - 1] {
        amount := Monus(minerTotal, paid);
      } else {
        assert i < |order| - 1;
        OneMorePortion(minerTotal, ws, window, i);
      }
      paid := Wrap(paid + amount);
      allocations := allocations + [RewardAllocation(miner, amount)];
    }
  }

  lemma OneMorePortion(total: U128, ws: seq<int>, window: nat, i: nat)
    requires window > 0 && NonNegative(ws) && Sum(ws) <= window && i < |ws|
    ensures Sum(Portions(total, ws[..i + 1], window)) == Sum(Portions(total, ws[..i], window)) + Portion(total, ws[i], window)
    ensures Sum(Portions(total, ws[..i + 1], window)) <= total
  {
    assert Portions(total, ws[..i + 1], window)[..i] == Portions(total, ws[..i], window);
    PortionsFit(total, ws, window, i + 1);
  }

  method TotalOver(weights: map<string, nat>, order: seq<string>, ghost ws: seq<int>) returns (total: U128)
    requires Reads(weights, order, ws) && Sum(ws) < TWO_128
    ensures total == Sum(ws)
  {
    total := 0;
    for i := 0 to |order|
      invariant total == Sum(ws[..i])
    {
      NextSum(ws, i);
      total := Wrap(total + weights[order[i]]);
    }
    assert ws[..|order|] == ws;
  }

  lemma NextSum(ws: seq<int>, i: nat)
    requires i < |ws| && NonNegative(ws)
    ensures 0 <= Sum(ws[..i]) + ws[i] == Sum(ws[..i + 1]) <= Sum(ws)
  {
    assert ws[..i + 1][..i] == ws[..i];
    SumOfPrefix(ws, i + 1);
  }

  /** Looking the ordered keys up in the map reads `ws`. */
  predicate Reads(weights: map<string, nat>, order: seq<string>, ws: seq<int>) {
    |ws| == |order| && NonNegative(ws) && forall i :: 0 <= i < |order| ==> order[i] in weights && weights[order[i]] == ws[i]
  }
}
