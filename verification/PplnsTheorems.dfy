/** What a PPLNS split guarantees: value is conserved, and each miner's pay depends only on its share of the work. */
module PplnsTheorems {
  import opened Prelude
  import opened Positional
  import opened Hex
  import opened TextOrder
  import opened Ledger
  import opened Pplns

  function Amounts(allocations: seq<RewardAllocation>): (amounts: seq<int>)
    ensures |amounts| == |allocations|
    ensures forall i :: 0 <= i < |allocations| ==> amounts[i] == allocations[i].amount
  {
    seq(|allocations|, i requires 0 <= i < |allocations| => allocations[i].amount)
  }

  lemma SplitConserves(total: U128, ws: seq<int>, window: nat)
    requires window > 0 && NonNegative(ws) && Sum(ws) <= window && ws != []
    ensures Sum(Split(total, ws, window)) == total
  {
    var amounts := Split(total, ws, window);
    assert amounts[..|amounts| - 1] == Portions(total, ws[..|ws| - 1], window);
  }

  /** `allocations` lists the miners of the window by name and splits `total` by their weights. */
  ghost predicate IsSplit(
      allocations: seq<RewardAllocation>, total: U128, shares: seq<ShareWeight>, order: seq<string>, ws: seq<int>) {
    && order == InOrder(Miners(shares)) && Distinct(order) && order != []
    && ws == WeightsOf(shares, order) && NonNegative(ws) && Sum(ws) == TotalWeight(shares) > 0
    && |allocations| == |order|
    && (forall i :: 0 <= i < |order| ==> allocations[i].miner == order[i] && ws[i] == WeightOf(shares, order[i]))
    && Amounts(allocations) == Split(total, ws, TotalWeight(shares))
  }

  lemma AllocateSplits(
      reward: U128, feeBps: FeeBps, shares: ShareWindow, r: PplnsResult) returns (order: seq<string>, ws: seq<int>)
    requires Allocate(reward, feeBps, shares) == Ok(r)
    ensures r.reward == reward == r.fee + r.minerTotal && r.fee == FeeOf(reward, feeBps)
    ensures IsSplit(r.allocations, r.minerTotal, shares, order, ws)
  {
    assert r.minerTotal == reward - FeeOf(reward, feeBps);
    assert r.allocations == SplitWindow(r.minerTotal, shares);
    order, ws := WindowSplits(r.minerTotal, shares);
  }

  lemma WindowSplits(total: U128, shares: seq<ShareWeight>) returns (order: seq<string>, ws: seq<int>)
    requires TotalWeight(shares) > 0
    ensures IsSplit(SplitWindow(total, shares), total, shares, order, ws)
  {
    order := InOrder(Miners(shares));
    ws := WeightsOf(shares, order);
    WindowOrder(shares);
    PairAmounts(order, Split(total, ws, TotalWeight(shares)));
  }

  lemma PairAmounts(order: seq<string>, amounts: seq<int>)
    requires |order| == |amounts| && AreU128(amounts)
    ensures Amounts(Pair(order, amounts)) == amounts
  {
  }

  /**
   No base unit is lost or invented, whatever the reward, the fee and the window, and even when products wrap:
   the fee and the allocations add up to the reward, and every miner of the window is listed once, by name.
   */
  lemma ValueIsConserved(reward: U128, feeBps: FeeBps, shares: ShareWindow, r: PplnsResult)
    requires Allocate(reward, feeBps, shares) == Ok(r)
    ensures r.reward == reward == r.fee + Sum(Amounts(r.allocations))
    ensures r.minerTotal == Sum(Amounts(r.allocations))
    ensures forall i :: 0 <= i < |r.allocations| ==> r.allocations[i].miner in Miners(shares)
    ensures forall m :: m in Miners(shares) ==> exists i :: 0 <= i < |r.allocations| && r.allocations[i].miner == m
    ensures forall i, j :: 0 <= i < j < |r.allocations| ==>
      r.allocations[i].miner != r.allocations[j].miner && TextLeq(r.allocations[i].miner, r.allocations[j].miner)
  {
    var order, ws := AllocateSplits(reward, feeBps, shares, r);
    SplitConserves(r.minerTotal, ws, TotalWeight(shares));
    EveryMinerIsListed(shares, order, r);
    InOrderIsStrict(Miners(shares));
  }

  lemma EveryMinerIsListed(shares: seq<ShareWeight>, order: seq<string>, r: PplnsResult)
    requires order == InOrder(Miners(shares)) && |r.allocations| == |order|
    requires forall i :: 0 <= i < |order| ==> r.allocations[i].miner == order[i]
    ensures forall i :: 0 <= i < |r.allocations| ==> r.allocations[i].miner in Miners(shares)
    ensures forall m :: m in Miners(shares) ==> exists i :: 0 <= i < |r.allocations| && r.allocations[i].miner == m
  {
    forall m | m in Miners(shares)
      ensures exists i :: 0 <= i < |r.allocations| && r.allocations[i].miner == m
    {
      assert m in order;
      var i :| 0 <= i < |order| && order[i] == m;
      assert r.allocations[i].miner == m;
    }
  }

  /** An allocation is refused exactly for a fee above 100%, an empty window, or a window without work, in this order. */
  lemma RefusedIff(reward: U128, feeBps: FeeBps, shares: ShareWindow)
    ensures Allocate(reward, feeBps, shares) == Err(InvalidFeeBps) <==> feeBps > 10_000
    ensures Allocate(reward, feeBps, shares) == Err(EmptyShareWindow) <==> feeBps <= 10_000 && |shares| == 0
    ensures (Allocate(reward, feeBps, shares) == Err(ZeroShareDifficulty)) <==>
            (feeBps <= 10_000 && |shares| > 0 && forall s :: s in shares ==> s.difficulty == 0)
  {
    NoWorkIff(shares);
  }

  lemma {:induction false} NoWorkIff(shares: seq<ShareWeight>)
    ensures TotalWeight(shares) == 0 <==> forall s :: s in shares ==> s.difficulty == 0
    decreases |shares|
  {
    if shares != [] {
      var init := shares[..|shares| - 1];
      NoWorkIff(init);
      assert shares == init + [shares[|shares| - 1]];
    }
  }

  // ---------------------------------------------------------------- how much each miner gets

  lemma WrapLosesAWindow(product: nat, window: nat)
    requires 0 < window < TWO_127
    ensures Wrap(product) / window == product / window <==> product < TWO_128
  {
    if product >= TWO_128 {
      assert Wrap(product) + TWO_128 <= product by {
        LowPart(product, TWO_128);
      }
      QuotientGap(Wrap(product), product, window);
    }
  }

  lemma LowPart(n: nat, size: nat)
    requires 0 < size <= n
    ensures n % size + size <= n
  {
    assert n == n / size * size + n % size;
    MulMonotone(1, n / size, size);
  }

  lemma QuotientGap(a: nat, b: nat, window: nat)
    requires window > 0 && a + window <= b
    ensures a / window < b / window
  {
    var q := a / window;
    assert q * window <= a;
    assert (q + 1) * window <= b;
    if b / window < q + 1 {
      MulMonotone(b / window + 1, q + 1, window);
    }
  }

  /**
   A miner other than the last is paid exactly the whole part of its proportional share just when
   `miner_total * weight` fits in 128 bits.
   */
  lemma PortionIsExactIff(reward: U128, feeBps: FeeBps, shares: ShareWindow, r: PplnsResult, i: nat)
    requires Allocate(reward, feeBps, shares) == Ok(r) && i + 1 < |r.allocations| && TotalWeight(shares) > 0
    ensures var weight := WeightOf(shares, r.allocations[i].miner);
      (r.allocations[i].amount == r.minerTotal * weight / TotalWeight(shares)) <==> (r.minerTotal * weight < TWO_128)
  {
    var order, ws := AllocateSplits(reward, feeBps, shares, r);
    WindowFits(shares);
    SplitAt(r.minerTotal, ws, TotalWeight(shares), i);
    assert r.allocations[i].amount == Amounts(r.allocations)[i] == Portion(r.minerTotal, ws[i], TotalWeight(shares));
    WrapLosesAWindow(r.minerTotal * ws[i], TotalWeight(shares));
  }

  /** `amount` is the whole part of the low 128 bits of a product, divided by `d`. */
  predicate PaysLowBits(amount: U128, product: nat, d: nat) {
    amount * d <= product % TWO_128 < (amount + 1) * d
  }

  /** When it does not fit, the miner is paid for the low 128 bits of the product, and so is the pool for its fee. */
  lemma LowBitsArePaid(reward: U128, feeBps: FeeBps, shares: ShareWindow, r: PplnsResult, i: nat)
    requires Allocate(reward, feeBps, shares) == Ok(r) && i + 1 < |r.allocations|
    ensures PaysLowBits(r.allocations[i].amount, r.minerTotal * WeightOf(shares, r.allocations[i].miner), TotalWeight(shares))
    ensures PaysLowBits(r.fee, reward * feeBps, 10_000)
  {
    var order, ws := AllocateSplits(reward, feeBps, shares, r);
    SplitAt(r.minerTotal, ws, TotalWeight(shares), i);
    assert r.allocations[i].amount == Amounts(r.allocations)[i] == Portion(r.minerTotal, ws[i], TotalWeight(shares));
    PortionPays(r.minerTotal, ws[i], TotalWeight(shares));
    FeePays(reward, feeBps);
  }

  lemma PortionPays(total: U128, w: nat, window: nat)
    requires window > 0
    ensures PaysLowBits(Portion(total, w, window), total * w, window)
  {
    FloorAround(total * w % TWO_128, window);
  }

  lemma FeePays(reward: U128, feeBps: FeeBps)
    requires feeBps <= 10_000
    ensures PaysLowBits(FeeOf(reward, feeBps), reward * feeBps, 10_000)
  {
    FloorAround(reward * feeBps % TWO_128, 10_000);
  }

  lemma FloorAround(n: nat, d: nat)
    requires d > 0
    ensures n / d * d <= n < (n / d + 1) * d
  {
    assert (n / d + 1) * d == n / d * d + d;
  }

  /** The fee is the stated fraction of the reward, rounded down, just when `reward * fee_bps` fits in 128 bits. */
  lemma FeeIsExactIff(reward: U128, feeBps: FeeBps)
    requires feeBps <= 10_000
    ensures (FeeOf(reward, feeBps) == reward * feeBps / 10_000) <==> (reward * feeBps < TWO_128)
  {
    WrapLosesAWindow(reward * feeBps, 10_000);
  }

  /** How far the portions can fall short: less than one unit per miner. */
  lemma {:induction false} ShortfallIsSmall(total: U128, ws: seq<int>, window: nat)
    requires window > 0 && NonNegative(ws) && forall i :: 0 <= i < |ws| ==> total * ws[i] < TWO_128
    ensures total * Sum(ws) <= window * Sum(Portions(total, ws, window)) + |ws| * (window - 1)
    decreases |ws|
  {
    if ws != [] {
      var init, w := ws[..|ws| - 1], ws[|ws| - 1];
      ShortfallIsSmall(total, init, window);
      assert Portions(total, ws, window)[..|init|] == Portions(total, init, window);
      RoundingLoss(total * w, window);
      AddShortfalls(total, Sum(init), w, window, Sum(Portions(total, init, window)), Portion(total, w, window), |init|);
    }
  }

  lemma RoundingLoss(product: nat, window: nat)
    requires window > 0
    ensures product <= window * (product / window) + (window - 1)
  {
  }

  lemma AddShortfalls(total: int, v: int, w: int, window: int, a: int, b: int, n: int)
    requires total * v <= window * a + n * (window - 1) && total * w <= window * b + (window - 1)
    ensures total * (v + w) <= window * (a + b) + (n + 1) * (window - 1)
  {
  }

  lemma LastBounds(total: nat, paid: nat, part: nat, last: nat, window: nat, others: nat)
    requires window > 0 && part + last == window && paid <= total
    requires window * paid <= total * part
    ensures total * last / window <= total - paid
    ensures total * part <= window * paid + others * (window - 1) ==> total - paid <= total * last / window + others
  {
    var rest := total - paid;
    assert window * rest == total * window - window * paid;
    assert total * window == total * part + total * last;
    assert window * rest >= total * last;
    var q := total * last / window;
    FloorIsLeast(total * last, window, rest);
    if total * part <= window * paid + others * (window - 1) {
      RoundingLoss(total * last, window);
      assert window * rest <= window * q + (window - 1) + others * (window - 1);
      Spread(window, rest, q, others);
    }
  }

  lemma FloorIsLeast(product: nat, window: nat, rest: nat)
    requires window > 0 && window * rest >= product
    ensures product / window <= rest
  {
    if rest < product / window {
      MulMonotone(rest + 1, product / window, window);
    }
  }

  lemma Spread(window: nat, rest: nat, q: nat, others: nat)
    requires window > 0 && window * rest <= window * q + (others + 1) * (window - 1)
    ensures rest <= q + others
  {
    assert (others + 1) * (window - 1) < (others + 1) * window;
    assert window * (q + others + 1) == window * q + window * (others + 1);
    if rest >= q + others + 1 {
      MulMonotone(q + others + 1, rest, window);
    }
  }

  /**
   The miner with the greatest key takes the rounding dust: never less than the whole part of its share, and, when
   no other miner's product exceeds 128 bits, at most one unit more per other miner.
   */
  lemma LastMinerTakesTheDust(reward: U128, feeBps: FeeBps, shares: ShareWindow, r: PplnsResult)
    requires Allocate(reward, feeBps, shares) == Ok(r) && TotalWeight(shares) > 0
    ensures |r.allocations| > 0
    ensures var n := |r.allocations|; var last := r.allocations[n - 1];
      var share := r.minerTotal * WeightOf(shares, last.miner) / TotalWeight(shares);
      && share <= last.amount
      && ((forall i :: 0 <= i < n - 1 ==> r.minerTotal * WeightOf(shares, r.allocations[i].miner) < TWO_128) ==>
           last.amount <= share + n - 1)
  {
    var order, ws := AllocateSplits(reward, feeBps, shares, r);
    var n := |order|;
    LastOfSplit(r.minerTotal, ws, TotalWeight(shares));
    assert r.allocations[n - 1].amount == Amounts(r.allocations)[n - 1];
    if forall i :: 0 <= i < n - 1 ==> r.minerTotal * WeightOf(shares, r.allocations[i].miner) < TWO_128 {
      forall i | 0 <= i < n - 1
        ensures r.minerTotal * ws[i] < TWO_128
      {
        assert r.minerTotal * WeightOf(shares, r.allocations[i].miner) < TWO_128;
      }
    }
  }

  lemma LastOfSplit(total: U128, ws: seq<int>, window: nat)
    requires ws != [] && window > 0 && NonNegative(ws) && Sum(ws) == window
    ensures var n := |ws|; var amount := Split(total, ws, window)[n - 1];
      && total * ws[n - 1] / window <= amount
      && ((forall i :: 0 <= i < n - 1 ==> total * ws[i] < TWO_128) ==> amount <= total * ws[n - 1] / window + n - 1)
  {
    var n := |ws|;
    var init, last := ws[..n - 1], ws[n - 1];
    var paid := Sum(Portions(total, init, window));
    SplitAt(total, ws, window, n - 1);
    SumOfNats(init);
    PortionsAreAtMost(total, init, window);
    if forall i :: 0 <= i < n - 1 ==> total * ws[i] < TWO_128 {
      ShortfallIsSmall(total, init, window);
      assert total * Sum(init) <= window * paid + (n - 1) * (window - 1);
    }
    assert window * paid == paid * window;
    LastBounds(total, paid, Sum(init), last, window, n - 1);
  }

  // ---------------------------------------------------------------- pay without work

  /** The proportional share of this weight is a whole number of base units, and its product fits. */
  predicate DividesEvenly(total: U128, w: int, window: nat)
    requires window > 0
  {
    total * w < TWO_128 && total * w % window == 0
  }

  lemma WholePortionIff(product: nat, window: nat)
    requires window > 0
    ensures (Wrap(product) / window * window == product) <==> (product < TWO_128 && product % window == 0)
  {
    var low := Wrap(product);
    assert low / window * window == low - low % window;
  }

  lemma SumsMeetIff(a: int, b: int, window: int, total: int, v: int, w: int)
    requires a * window <= total * v && b * window <= total * w
    ensures ((a + b) * window == total * (v + w)) <==> (a * window == total * v && b * window == total * w)
  {
    assert (a + b) * window == a * window + b * window;
    assert total * (v + w) == total * v + total * w;
  }

  /** Nothing is left over from the portions exactly when every one of them comes out even. */
  lemma {:induction false} NoDustIff(total: U128, ws: seq<int>, window: nat)
    requires window > 0 && NonNegative(ws)
    ensures (Sum(Portions(total, ws, window)) * window == total * Sum(ws)) <==>
            (forall i :: 0 <= i < |ws| ==> DividesEvenly(total, ws[i], window))
    decreases |ws|
  {
    if ws != [] {
      var init, w := ws[..|ws| - 1], ws[|ws| - 1];
      NoDustIff(total, init, window);
      PortionsAreAtMost(total, init, window);
      assert Portions(total, ws, window)[..|init|] == Portions(total, init, window);
      SumsMeetIff(Sum(Portions(total, init, window)), Portion(total, w, window), window, total, Sum(init), w);
      WholePortionIff(total * w, window);
      assert forall i :: 0 <= i < |init| ==> init[i] == ws[i];
    }
  }

  lemma NothingLeftIff(total: nat, paid: nat, window: nat)
    requires window > 0
    ensures paid * window == total * window <==> total - paid == 0
  {
    if paid < total {
      MulMonotoneInt(paid + 1, total, window);
    } else if paid > total {
      MulMonotoneInt(total + 1, paid, window);
    }
  }

  lemma NoWorkInSplit(total: U128, ws: seq<int>, window: nat, i: nat)
    requires i < |ws| && window > 0 && NonNegative(ws) && Sum(ws) == window && ws[i] == 0
    ensures Split(total, ws, window)[i] > 0 <==>
              i == |ws| - 1 && exists j :: 0 <= j < |ws| - 1 && !DividesEvenly(total, ws[j], window)
  {
    SplitAt(total, ws, window, i);
    if i == |ws| - 1 {
      var init := ws[..i];
      assert Sum(ws) == Sum(init);
      NoDustIff(total, init, window);
      NothingLeftIff(total, Sum(Portions(total, init, window)), window);
      assert forall j :: 0 <= j < i ==> init[j] == ws[j];
    }
  }

  /**
   A miner without any work is paid exactly when it comes last by name and the proportional share of some other
   miner is no whole number of base units, or its product does not fit in 128 bits.
   */
  lemma NoWorkIsPaidIff(reward: U128, feeBps: FeeBps, shares: ShareWindow, r: PplnsResult, i: nat)
    requires Allocate(reward, feeBps, shares) == Ok(r)
    requires i < |r.allocations| && WeightOf(shares, r.allocations[i].miner) == 0
    ensures TotalWeight(shares) > 0
    ensures r.allocations[i].amount > 0 <==>
              && i == |r.allocations| - 1
              && exists j :: 0 <= j < i
                   && !DividesEvenly(r.minerTotal, WeightOf(shares, r.allocations[j].miner), TotalWeight(shares))
  {
    var order, ws := AllocateSplits(reward, feeBps, shares, r);
    NoWorkInSplit(r.minerTotal, ws, TotalWeight(shares), i);
    assert r.allocations[i].amount == Amounts(r.allocations)[i];
    forall j | 0 <= j < |ws|
      ensures ws[j] == WeightOf(shares, r.allocations[j].miner)
    {
    }
  }

  /** Such a window: here "z" gets the one unit that "a" and "b" cannot split. */
  lemma DustCanGoToNoWork(reward: U128, feeBps: FeeBps, shares: ShareWindow, r: PplnsResult)
    requires reward == 3 && feeBps == 0
    requires shares == [ShareWeight("a", 1), ShareWeight("b", 1), ShareWeight("z", 0)]
    requires Allocate(reward, feeBps, shares) == Ok(r)
    ensures r.allocations == [RewardAllocation("a", 1), RewardAllocation("b", 1), RewardAllocation("z", 1)]
    ensures WeightOf(shares, "z") == 0
  {
    var order, ws := AllocateSplits(reward, feeBps, shares, r);
    ThreeSplit(r.allocations, r.minerTotal, shares, order, ws);
    ThreeWeights(shares);
  }

  lemma ThreeSplit(
      allocations: seq<RewardAllocation>, total: U128, shares: seq<ShareWeight>, order: seq<string>, ws: seq<int>)
    requires total == 3
    requires shares == [ShareWeight("a", 1), ShareWeight("b", 1), ShareWeight("z", 0)]
    requires IsSplit(allocations, total, shares, order, ws)
    ensures allocations == [RewardAllocation("a", 1), RewardAllocation("b", 1), RewardAllocation("z", 1)]
  {
    ThreeMiners(Miners(shares), shares);
    ThreeWeights(shares);
    ThreePaid(allocations, total, shares, order, ws);
  }

  lemma ThreePaid(
      allocations: seq<RewardAllocation>, total: U128, shares: seq<ShareWeight>, order: seq<string>, ws: seq<int>)
    requires total == 3 && IsSplit(allocations, total, shares, order, ws) && order == ["a", "b", "z"]
    requires WeightOf(shares, "a") == 1 && WeightOf(shares, "b") == 1 && WeightOf(shares, "z") == 0
    requires TotalWeight(shares) == 2
    ensures allocations == [RewardAllocation("a", 1), RewardAllocation("b", 1), RewardAllocation("z", 1)]
  {
    assert ws == [1, 1, 0];
    ThreeAmounts(ws);
    assert forall i :: 0 <= i < 3 ==> allocations[i].amount == Amounts(allocations)[i];
  }

  lemma ThreeWeights(shares: seq<ShareWeight>)
    requires shares == [ShareWeight("a", 1), ShareWeight("b", 1), ShareWeight("z", 0)]
    ensures WeightOf(shares, "a") == 1 && WeightOf(shares, "b") == 1 && WeightOf(shares, "z") == 0
    ensures TotalWeight(shares) == 2
  {
    var one, two := [ShareWeight("a", 1)], [ShareWeight("a", 1), ShareWeight("b", 1)];
    assert one[..0] == [] && two[..1] == one && shares[..2] == two;
    assert WeightOf(one, "a") == 1 && WeightOf(one, "b") == 0 && WeightOf(one, "z") == 0 && TotalWeight(one) == 1;
    assert WeightOf(two, "a") == 1 && WeightOf(two, "b") == 1 && WeightOf(two, "z") == 0 && TotalWeight(two) == 2;
  }

  lemma ThreeAmounts(ws: seq<int>)
    requires ws == [1, 1, 0]
    ensures Sum(ws) == 2 && Split(3, ws, 2) == [1, 1, 1]
  {
    assert ws[..2] == [1, 1] && [1, 1][..1] == [1] && [1][..0] == [];
    assert Sum([1]) == 1 && Sum([1, 1]) == 2 && Sum(ws) == 2;
    assert Portion(3, 1, 2) == 1;
    assert Portions(3, [1, 1], 2) == [1, 1];
  }

  lemma ThreeMiners(miners: set<string>, shares: seq<ShareWeight>)
    requires shares == [ShareWeight("a", 1), ShareWeight("b", 1), ShareWeight("z", 0)] && miners == Miners(shares)
    ensures InOrder(miners) == ["a", "b", "z"]
  {
    ThreeNames(shares);
    ThreeInOrder();
  }

  lemma ThreeInOrder()
    ensures InOrder({"a", "b", "z"}) == ["a", "b", "z"]
  {
    ThreeLetters();
    LeastIsUnique({"a", "b", "z"}, "a");
    assert {"a", "b", "z"} - {"a"} == {"b", "z"};
    TwoInOrder();
  }

  lemma TwoInOrder()
    ensures InOrder({"b", "z"}) == ["b", "z"]
  {
    ThreeLetters();
    LeastIsUnique({"b", "z"}, "b");
    assert {"b", "z"} - {"b"} == {"z"};
    LeastIsUnique({"z"}, "z");
    assert {"z"} - {"z"} == {};
  }

  lemma ThreeNames(shares: seq<ShareWeight>)
    requires shares == [ShareWeight("a", 1), ShareWeight("b", 1), ShareWeight("z", 0)]
    ensures Miners(shares) == {"a", "b", "z"}
  {
    assert shares[0] in shares && shares[1] in shares && shares[2] in shares;
    assert shares[0].miner == "a" && shares[1].miner == "b" && shares[2].miner == "z";
  }

  lemma ThreeLetters()
    ensures IsLeast("a", {"a", "b", "z"}) && IsLeast("b", {"b", "z"}) && IsLeast("z", {"z"})
  {
    assert Codes("a") == [97] && Codes("b") == [98] && Codes("z") == [122];
    assert TextLeq("a", "b") && TextLeq("b", "z") && TextLeq("a", "z");
    TextOrdered("a", "a", "a");
    TextOrdered("b", "b", "b");
    TextOrdered("z", "z", "z");
  }

  // ---------------------------------------------------------------- what pay depends on

  /** Both windows contain the same miners, each with the same total difficulty. */
  ghost predicate SameWork(a: seq<ShareWeight>, b: seq<ShareWeight>) {
    Miners(a) == Miners(b) && forall m :: WeightOf(a, m) == WeightOf(b, m)
  }

  /** Pay depends only on the total difficulty of each miner. */
  lemma PayDependsOnWorkOnly(reward: U128, feeBps: FeeBps, a: ShareWindow, b: ShareWindow)
    requires SameWork(a, b)
    ensures Allocate(reward, feeBps, a) == Allocate(reward, feeBps, b)
  {
    var order := InOrder(Miners(a));
    assert WeightsOf(a, order) == WeightsOf(b, order);
    assert TotalWeight(a) == TotalWeight(b) by {
      WindowOrder(a);
      WindowOrder(b);
    }
    assert a == [] <==> b == [] by {
      EmptyIffNoMiners(a);
      EmptyIffNoMiners(b);
    }
  }

  lemma EmptyIffNoMiners(shares: seq<ShareWeight>)
    ensures shares == [] <==> Miners(shares) == {}
  {
    if shares != [] {
      assert shares[0].miner in Miners(shares);
    }
  }

  lemma {:induction false} WeightConcat(a: seq<ShareWeight>, b: seq<ShareWeight>, m: string)
    ensures WeightOf(a + b, m) == WeightOf(a, m) + WeightOf(b, m)
    decreases |b|
  {
    if b == [] {
      assert a + b == a;
    } else {
      assert (a + b)[..|a + b| - 1] == a + b[..|b| - 1];
      WeightConcat(a, b[..|b| - 1], m);
    }
  }

  lemma {:induction false} WeightOfPermutation(a: seq<ShareWeight>, b: seq<ShareWeight>, m: string)
    requires multiset(a) == multiset(b)
    ensures WeightOf(a, m) == WeightOf(b, m)
    decreases |a|
  {
    assert |a| == |multiset(a)| == |multiset(b)| == |b|;
    if a != [] {
      var last := a[|a| - 1];
      assert last in multiset(b);
      var j :| 0 <= j < |b| && b[j] == last;
      var init, rest := a[..|a| - 1], b[..j] + b[j + 1..];
      RemoveOne(a, b, j);
      WeightOfPermutation(init, rest, m);
      WeightConcat(b[..j] + [last], b[j + 1..], m);
      WeightConcat(b[..j], [last], m);
      WeightConcat(b[..j], b[j + 1..], m);
      WeightConcat(init, [last], m);
    }
  }

  /** The order in which shares arrived makes no difference. */
  lemma ShareOrderIsIrrelevant(reward: U128, feeBps: FeeBps, a: ShareWindow, b: ShareWindow)
    requires multiset(a) == multiset(b)
    ensures Allocate(reward, feeBps, a) == Allocate(reward, feeBps, b)
  {
    forall m
      ensures WeightOf(a, m) == WeightOf(b, m)
    {
      WeightOfPermutation(a, b, m);
    }
    assert forall s :: s in a <==> s in multiset(a);
    assert forall s :: s in b <==> s in multiset(b);
    PayDependsOnWorkOnly(reward, feeBps, a, b);
  }

  /** Reporting one share as two of the same total difficulty makes no difference. */
  lemma SplittingAShareIsIrrelevant(
      reward: U128, feeBps: FeeBps, before: seq<ShareWeight>, after: seq<ShareWeight>, miner: string, d: U64, e: U64)
    requires d + e < U64_SIZE && |before| + |after| + 2 < 0x8000_0000_0000_0000
    ensures Allocate(reward, feeBps, before + [ShareWeight(miner, d + e)] + after)
         == Allocate(reward, feeBps, before + [ShareWeight(miner, d), ShareWeight(miner, e)] + after)
  {
    var one, two := [ShareWeight(miner, d + e)], [ShareWeight(miner, d), ShareWeight(miner, e)];
    var a, b := before + one + after, before + two + after;
    forall m
      ensures WeightOf(a, m) == WeightOf(b, m)
    {
      WeightConcat(before + one, after, m);
      WeightConcat(before + two, after, m);
      WeightConcat(before, one, m);
      WeightConcat(before, two, m);
      assert two[..1] == [ShareWeight(miner, d)];
    }
    assert Miners(a) == Miners(before) + {miner} + Miners(after);
    assert Miners(b) == Miners(before) + {miner} + Miners(after) by {
      assert b[|before|] == ShareWeight(miner, d);
    }
    PayDependsOnWorkOnly(reward, feeBps, a, b);
  }

  // ---------------------------------------------------------------- ledger

  function RewardEntry(blockRef: string, a: RewardAllocation): LedgerEntry {
    LedgerEntry(Some(a.miner), AsSigned(a.amount), RewardImmature, "block", blockRef)
  }

  function FeeEntry(blockRef: string, fee: U128): LedgerEntry {
    LedgerEntry(None, AsSigned(fee), PoolFee, "block", blockRef)
  }

  function AllocationEntries(blockRef: string, allocations: seq<RewardAllocation>): (entries: seq<LedgerEntry>)
    ensures |entries| == |allocations|
  {
    seq(|allocations|, i requires 0 <= i < |allocations| => RewardEntry(blockRef, allocations[i]))
  }

  /** The entries a found block adds: one per allocation, and one for a fee that is not zero. */
  function RewardLedgerEntries(blockRef: string, r: PplnsResult): seq<LedgerEntry> {
    AllocationEntries(blockRef, r.allocations)
    + if r.fee > 0 then [FeeEntry(blockRef, r.fee)] else []
  }

  /** How many amounts do not fit in the signed type. */
  function Oversized(r: PplnsResult): nat {
    CountAbove(Amounts(r.allocations), TWO_127 - 1) + (if r.fee >= TWO_127 then 1 else 0)
  }

  lemma {:induction false} AllocationsPosted(blockRef: string, allocations: seq<RewardAllocation>)
    ensures Posted(AllocationEntries(blockRef, allocations)) == Sum(Amounts(allocations)) - TWO_128 * CountAbove(Amounts(allocations), TWO_127 - 1)
    decreases |allocations|
  {
    if allocations != [] {
      var init, last := allocations[..|allocations| - 1], allocations[|allocations| - 1];
      AllocationsPosted(blockRef, init);
      assert Amounts(allocations)[..|init|] == Amounts(init);
      assert AllocationEntries(blockRef, allocations) == AllocationEntries(blockRef, init) + [RewardEntry(blockRef, last)];
      PostedAppend(AllocationEntries(blockRef, init), RewardEntry(blockRef, last));
    }
  }

  /** Reading 128 bits as signed moves an amount of 2^127 or more down by 2^128, and nothing else happens. */
  lemma RewardPosted(blockRef: string, r: PplnsResult)
    ensures Posted(RewardLedgerEntries(blockRef, r)) == Sum(Amounts(r.allocations)) + r.fee - TWO_128 * Oversized(r)
  {
    AllocationsPosted(blockRef, r.allocations);
    var entries := AllocationEntries(blockRef, r.allocations);
    if r.fee > 0 {
      PostedAppend(entries, FeeEntry(blockRef, r.fee));
    } else {
      assert entries + [] == entries;
    }
  }

  /** An amount as the signed column stores it. */
  function Stored(amount: U128): int {
    amount - if amount >= TWO_127 then TWO_128 else 0
  }

  lemma {:induction false} PostedToMiner(blockRef: string, allocations: seq<RewardAllocation>, i: nat)
    requires i < |allocations| && forall j, k :: 0 <= j < k < |allocations| ==> allocations[j].miner != allocations[k].miner
    ensures PostedTo(AllocationEntries(blockRef, allocations), Some(allocations[i].miner), RewardImmature)
         == Stored(allocations[i].amount)
    decreases |allocations|
  {
    var init, last := allocations[..|allocations| - 1], allocations[|allocations| - 1];
    var entries := AllocationEntries(blockRef, init);
    assert AllocationEntries(blockRef, allocations) == entries + [RewardEntry(blockRef, last)];
    PostedToAppend(entries, RewardEntry(blockRef, last), Some(allocations[i].miner), RewardImmature);
    if i < |init| {
      PostedToMiner(blockRef, init, i);
    } else {
      PostedToNobody(blockRef, init, Some(last.miner), RewardImmature);
    }
  }

  lemma {:induction false} PostedToNobody(
      blockRef: string, allocations: seq<RewardAllocation>, who: Option<string>, kind: LedgerKind)
    requires kind == RewardImmature ==> forall j :: 0 <= j < |allocations| ==> Some(allocations[j].miner) != who
    ensures PostedTo(AllocationEntries(blockRef, allocations), who, kind) == 0
    decreases |allocations|
  {
    if allocations != [] {
      var init, last := allocations[..|allocations| - 1], allocations[|allocations| - 1];
      PostedToNobody(blockRef, init, who, kind);
      assert AllocationEntries(blockRef, allocations) == AllocationEntries(blockRef, init) + [RewardEntry(blockRef, last)];
      PostedToAppend(AllocationEntries(blockRef, init), RewardEntry(blockRef, last), who, kind);
    }
  }

  lemma PostedWithFee(blockRef: string, r: PplnsResult, who: Option<string>, kind: LedgerKind)
    ensures PostedTo(RewardLedgerEntries(blockRef, r), who, kind)
         == PostedTo(AllocationEntries(blockRef, r.allocations), who, kind)
            + if who.None? && kind == PoolFee then Stored(r.fee) else 0
  {
    var given := AllocationEntries(blockRef, r.allocations);
    PostedToAppend(given, FeeEntry(blockRef, r.fee), who, kind);
    assert given + [] == given;
  }

  /**
   The entries of an allocated block give every miner of the window its own amount as an immature reward, and the pool
   its fee, as a signed column stores them.
   */
  lemma RewardsReachTheirMiners(
      reward: U128, feeBps: FeeBps, shares: ShareWindow, r: PplnsResult, blockRef: string, i: nat)
    requires Allocate(reward, feeBps, shares) == Ok(r)
    ensures var entries := RewardLedgerEntries(blockRef, r);
      && (i < |r.allocations| ==>
            PostedTo(entries, Some(r.allocations[i].miner), RewardImmature) == Stored(r.allocations[i].amount))
      && PostedTo(entries, None, PoolFee) == Stored(r.fee)
  {
    ValueIsConserved(reward, feeBps, shares, r);
    PostedWithFee(blockRef, r, None, PoolFee);
    PostedToNobody(blockRef, r.allocations, None, PoolFee);
    if i < |r.allocations| {
      PostedToMiner(blockRef, r.allocations, i);
      PostedWithFee(blockRef, r, Some(r.allocations[i].miner), RewardImmature);
    }
  }

  /** They give nothing to anybody else or under any other kind, and all refer to the block. */
  lemma RewardsReachNobodyElse(
      reward: U128, feeBps: FeeBps, shares: ShareWindow, r: PplnsResult, blockRef: string, who: Option<string>, kind: LedgerKind)
    requires Allocate(reward, feeBps, shares) == Ok(r)
    ensures PostedTo(RewardLedgerEntries(blockRef, r), who, kind) != 0 ==>
              (kind == RewardImmature && who.Some? && who.value in Miners(shares)) || (kind == PoolFee && who.None?)
    ensures forall e :: e in RewardLedgerEntries(blockRef, r) ==> e.refType == "block" && e.refId == blockRef
  {
    OnlyMinersAreListed(reward, feeBps, shares, r);
    EntriesRefer(blockRef, r);
    PostedWithFee(blockRef, r, who, kind);
    if kind != RewardImmature || who.None? || who.value !in Miners(shares) {
      PostedToNobody(blockRef, r.allocations, who, kind);
    }
  }

  lemma OnlyMinersAreListed(reward: U128, feeBps: FeeBps, shares: ShareWindow, r: PplnsResult)
    requires Allocate(reward, feeBps, shares) == Ok(r)
    ensures forall i :: 0 <= i < |r.allocations| ==> r.allocations[i].miner in Miners(shares)
  {
    ValueIsConserved(reward, feeBps, shares, r);
  }

  lemma EntriesRefer(blockRef: string, r: PplnsResult)
    ensures forall e :: e in RewardLedgerEntries(blockRef, r) ==> e.refType == "block" && e.refId == blockRef
  {
  }

  /** The ledger gains exactly the reward of an allocated block just when no single amount reaches 2^127. */
  lemma LedgerGainsTheRewardIff(reward: U128, feeBps: FeeBps, shares: ShareWindow, r: PplnsResult, blockRef: string)
    requires Allocate(reward, feeBps, shares) == Ok(r)
    ensures (Posted(RewardLedgerEntries(blockRef, r)) == reward) <==>
            (r.fee < TWO_127 && forall i :: 0 <= i < |r.allocations| ==> r.allocations[i].amount < TWO_127)
  {
    ValueIsConserved(reward, feeBps, shares, r);
    RewardPosted(blockRef, r);
    NoneAbove(Amounts(r.allocations), TWO_127 - 1);
    assert forall i :: 0 <= i < |r.allocations| ==> Amounts(r.allocations)[i] == r.allocations[i].amount;
  }
}
