/** Choosing which balances to pay out, and the ledger entries that lock them. */
module Payouts {
  import opened Prelude
  import opened Positional
  import opened TextOrder
  import opened Ledger

  datatype MinerBalance = MinerBalance(miner: string, address: string, confirmed: U128)
  datatype PayoutRecipient = PayoutRecipient(miner: string, address: string, amount: U128)
  datatype PayoutSelection = PayoutSelection(recipients: seq<PayoutRecipient>, total: U128)
  datatype PayoutBatchDraft = PayoutBatchDraft(
    batchId: string, recipients: seq<PayoutRecipient>, total: U128, lockEntries: seq<LedgerEntry>)

  function Recipient(b: MinerBalance): PayoutRecipient {
    PayoutRecipient(b.miner, b.address, b.confirmed)
  }

  /** The balances that reach the minimum, in input order. */
  function Eligible(balances: seq<MinerBalance>, minimum: U128): seq<PayoutRecipient> {
    if balances == [] then []
    else
      var last := balances[|balances| - 1];
      Eligible(balances[..|balances| - 1], minimum) + if last.confirmed >= minimum then [Recipient(last)] else []
  }

  /** `a` may stand before `b`: larger amounts first, then miners by name. */
  predicate Ahead(a: PayoutRecipient, b: PayoutRecipient) {
    a.amount > b.amount || (a.amount == b.amount && TextLeq(a.miner, b.miner))
  }

  ghost predicate Ranked(rs: seq<PayoutRecipient>) {
    forall i, j :: 0 <= i < j < |rs| ==> Ahead(rs[i], rs[j])
  }

  /** Puts `r` behind everything that may stand before it, as a stable sort does with a later element. */
  function Insert(rs: seq<PayoutRecipient>, r: PayoutRecipient): (out: seq<PayoutRecipient>)
    ensures multiset(out) == multiset(rs) + multiset{r}
    decreases |rs|
  {
    if rs == [] || Ahead(rs[|rs| - 1], r) then rs + [r]
    else
      assert rs == rs[..|rs| - 1] + [rs[|rs| - 1]];
      Insert(rs[..|rs| - 1], r) + [rs[|rs| - 1]]
  }

  /** The stable sort by `Ahead`. */
  function SortByRank(rs: seq<PayoutRecipient>): (out: seq<PayoutRecipient>)
    ensures multiset(out) == multiset(rs)
    decreases |rs|
  {
    if rs == [] then [] else
      assert rs == rs[..|rs| - 1] + [rs[|rs| - 1]];
      Insert(SortByRank(rs[..|rs| - 1]), rs[|rs| - 1])
  }

  function Truncate<T>(s: seq<T>, limit: nat): seq<T> {
    if |s| <= limit then s else s[..limit]
  }

  function Paid(rs: seq<PayoutRecipient>): (amounts: seq<int>)
    ensures |amounts| == |rs|
    ensures forall i :: 0 <= i < |rs| ==> amounts[i] == rs[i].amount
  {
    seq(|rs|, i requires 0 <= i < |rs| => rs[i].amount)
  }

  function TotalPaid(rs: seq<PayoutRecipient>): int {
    Sum(Paid(rs))
  }

  /** Who is selected: the best-ranked eligible balances. */
  function Selected(balances: seq<MinerBalance>, minimum: U128, limit: nat): seq<PayoutRecipient> {
    Truncate(SortByRank(Eligible(balances, minimum)), limit)
  }

  method SelectPayouts(balances: seq<MinerBalance>, minimum: U128, limit: nat) returns (selection: PayoutSelection)
    ensures selection.recipients == Selected(balances, minimum, limit)
    ensures selection.total == TotalPaid(selection.recipients) % TWO_128
  {
    var recipients: seq<PayoutRecipient> := [];
    for i := 0 to |balances|
      invariant recipients == Eligible(balances[..i], minimum)
    {
      assert balances[..i + 1][..i] == balances[..i];
      if balances[i].confirmed >= minimum {
        recipients := recipients + [Recipient(balances[i])];
      }
    }
    assert balances[..|balances|] == balances;
    recipients := Truncate(SortByRank(recipients), limit);
    var total := WrappingTotal(recipients);
    selection := PayoutSelection(recipients, total);
  }

  /** The unchecked sum of the amounts keeps the low 128 bits of the true sum. */
  method WrappingTotal(rs: seq<PayoutRecipient>) returns (total: U128)
    ensures total == TotalPaid(rs) % TWO_128
  {
    total := 0;
    for i := 0 to |rs|
      invariant TotalPaid(rs[..i]) >= 0 && total == TotalPaid(rs[..i]) % TWO_128
    {
      NextTotal(rs, i);
      WrapAdd(TotalPaid(rs[..i]), rs[i].amount, TWO_128);
      total := Wrap(total + rs[i].amount);
    }
    assert rs[..|rs|] == rs;
  }

  lemma NextTotal(rs: seq<PayoutRecipient>, i: nat)
    requires i < |rs|
    ensures TotalPaid(rs[..i + 1]) == TotalPaid(rs[..i]) + rs[i].amount
  {
    assert Paid(rs[..i + 1])[..i] == Paid(rs[..i]);
  }

  lemma WrapAdd(a: nat, b: nat, size: nat)
    requires size > 0
    ensures (a % size + b) % size == (a + b) % size
  {
    var n, k := a % size + b, a / size;
    assert a + b == k * size + n;
    assert (k + n / size) * size == k * size + n / size * size;
    QuotientIs(a + b, k + n / size, n % size, size);
  }

  // ---------------------------------------------------------------- ranking

  lemma AheadOrder(a: PayoutRecipient, b: PayoutRecipient, c: PayoutRecipient)
    ensures Ahead(a, b) || Ahead(b, a)
    ensures Ahead(a, b) && Ahead(b, a) ==> a.amount == b.amount && a.miner == b.miner
    ensures Ahead(a, b) && Ahead(b, c) ==> Ahead(a, c)
  {
    TextOrdered(a.miner, b.miner, c.miner);
  }

  lemma {:induction false} InsertRanked(rs: seq<PayoutRecipient>, r: PayoutRecipient)
    requires Ranked(rs)
    ensures Ranked(Insert(rs, r))
    decreases |rs|
  {
    if rs != [] {
      var init, last := rs[..|rs| - 1], rs[|rs| - 1];
      AheadOrder(last, r, r);
      if Ahead(last, r) {
        forall i | 0 <= i < |rs|
          ensures Ahead(rs[i], r)
        {
          AheadOrder(rs[i], last, r);
        }
      } else {
        InsertRanked(init, r);
        forall x | x in Insert(init, r)
          ensures Ahead(x, last)
        {
          assert x in multiset(Insert(init, r));
          if x in init {
            var i :| 0 <= i < |init| && init[i] == x;
          }
        }
      }
    }
  }

  lemma {:induction false} SortIsRanked(rs: seq<PayoutRecipient>)
    ensures Ranked(SortByRank(rs))
    decreases |rs|
  {
    if rs != [] {
      SortIsRanked(rs[..|rs| - 1]);
      InsertRanked(SortByRank(rs[..|rs| - 1]), rs[|rs| - 1]);
    }
  }

  function Tie(r: PayoutRecipient, amount: U128, miner: string): seq<PayoutRecipient> {
    if r.amount == amount && r.miner == miner then [r] else []
  }

  /** The recipients with this amount and name, in order. */
  function Ties(rs: seq<PayoutRecipient>, amount: U128, miner: string): seq<PayoutRecipient> {
    if rs == [] then []
    else
      Ties(rs[..|rs| - 1], amount, miner) + Tie(rs[|rs| - 1], amount, miner)
  }

  lemma TiesAppend(rs: seq<PayoutRecipient>, r: PayoutRecipient, amount: U128, miner: string)
    ensures Ties(rs + [r], amount, miner) == Ties(rs, amount, miner) + Tie(r, amount, miner)
  {
    assert (rs + [r])[..|rs|] == rs;
  }

  lemma {:induction false} InsertKeepsTies(rs: seq<PayoutRecipient>, r: PayoutRecipient, amount: U128, miner: string)
    ensures Ties(Insert(rs, r), amount, miner) == Ties(rs, amount, miner) + Tie(r, amount, miner)
    decreases |rs|
  {
    if rs == [] || Ahead(rs[|rs| - 1], r) {
      TiesAppend(rs, r, amount, miner);
    } else {
      var init, last := rs[..|rs| - 1], rs[|rs| - 1];
      InsertKeepsTies(init, r, amount, miner);
      TiesAppend(Insert(init, r), last, amount, miner);
      BehindIsNoTie(last, r);
      TiesCommute(Ties(init, amount, miner), last, r, amount, miner);
    }
  }

  lemma BehindIsNoTie(last: PayoutRecipient, r: PayoutRecipient)
    requires !Ahead(last, r)
    ensures last.amount != r.amount || last.miner != r.miner
  {
    AheadOrder(last, r, r);
    TextOrdered(r.miner, r.miner, r.miner);
  }

  /** At most one of two recipients that do not tie is among these ties. */
  lemma TiesCommute(ties: seq<PayoutRecipient>, a: PayoutRecipient, b: PayoutRecipient, amount: U128, miner: string)
    requires a.amount != b.amount || a.miner != b.miner
    ensures ties + Tie(a, amount, miner) + Tie(b, amount, miner) == ties + Tie(b, amount, miner) + Tie(a, amount, miner)
  {
  }

  /** The sort is stable: recipients that tie keep their input order. */
  lemma {:induction false} SortKeepsTies(rs: seq<PayoutRecipient>, amount: U128, miner: string)
    ensures Ties(SortByRank(rs), amount, miner) == Ties(rs, amount, miner)
    decreases |rs|
  {
    if rs != [] {
      var init := rs[..|rs| - 1];
      SortKeepsTies(init, amount, miner);
      InsertKeepsTies(SortByRank(init), rs[|rs| - 1], amount, miner);
    }
  }

  /** Two rankings of the same recipients agree, unless two different recipients tie on amount and name. */
  lemma {:induction false} RankingIsUnique(a: seq<PayoutRecipient>, b: seq<PayoutRecipient>)
    requires Ranked(a) && Ranked(b) && multiset(a) == multiset(b)
    requires forall x, y :: x in a && y in a && x.amount == y.amount && x.miner == y.miner ==> x == y
    ensures a == b
    decreases |a|
  {
    assert |a| == |multiset(a)| == |multiset(b)| == |b|;
    if a != [] {
      SameFirst(a, b);
      assert a == [a[0]] + a[1..] && b == [b[0]] + b[1..];
      TailMultiset(a);
      TailMultiset(b);
      TailIsRanked(a);
      TailIsRanked(b);
      RankingIsUnique(a[1..], b[1..]);
    }
  }

  lemma TailMultiset(a: seq<PayoutRecipient>)
    requires a != []
    ensures multiset(a[1..]) == multiset(a) - multiset{a[0]}
  {
    assert a == [a[0]] + a[1..];
  }

  lemma SameFirst(a: seq<PayoutRecipient>, b: seq<PayoutRecipient>)
    requires Ranked(a) && Ranked(b) && multiset(a) == multiset(b) && a != [] && b != []
    requires forall x, y :: x in a && y in a && x.amount == y.amount && x.miner == y.miner ==> x == y
    ensures a[0] == b[0]
  {
    assert a[0] in multiset(b) && b[0] in multiset(a);
    var i :| 0 <= i < |b| && b[i] == a[0];
    var j :| 0 <= j < |a| && a[j] == b[0];
    AheadOrder(a[0], b[0], a[0]);
    if i > 0 && j > 0 {
      assert Ahead(b[0], b[i]) && Ahead(a[0], a[j]);
    }
  }

  // ---------------------------------------------------------------- which payouts are selected

  /** The selection is a ranked part of the eligible balances, as long as the limit allows. */
  lemma SelectionIsRanked(balances: seq<MinerBalance>, minimum: U128, limit: nat)
    ensures var s := Selected(balances, minimum, limit); var e := Eligible(balances, minimum);
      Ranked(s) && multiset(s) <= multiset(e) && |s| == if |e| <= limit then |e| else limit
  {
    var e := Eligible(balances, minimum);
    var all := SortByRank(e);
    SortIsRanked(e);
    assert |all| == |multiset(all)| == |multiset(e)| == |e|;
    if |all| > limit {
      assert all == all[..limit] + all[limit..];
    }
  }

  lemma {:induction false} TotalWithout(rs: seq<PayoutRecipient>, j: nat)
    requires j < |rs|
    ensures TotalPaid(rs) == rs[j].amount + TotalPaid(rs[..j] + rs[j + 1..])
  {
    assert Paid(rs) == Paid(rs[..j]) + ([rs[j].amount] + Paid(rs[j + 1..]));
    assert Paid(rs[..j] + rs[j + 1..]) == Paid(rs[..j]) + Paid(rs[j + 1..]);
    SumConcat(Paid(rs[..j]), [rs[j].amount] + Paid(rs[j + 1..]));
    SumConcat(Paid(rs[..j]), Paid(rs[j + 1..]));
    SumCons(rs[j].amount, Paid(rs[j + 1..]));
  }

  lemma WithoutOne(all: seq<PayoutRecipient>, chosen: seq<PayoutRecipient>, j: nat)
    requires all != [] && j < |chosen| && multiset(chosen) <= multiset(all)
    requires all[0] in chosen ==> chosen[j] == all[0]
    ensures multiset(chosen[..j] + chosen[j + 1..]) <= multiset(all[1..])
  {
    var rest := chosen[..j] + chosen[j + 1..];
    assert chosen == chosen[..j] + [chosen[j]] + chosen[j + 1..];
    assert multiset(chosen) == multiset(rest) + multiset{chosen[j]};
    assert all == [all[0]] + all[1..];
    assert multiset(all) == multiset(all[1..]) + multiset{all[0]};
    forall x
      ensures multiset(rest)[x] <= multiset(all[1..])[x]
    {
      assert multiset(chosen)[x] <= multiset(all)[x];
      if x == all[0] && all[0] !in chosen {
        assert multiset(chosen)[x] == 0;
      }
    }
  }

  lemma {:induction false} BestPrefix(all: seq<PayoutRecipient>, chosen: seq<PayoutRecipient>, limit: nat)
    requires Ranked(all) && multiset(chosen) <= multiset(all) && |chosen| <= limit
    ensures TotalPaid(chosen) <= TotalPaid(Truncate(all, limit))
    decreases |all|
  {
    if chosen == [] {
      NothingIsLess(Truncate(all, limit));
    } else {
      var j := BestOf(all, chosen);
      var rest := chosen[..j] + chosen[j + 1..];
      TailIsRanked(all);
      WithoutOne(all, chosen, j);
      BestPrefix(all[1..], rest, limit - 1);
      BetterFirst(all, chosen, j, limit);
    }
  }

  lemma BetterFirst(all: seq<PayoutRecipient>, chosen: seq<PayoutRecipient>, j: nat, limit: nat)
    requires all != [] && limit > 0 && j < |chosen| && chosen[j].amount <= all[0].amount
    requires TotalPaid(chosen[..j] + chosen[j + 1..]) <= TotalPaid(Truncate(all[1..], limit - 1))
    ensures TotalPaid(chosen) <= TotalPaid(Truncate(all, limit))
  {
    TotalWithout(chosen, j);
    FirstOfPrefix(all, limit);
  }

  /** Some chosen recipient is the first of the ranking, or else the first of the ranking is not chosen at all. */
  lemma BestOf(all: seq<PayoutRecipient>, chosen: seq<PayoutRecipient>) returns (j: nat)
    requires Ranked(all) && chosen != [] && multiset(chosen) <= multiset(all)
    ensures all != [] && j < |chosen| && chosen[j].amount <= all[0].amount
    ensures all[0] in chosen ==> chosen[j] == all[0]
  {
    assert multiset(all)[chosen[0]] >= multiset(chosen)[chosen[0]] > 0;
    var i :| 0 <= i < |all| && all[i] == chosen[0];
    assert i > 0 ==> Ahead(all[0], all[i]);
    if all[0] in chosen {
      j :| 0 <= j < |chosen| && chosen[j] == all[0];
    } else {
      j := 0;
    }
  }

  lemma TailIsRanked(all: seq<PayoutRecipient>)
    requires Ranked(all) && all != []
    ensures Ranked(all[1..])
  {
  }

  lemma FirstOfPrefix(all: seq<PayoutRecipient>, limit: nat)
    requires all != [] && limit > 0
    ensures TotalPaid(Truncate(all, limit)) == all[0].amount + TotalPaid(Truncate(all[1..], limit - 1))
  {
    var best := Truncate(all, limit);
    TotalWithout(best, 0);
    assert best[..0] + best[1..] == Truncate(all[1..], limit - 1);
  }

  lemma {:induction false} NothingIsLess(rs: seq<PayoutRecipient>)
    ensures TotalPaid(rs) >= 0
    decreases |rs|
  {
    if rs != [] {
      NothingIsLess(rs[..|rs| - 1]);
      NextTotal(rs, |rs| - 1);
      assert rs[..|rs| - 1 + 1] == rs;
    }
  }

  /** No choice of at most `limit` eligible balances pays out more. */
  lemma SelectionIsOptimal(balances: seq<MinerBalance>, minimum: U128, limit: nat, chosen: seq<PayoutRecipient>)
    requires multiset(chosen) <= multiset(Eligible(balances, minimum)) && |chosen| <= limit
    ensures TotalPaid(chosen) <= TotalPaid(Selected(balances, minimum, limit))
  {
    var e := Eligible(balances, minimum);
    SortIsRanked(e);
    BestPrefix(SortByRank(e), chosen, limit);
  }

  // ---------------------------------------------------------------- the selection, balance by balance

  function Balance(r: PayoutRecipient): MinerBalance {
    MinerBalance(r.miner, r.address, r.amount)
  }

  /** How often a recipient may be paid: once for each such balance, if it reaches the minimum. */
  ghost function Claims(balances: seq<MinerBalance>, minimum: U128, r: PayoutRecipient): nat {
    if r.amount >= minimum then multiset(balances)[Balance(r)] else 0
  }

  lemma {:induction false} EligibleClaims(balances: seq<MinerBalance>, minimum: U128, r: PayoutRecipient)
    ensures multiset(Eligible(balances, minimum))[r] == Claims(balances, minimum, r)
    decreases |balances|
  {
    if balances != [] {
      var init, last := balances[..|balances| - 1], balances[|balances| - 1];
      assert balances == init + [last];
      EligibleClaims(init, minimum, r);
      assert Balance(Recipient(last)) == last && Recipient(Balance(r)) == r;
    }
  }

  /** The places in the list of balances that reach the minimum. */
  function Reaching(balances: seq<MinerBalance>, minimum: U128): set<nat> {
    set i: nat | i < |balances| && balances[i].confirmed >= minimum
  }

  lemma {:induction false} ReachingCount(balances: seq<MinerBalance>, minimum: U128)
    ensures |Reaching(balances, minimum)| == |Eligible(balances, minimum)|
    decreases |balances|
  {
    if balances != [] {
      var n := |balances| - 1;
      ReachingCount(balances[..n], minimum);
      var before := Reaching(balances[..n], minimum);
      assert Reaching(balances, minimum) == if balances[n].confirmed >= minimum then before + {n} else before;
    }
  }

  /**
   Who is selected: larger amounts first and equal amounts by name, as many as reach the minimum and the limit allows;
   everybody is paid for a balance of exactly that amount, at most as often as it is listed, and exactly as often when
   the limit is not exceeded.
   */
  lemma SelectionIsExact(balances: seq<MinerBalance>, minimum: U128, limit: nat, r: PayoutRecipient)
    ensures var s := Selected(balances, minimum, limit); var n := |Reaching(balances, minimum)|;
      && |s| == (if n <= limit then n else limit)
      && multiset(s)[r] <= Claims(balances, minimum, r)
      && (n <= limit ==> multiset(s)[r] == Claims(balances, minimum, r))
    ensures var s := Selected(balances, minimum, limit);
      forall i, j :: 0 <= i < j < |s| ==>
        s[i].amount > s[j].amount || (s[i].amount == s[j].amount && TextLeq(s[i].miner, s[j].miner))
  {
    SelectionIsRanked(balances, minimum, limit);
    EligibleClaims(balances, minimum, r);
    ReachingCount(balances, minimum);
    var e := Eligible(balances, minimum);
    assert |SortByRank(e)| == |multiset(SortByRank(e))| == |multiset(e)| == |e|;
  }

  /** The elements at some places of a list. */
  function Pick<T>(s: seq<T>, places: seq<nat>): (picked: seq<T>)
    requires forall i :: 0 <= i < |places| ==> places[i] < |s|
    ensures |picked| == |places|
    ensures forall i :: 0 <= i < |places| ==> picked[i] == s[places[i]]
  {
    seq(|places|, i requires 0 <= i < |places| => s[places[i]])
  }

  lemma {:induction false} PickIsPart<T>(s: seq<T>, places: seq<nat>)
    requires Distinct(places) && forall i :: 0 <= i < |places| ==> places[i] < |s|
    ensures multiset(Pick(s, places)) <= multiset(s)
    decreases |s|
  {
    if s != [] {
      var n := |s| - 1;
      assert s == s[..n] + [s[n]];
      if n in places {
        var j :| 0 <= j < |places| && places[j] == n;
        var rest := places[..j] + places[j + 1..];
        assert Distinct(rest) && forall i :: 0 <= i < |rest| ==> rest[i] < n;
        PickIsPart(s[..n], rest);
        PickLast(s, places, j, Pick(s[..n], rest));
      } else {
        assert forall i :: 0 <= i < |places| ==> places[i] != n;
        PickIsPart(s[..n], places);
        assert Pick(s, places) == Pick(s[..n], places);
      }
    }
  }

  lemma PickLast<T>(s: seq<T>, places: seq<nat>, j: nat, others: seq<T>)
    requires s != [] && j < |places| && places[j] == |s| - 1
    requires forall i :: 0 <= i < |places| ==> places[i] < |s|
    requires |others| == |places| - 1
    requires forall i :: 0 <= i < |others| ==> others[i] == s[places[if i < j then i else i + 1]]
    ensures multiset(Pick(s, places)) == multiset(others) + multiset{s[|s| - 1]}
  {
    assert Pick(s, places) == others[..j] + [s[|s| - 1]] + others[j..];
    assert others == others[..j] + others[j..];
  }

  /** What the balances at some places add up to. */
  function Worth(balances: seq<MinerBalance>, places: seq<nat>): int
    requires forall i :: 0 <= i < |places| ==> places[i] < |balances|
  {
    Sum(seq(|places|, i requires 0 <= i < |places| => balances[places[i]].confirmed))
  }

  /** No choice of at most `limit` different balances that reach the minimum pays out more. */
  lemma NoChoicePaysMore(balances: seq<MinerBalance>, minimum: U128, limit: nat, places: seq<nat>)
    requires Distinct(places) && |places| <= limit
    requires forall i :: 0 <= i < |places| ==> places[i] in Reaching(balances, minimum)
    ensures forall i :: 0 <= i < |places| ==> places[i] < |balances|
    ensures Worth(balances, places) <= TotalPaid(Selected(balances, minimum, limit))
  {
    var picked := Pick(balances, places);
    var chosen := seq(|picked|, i requires 0 <= i < |picked| => Recipient(picked[i]));
    PickIsPart(balances, places);
    forall r
      ensures multiset(chosen)[r] <= multiset(Eligible(balances, minimum))[r]
    {
      EligibleClaims(balances, minimum, r);
      ChosenClaims(picked, chosen, r);
      if r in chosen {
        var i :| 0 <= i < |chosen| && chosen[i] == r;
        assert places[i] in Reaching(balances, minimum);
      }
    }
    assert Paid(chosen) == seq(|places|, i requires 0 <= i < |places| => balances[places[i]].confirmed);
    SelectionIsOptimal(balances, minimum, limit, chosen);
  }

  lemma {:induction false} ChosenClaims(picked: seq<MinerBalance>, chosen: seq<PayoutRecipient>, r: PayoutRecipient)
    requires |chosen| == |picked| && forall i :: 0 <= i < |picked| ==> chosen[i] == Recipient(picked[i])
    ensures multiset(chosen)[r] == multiset(picked)[Balance(r)]
    decreases |picked|
  {
    if picked != [] {
      var n := |picked| - 1;
      ChosenClaims(picked[..n], chosen[..n], r);
      assert picked == picked[..n] + [picked[n]] && chosen == chosen[..n] + [chosen[n]];
    }
  }

  lemma {:induction false} EligibleConcat(a: seq<MinerBalance>, b: seq<MinerBalance>, minimum: U128)
    ensures Eligible(a + b, minimum) == Eligible(a, minimum) + Eligible(b, minimum)
    decreases |b|
  {
    if b == [] {
      assert a + b == a;
    } else {
      assert (a + b)[..|a + b| - 1] == a + b[..|b| - 1];
      EligibleConcat(a, b[..|b| - 1], minimum);
    }
  }

  lemma {:induction false} EligibleOfPermutation(a: seq<MinerBalance>, b: seq<MinerBalance>, minimum: U128)
    requires multiset(a) == multiset(b)
    ensures multiset(Eligible(a, minimum)) == multiset(Eligible(b, minimum))
    decreases |a|
  {
    assert |a| == |multiset(a)| == |multiset(b)| == |b|;
    if a != [] {
      var last := a[|a| - 1];
      assert last in multiset(b);
      var j :| 0 <= j < |b| && b[j] == last;
      RemoveOne(a, b, j);
      EligibleOfPermutation(a[..|a| - 1], b[..j] + b[j + 1..], minimum);
      EligibleConcat(a[..|a| - 1], [last], minimum);
      EligibleConcat(b[..j], b[j + 1..], minimum);
      EligibleConcat(b[..j] + [last], b[j + 1..], minimum);
      EligibleConcat(b[..j], [last], minimum);
    }
  }

  lemma {:induction false} EligibleComeFrom(balances: seq<MinerBalance>, minimum: U128, r: PayoutRecipient)
    requires r in Eligible(balances, minimum)
    ensures MinerBalance(r.miner, r.address, r.amount) in balances && r.amount >= minimum
    decreases |balances|
  {
    var init, last := balances[..|balances| - 1], balances[|balances| - 1];
    if r in Eligible(init, minimum) {
      EligibleComeFrom(init, minimum, r);
    } else {
      assert r == Recipient(last);
    }
  }

  /**
   The order of the balances makes no difference when a miner is listed once, or more generally when balances
   with the same name and amount are the same balance.
   */
  lemma BalanceOrderIsIrrelevant(a: seq<MinerBalance>, b: seq<MinerBalance>, minimum: U128, limit: nat)
    requires multiset(a) == multiset(b)
    requires forall x, y :: x in a && y in a && x.miner == y.miner && x.confirmed == y.confirmed ==> x == y
    ensures Selected(a, minimum, limit) == Selected(b, minimum, limit)
  {
    var ea, eb := Eligible(a, minimum), Eligible(b, minimum);
    EligibleOfPermutation(a, b, minimum);
    SortIsRanked(ea);
    SortIsRanked(eb);
    var ra := SortByRank(ea);
    forall x, y | x in ra && y in ra && x.amount == y.amount && x.miner == y.miner
      ensures x == y
    {
      assert x in multiset(ra) && y in multiset(ra);
      EligibleComeFrom(a, minimum, x);
      EligibleComeFrom(a, minimum, y);
    }
    RankingIsUnique(ra, SortByRank(eb));
  }

  // ---------------------------------------------------------------- locking what is paid

  function LockEntry(batchId: string, r: PayoutRecipient): LedgerEntry {
    LedgerEntry(Some(r.miner), NegateSigned(AsSigned(r.amount)), PayoutLock, "payout_batch", batchId)
  }

  function LockEntries(batchId: string, rs: seq<PayoutRecipient>): (entries: seq<LedgerEntry>)
    ensures |entries| == |rs|
  {
    seq(|rs|, i requires 0 <= i < |rs| => LockEntry(batchId, rs[i]))
  }

  function DraftBatch(batchId: string, selection: PayoutSelection): PayoutBatchDraft {
    PayoutBatchDraft(batchId, selection.recipients, selection.total, LockEntries(batchId, selection.recipients))
  }

  /** How many amounts have no exact negative in the signed type. */
  function CountOversized(rs: seq<PayoutRecipient>): nat {
    CountAbove(Paid(rs), TWO_127)
  }

  lemma NoneOversized(rs: seq<PayoutRecipient>)
    ensures CountOversized(rs) == 0 <==> forall i :: 0 <= i < |rs| ==> rs[i].amount <= TWO_127
  {
    NoneAbove(Paid(rs), TWO_127);
    assert forall i :: 0 <= i < |rs| ==> Paid(rs)[i] == rs[i].amount;
  }

  lemma {:induction false} LocksPosted(batchId: string, rs: seq<PayoutRecipient>)
    ensures Posted(LockEntries(batchId, rs)) == TWO_128 * CountOversized(rs) - TotalPaid(rs)
    decreases |rs|
  {
    if rs != [] {
      var init, last := rs[..|rs| - 1], rs[|rs| - 1];
      LocksPosted(batchId, init);
      assert Paid(rs)[..|init|] == Paid(init);
      NextTotal(rs, |init|);
      assert rs[..|init| + 1] == rs;
      assert LockEntries(batchId, rs) == LockEntries(batchId, init) + [LockEntry(batchId, last)];
      PostedAppend(LockEntries(batchId, init), LockEntry(batchId, last));
    }
  }

  /** What the recipients of one miner are paid together, and how many of these amounts are oversized. */
  function OfMiner(rs: seq<PayoutRecipient>, miner: string): seq<PayoutRecipient> {
    if rs == [] then []
    else OfMiner(rs[..|rs| - 1], miner) + if rs[|rs| - 1].miner == miner then [rs[|rs| - 1]] else []
  }

  lemma TotalAppend(rs: seq<PayoutRecipient>, r: PayoutRecipient)
    ensures TotalPaid(rs + [r]) == TotalPaid(rs) + r.amount
    ensures CountOversized(rs + [r]) == CountOversized(rs) + One(r.amount > TWO_127)
  {
    assert Paid(rs + [r]) == Paid(rs) + [r.amount];
    assert (Paid(rs) + [r.amount])[..|rs|] == Paid(rs);
  }

  /**
   The drafted locks are one entry per recipient, all of the kind for payout locks and under the batch's id; they take
   from each miner what it is paid, up to 2^128 for each amount above 2^127, and touch nobody else.
   */
  lemma {:induction false} LocksReachTheirMiners(batchId: string, rs: seq<PayoutRecipient>, miner: string)
    ensures PostedTo(LockEntries(batchId, rs), Some(miner), PayoutLock)
         == TWO_128 * CountOversized(OfMiner(rs, miner)) - TotalPaid(OfMiner(rs, miner))
    ensures AllMarked(LockEntries(batchId, rs), PayoutLock, "payout_batch", batchId)
    decreases |rs|
  {
    LocksAreMarked(batchId, rs);
    if rs != [] {
      var init, last := rs[..|rs| - 1], rs[|rs| - 1];
      LocksReachTheirMiners(batchId, init, miner);
      assert LockEntries(batchId, rs) == LockEntries(batchId, init) + [LockEntry(batchId, last)];
      PostedToAppend(LockEntries(batchId, init), LockEntry(batchId, last), Some(miner), PayoutLock);
      LockAmount(batchId, last);
      if last.miner == miner {
        TotalAppend(OfMiner(init, miner), last);
      } else {
        assert OfMiner(init, miner) + [] == OfMiner(init, miner);
      }
    }
  }

  lemma LocksAreMarked(batchId: string, rs: seq<PayoutRecipient>)
    ensures AllMarked(LockEntries(batchId, rs), PayoutLock, "payout_batch", batchId)
  {
  }

  lemma LockAmount(batchId: string, r: PayoutRecipient)
    ensures LockEntry(batchId, r).amount == TWO_128 * One(r.amount > TWO_127) - r.amount
    ensures LockEntry(batchId, r).miner == Some(r.miner) && LockEntry(batchId, r).kind == PayoutLock
  {
  }

  /** The drafted locks take exactly the paid amounts out of the ledger just when no amount exceeds 2^127. */
  lemma LocksTakeWhatIsPaidIff(batchId: string, selection: PayoutSelection)
    ensures var draft := DraftBatch(batchId, selection);
      (Posted(draft.lockEntries) == -TotalPaid(draft.recipients)) <==>
      (forall r :: r in selection.recipients ==> r.amount <= TWO_127)
    ensures var draft := DraftBatch(batchId, selection);
      draft.batchId == batchId && PayoutSelection(draft.recipients, draft.total) == selection
  {
    LocksPosted(batchId, selection.recipients);
    NoneOversized(selection.recipients);
  }

  /**
   For a selection whose total is the wrapped sum, the locks cancel the reported total just when the sum wrapped
   as often as there are oversized amounts; in particular whenever the true total is at most 2^127.
   */
  lemma LocksCancelTheTotalIff(batchId: string, selection: PayoutSelection)
    requires selection.total == TotalPaid(selection.recipients) % TWO_128
    ensures TotalPaid(selection.recipients) >= 0
    ensures (Posted(DraftBatch(batchId, selection).lockEntries) + DraftBatch(batchId, selection).total == 0) <==>
            (CountOversized(selection.recipients) == TotalPaid(selection.recipients) / TWO_128)
    ensures TotalPaid(selection.recipients) <= TWO_127 ==>
              DraftBatch(batchId, selection).total == TotalPaid(selection.recipients)
                == -Posted(DraftBatch(batchId, selection).lockEntries)
  {
    var rs := selection.recipients;
    LocksPosted(batchId, rs);
    NothingIsLess(rs);
    if TotalPaid(rs) <= TWO_127 {
      forall i | 0 <= i < |rs|
        ensures rs[i].amount <= TWO_127
      {
        TotalWithout(rs, i);
        NothingIsLess(rs[..i] + rs[i + 1..]);
      }
      NoneOversized(rs);
    }
  }
}
