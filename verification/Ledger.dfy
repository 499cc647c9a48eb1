/** Base-unit amounts as the accounting crate stores them, and the ledger entries made from them. */
module Ledger {
  import opened Prelude

  const TWO_127: nat := 0x8000_0000_0000_0000_0000_0000_0000_0000
  const TWO_128: nat := 0x1_0000_0000_0000_0000_0000_0000_0000_0000

  type U128 = n: nat | n < TWO_128

  /** Unchecked `u128` arithmetic of a release build keeps the low 128 bits. */
  function Wrap(n: nat): (w: U128)
    ensures w <= n && (w == n <==> n < TWO_128)
  {
    LowBitsAreSmaller(n, TWO_128);
    n % TWO_128
  }

  lemma LowBitsAreSmaller(n: nat, size: nat)
    requires size > 0
    ensures n % size <= n && n % size < size && (n < size ==> n % size == n)
  {
  }

  /** `as i128`: the same 128 bits read as a signed number. */
  function AsSigned(n: U128): int {
    if n < TWO_127 then n else n - TWO_128
  }

  /** Unchecked negation of an `i128`: the least value has no counterpart and stays. */
  function NegateSigned(n: int): int {
    if n + TWO_127 == 0 then n else -n
  }

  datatype LedgerKind =
    | RewardImmature | RewardMature | RewardOrphanReversal
    | PayoutLock | PayoutSent | PayoutFailedUnlock
    | PoolFee | ManualAdjustment

  datatype LedgerEntry = LedgerEntry(
    miner: Option<string>, amount: int, kind: LedgerKind, refType: string, refId: string)

  function Sum(ns: seq<int>): int {
    if ns == [] then 0 else Sum(ns[..|ns| - 1]) + ns[|ns| - 1]
  }

  lemma {:induction false} SumConcat(a: seq<int>, b: seq<int>)
    ensures Sum(a + b) == Sum(a) + Sum(b)
    decreases |b|
  {
    if b == [] {
      assert a + b == a;
    } else {
      assert (a + b)[..|a + b| - 1] == a + b[..|b| - 1];
      SumConcat(a, b[..|b| - 1]);
    }
  }

  lemma SumCons(n: int, ns: seq<int>)
    ensures Sum([n] + ns) == n + Sum(ns)
  {
    SumConcat([n], ns);
    assert [n][..0] == [];
  }

  /** How many amounts exceed a limit. */
  function CountAbove(amounts: seq<int>, limit: int): nat {
    if amounts == [] then 0
    else CountAbove(amounts[..|amounts| - 1], limit) + (if amounts[|amounts| - 1] > limit then 1 else 0)
  }

  lemma {:induction false} NoneAbove(amounts: seq<int>, limit: int)
    ensures CountAbove(amounts, limit) == 0 <==> forall i :: 0 <= i < |amounts| ==> amounts[i] <= limit
    decreases |amounts|
  {
    if amounts != [] {
      var init := amounts[..|amounts| - 1];
      NoneAbove(init, limit);
      assert amounts == init + [amounts[|amounts| - 1]];
    }
  }

  /** What a list of entries adds to the ledger. */
  function Posted(entries: seq<LedgerEntry>): int {
    Sum(Posts(entries))
  }

  function Posts(entries: seq<LedgerEntry>): (amounts: seq<int>)
    ensures |amounts| == |entries|
    ensures forall i :: 0 <= i < |entries| ==> amounts[i] == entries[i].amount
  {
    seq(|entries|, i requires 0 <= i < |entries| => entries[i].amount)
  }

  /** What a list of entries adds to one account under one kind. */
  function PostedTo(entries: seq<LedgerEntry>, who: Option<string>, kind: LedgerKind): int {
    if entries == [] then 0
    else
      var last := entries[|entries| - 1];
      PostedTo(entries[..|entries| - 1], who, kind) + if last.miner == who && last.kind == kind then last.amount else 0
  }

  lemma PostedToAppend(entries: seq<LedgerEntry>, e: LedgerEntry, who: Option<string>, kind: LedgerKind)
    ensures PostedTo(entries + [e], who, kind)
         == PostedTo(entries, who, kind) + if e.miner == who && e.kind == kind then e.amount else 0
  {
    assert (entries + [e])[..|entries|] == entries;
  }

  /** Every entry belongs to a miner, and is of this kind and about this reference. */
  predicate AllMarked(entries: seq<LedgerEntry>, kind: LedgerKind, refType: string, refId: string) {
    forall i :: 0 <= i < |entries| ==>
      entries[i].miner.Some? && entries[i].kind == kind && entries[i].refType == refType && entries[i].refId == refId
  }

  lemma PostedAppend(entries: seq<LedgerEntry>, e: LedgerEntry)
    ensures Posted(entries + [e]) == Posted(entries) + e.amount
  {
    assert Posts(entries + [e])[..|entries|] == Posts(entries);
  }
}
