/** Small shared vocabulary: optional values and enumerations of finite sets. */
module Prelude {

  datatype Option<+T> = None | Some(value: T)

  const U64_MAX: nat := 0xFFFF_FFFF_FFFF_FFFF

  function Max(a: nat, b: nat): nat {
    if a < b then b else a
  }

  /** Subtraction that stops at zero, as `saturating_sub` does on unsigned integers. */
  function Monus(a: nat, b: nat): nat {
    if a < b then 0 else a - b
  }

  function One(b: bool): nat {
    if b then 1 else 0
  }

  ghost predicate Distinct<T(!new)>(s: seq<T>) {
    forall i, j :: 0 <= i < j < |s| ==> s[i] != s[j]
  }

  /** `order` lists every element of `s` exactly once: one possible iteration order of a hash container. */
  ghost predicate Enumerates<T(!new)>(order: seq<T>, s: set<T>) {
    && Distinct(order)
    && (forall x :: x in s <==> x in order)
  }

  /** Lists a finite set in some unspecified order, the way iterating a hash container does. */
  method ListSet<T(==, !new)>(s: set<T>) returns (order: seq<T>)
    ensures Enumerates(order, s)
  {
    order := [];
    var todo := s;
    while todo != {}
      invariant todo <= s
      invariant Enumerates(order, s - todo)
      decreases |todo|
    {
      var x :| x in todo;
      order := order + [x];
      todo := todo - {x};
    }
  }

  lemma EnumerateOneMore<T(!new)>(order: seq<T>, s: set<T>, x: T)
    requires Enumerates(order, s) && x !in s
    ensures Enumerates(order + [x], s + {x})
  {
  }

  /** Removing the same element from two permutations of each other leaves permutations of each other. */
  lemma RemoveOne<T>(a: seq<T>, b: seq<T>, j: nat)
    requires multiset(a) == multiset(b) && a != [] && j < |b| && b[j] == a[|a| - 1]
    ensures multiset(a[..|a| - 1]) == multiset(b[..j] + b[j + 1..])
    ensures a == a[..|a| - 1] + [b[j]] && b == b[..j] + [b[j]] + b[j + 1..]
  {
    assert a == a[..|a| - 1] + [b[j]];
    assert b == b[..j] + [b[j]] + b[j + 1..];
    var init, rest := a[..|a| - 1], b[..j] + b[j + 1..];
    assert multiset(a) == multiset(init) + multiset{b[j]};
    assert multiset(b) == multiset(b[..j]) + multiset{b[j]} + multiset(b[j + 1..]);
    assert multiset(rest) == multiset(b[..j]) + multiset(b[j + 1..]);
    assert multiset(rest) + multiset{b[j]} == multiset(init) + multiset{b[j]};
    assert multiset(rest) == multiset(rest) + multiset{b[j]} - multiset{b[j]};
    assert multiset(init) == multiset(init) + multiset{b[j]} - multiset{b[j]};
  }

  /** An injective map has no more keys than targets. */
  lemma {:induction false} InjectionSize<K, V>(m: map<K, V>, targets: set<V>)
    requires forall k :: k in m ==> m[k] in targets
    requires forall k, l :: k in m && l in m && m[k] == m[l] ==> k == l
    ensures |m| <= |targets|
    decreases |m|
  {
    if m != map[] {
      var k :| k in m;
      var rest := m - {k};
      assert m.Keys == rest.Keys + {k};
      forall l | l in rest
        ensures rest[l] in targets - {m[k]}
      {
        assert l != k;
      }
      InjectionSize(rest, targets - {m[k]});
    }
  }
}
