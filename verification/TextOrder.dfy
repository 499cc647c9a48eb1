/** The order of Rust strings, and the order in which a `BTreeMap` keyed by strings yields its keys. */
module TextOrder {
  import opened Prelude
  import opened Positional
  import opened Hex

  /** Comparing UTF-8 bytes agrees with comparing code points from the left. */
  predicate TextLeq(a: string, b: string) {
    LexLeq(Codes(a), Codes(b))
  }

  lemma {:induction false} LexTotal(a: seq<nat>, b: seq<nat>)
    ensures LexLeq(a, b) || LexLeq(b, a)
    ensures LexLeq(a, b) && LexLeq(b, a) ==> a == b
    decreases |a|
  {
    if a != [] && b != [] && a[0] == b[0] {
      LexTotal(a[1..], b[1..]);
      assert a == [a[0]] + a[1..] && b == [b[0]] + b[1..];
    }
  }

  lemma {:induction false} LexTransitive(a: seq<nat>, b: seq<nat>, c: seq<nat>)
    requires LexLeq(a, b) && LexLeq(b, c)
    ensures LexLeq(a, c)
    decreases |a|
  {
    if a != [] && a[0] == b[0] && b[0] == c[0] {
      LexTransitive(a[1..], b[1..], c[1..]);
    }
  }

  /** Texts are totally ordered. */
  lemma TextOrdered(a: string, b: string, c: string)
    ensures TextLeq(a, b) || TextLeq(b, a)
    ensures TextLeq(a, b) && TextLeq(b, a) ==> a == b
    ensures TextLeq(a, b) && TextLeq(b, c) ==> TextLeq(a, c)
  {
    LexTotal(Codes(a), Codes(b));
    if Codes(a) == Codes(b) {
      forall i | 0 <= i < |a|
        ensures a[i] == b[i]
      {
        assert Codes(a)[i] == Codes(b)[i];
      }
    }
    if TextLeq(a, b) && TextLeq(b, c) {
      LexTransitive(Codes(a), Codes(b), Codes(c));
    }
  }

  ghost predicate IsLeast(m: string, keys: set<string>) {
    m in keys && forall k :: k in keys ==> TextLeq(m, k)
  }

  lemma {:induction false} LeastExists(keys: set<string>)
    requires keys != {}
    ensures exists m :: IsLeast(m, keys)
    decreases |keys|
  {
    var k :| k in keys;
    TextOrdered(k, k, k);
    var rest := keys - {k};
    if rest == {} {
      assert keys == {k};
      assert IsLeast(k, keys);
    } else {
      LeastExists(rest);
      var m :| IsLeast(m, rest);
      TextOrdered(k, m, m);
      if TextLeq(m, k) {
        assert IsLeast(m, keys);
      } else {
        forall j | j in keys
          ensures TextLeq(k, j)
        {
          if j != k {
            TextOrdered(k, m, j);
          }
        }
        assert IsLeast(k, keys);
      }
    }
  }

  /** The keys from the least up: the iteration order of a `BTreeMap`. */
  ghost function InOrder(keys: set<string>): (order: seq<string>)
    ensures |order| == |keys|
    ensures forall k :: k in order <==> k in keys
    decreases |keys|
  {
    if keys == {} then [] else
      LeastExists(keys);
      var m :| IsLeast(m, keys);
      [m] + InOrder(keys - {m})
  }

  lemma AscendingStep(keys: set<string>, order: seq<string>, todo: set<string>, m: string)
    requires order + InOrder(todo) == InOrder(keys) && IsLeast(m, todo)
    ensures order + [m] + InOrder(todo - {m}) == InOrder(keys)
  {
    LeastIsUnique(todo, m);
    assert order + [m] + InOrder(todo - {m}) == order + ([m] + InOrder(todo - {m}));
  }

  /** Going through a set of keys in increasing order. */
  method Ascending(keys: set<string>) returns (order: seq<string>)
    ensures order == InOrder(keys)
  {
    order := [];
    var todo := keys;
    while todo != {}
      invariant order + InOrder(todo) == InOrder(keys)
      decreases |todo|
    {
      var m := Least(todo);
      AscendingStep(keys, order, todo, m);
      order := order + [m];
      todo := todo - {m};
    }
  }

  lemma LeastIsUnique(keys: set<string>, m: string)
    requires IsLeast(m, keys)
    ensures InOrder(keys) == [m] + InOrder(keys - {m})
  {
    forall n | IsLeast(n, keys)
      ensures n == m
    {
      TextOrdered(m, n, n);
    }
  }

  method Least(keys: set<string>) returns (m: string)
    requires keys != {}
    ensures IsLeast(m, keys)
  {
    m :| m in keys;
    TextOrdered(m, m, m);
    var todo := keys - {m};
    while todo != {}
      invariant todo <= keys && m in keys
      invariant forall k :: k in keys - todo ==> TextLeq(m, k)
      decreases |todo|
    {
      var k :| k in todo;
      TextOrdered(k, k, k);
      if !TextLeq(m, k) {
        forall j | j in keys - todo
          ensures TextLeq(k, j)
        {
          TextOrdered(k, m, j);
        }
        m := k;
      }
      todo := todo - {k};
    }
  }

  ghost predicate StrictlyIncreasing(order: seq<string>) {
    Distinct(order) && forall i, j :: 0 <= i < j < |order| ==> TextLeq(order[i], order[j])
  }

  lemma PrependLeast(m: string, order: seq<string>)
    requires StrictlyIncreasing(order)
    requires m !in order && forall k :: k in order ==> TextLeq(m, k)
    ensures StrictlyIncreasing([m] + order)
  {
    var whole := [m] + order;
    forall i, j | 0 <= i < j < |whole|
      ensures whole[i] != whole[j] && TextLeq(whole[i], whole[j])
    {
      assert whole[j] == order[j - 1];
      if i > 0 {
        assert whole[i] == order[i - 1];
      }
    }
  }

  lemma {:induction false} InOrderIsStrict(keys: set<string>)
    ensures StrictlyIncreasing(InOrder(keys))
    decreases |keys|
  {
    if keys != {} {
      LeastExists(keys);
      var m :| IsLeast(m, keys);
      LeastIsUnique(keys, m);
      InOrderIsStrict(keys - {m});
      PrependLeast(m, InOrder(keys - {m}));
    }
  }
}
