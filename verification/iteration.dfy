/** Iterating over a hash map: every key once, in an order nobody promises. */
module Iteration {

  ghost predicate KeyOrder<K(!new), V>(m: map<K, V>, order: seq<K>) {
    && (forall k :: k in order <==> k in m)
    && (forall i, j | 0 <= i < j < |order| :: order[i] != order[j])
  }

  method Keys<K(==,!new), V>(m: map<K, V>) returns (order: seq<K>)
    ensures KeyOrder(m, order)
  {
    order := [];
    var rest := m.Keys;
    while rest != {}
      invariant rest <= m.Keys
      invariant forall k :: k in order <==> k in m && k !in rest
      invariant forall i, j | 0 <= i < j < |order| :: order[i] != order[j]
    {
      var k :| k in rest;
      order := order + [k];
      rest := rest - {k};
    }
  }

  lemma {:induction false} DistinctSize<T>(s: seq<T>)
    requires forall i, j | 0 <= i < j < |s| :: s[i] != s[j]
    ensures |set k | k in s| == |s|
  {
    if s != [] {
      var front := s[..|s| - 1];
      DistinctSize(front);
      assert (set k | k in s) == (set k | k in front) + {s[|s| - 1]};
    }
  }

  lemma ExtendOrder<K(!new), V>(m: map<K, V>, order: seq<K>, k: K, v: V)
    requires KeyOrder(m, order) && k !in m
    ensures KeyOrder(m[k := v], order + [k])
  {}

  lemma OrderSize<K(!new), V>(m: map<K, V>, order: seq<K>)
    requires KeyOrder(m, order)
    ensures |order| == |m|
  {
    DistinctSize(order);
    assert (set k | k in order) == m.Keys;
  }

  lemma SubsetOfSameSize<T>(a: set<T>, b: set<T>)
    requires a <= b && |a| == |b|
    ensures a == b
  {
    assert b == a + (b - a);
    assert |b| == |a| + |b - a|;
  }
}
