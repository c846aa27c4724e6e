/** Sums over the values of a finite map. */
module MapSums {
  import opened Sets

  /** Values added up in any order. */
  ghost function Fold<K, V>(m: map<K, V>, zero: V, plus: (V, V) -> V): V
    decreases |m.Keys|
  {
    if m.Keys == {} then zero
    else
      var k := Pick(m.Keys);
      plus(m[k], Fold(m - {k}, zero, plus))
  }

  ghost predicate Swaps<V(!new)>(plus: (V, V) -> V) {
    forall a, b, c :: plus(a, plus(b, c)) == plus(b, plus(a, c))
  }

  /** Any key can be taken out first. */
  lemma {:induction false} FoldTake<K, V(!new)>(m: map<K, V>, zero: V, plus: (V, V) -> V, k: K)
    requires k in m && Swaps(plus)
    ensures Fold(m, zero, plus) == plus(m[k], Fold(m - {k}, zero, plus))
    decreases |m.Keys|
  {
    var first := Pick(m.Keys);
    if first != k {
      var rest, other := m - {first}, m - {k};
      assert rest.Keys == m.Keys - {first} && other.Keys == m.Keys - {k};
      FoldTake(rest, zero, plus, k);
      FoldTake(other, zero, plus, first);
      assert rest - {k} == other - {first};
    }
  }

  /** Writing one value puts it in the place of the old one. */
  lemma FoldWrite<K, V(!new)>(m: map<K, V>, zero: V, plus: (V, V) -> V, k: K, v: V)
    requires Swaps(plus)
    ensures Fold(m[k := v], zero, plus) == plus(v, Fold(m - {k}, zero, plus))
    ensures Fold(m, zero, plus) == if k in m then plus(m[k], Fold(m - {k}, zero, plus)) else Fold(m - {k}, zero, plus)
  {
    FoldTake(m[k := v], zero, plus, k);
    assert m[k := v] - {k} == m - {k};
    if k in m { FoldTake(m, zero, plus, k); } else { assert m - {k} == m; }
  }

  function Add(a: nat, b: nat): nat { a + b }

  ghost function Sum<K>(m: map<K, nat>): nat { Fold(m, 0, Add) }

  lemma SumTake<K>(m: map<K, nat>, k: K)
    requires k in m
    ensures Sum(m) == m[k] + Sum(m - {k})
  {
    FoldTake(m, 0, Add, k);
  }

  /** Writing one value changes the sum by the difference. */
  lemma SumWrite<K>(m: map<K, nat>, k: K, v: nat)
    ensures Sum(m[k := v]) == Sum(m) - (if k in m then m[k] else 0) + v
  {
    FoldWrite(m, 0, Add, k, v);
  }
}
