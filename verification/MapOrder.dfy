/** Ranging over a map: the order is arbitrary, and what is computed from it must not depend on it. */
module MapOrder {

  /** Every key once: one of the orders in which Go may range over the map. */
  ghost predicate IsOrder<K(!new), V>(order: seq<K>, m: map<K, V>) {
    && (forall k :: k in order <==> k in m)
    && forall i, j | 0 <= i < j < |order| :: order[i] != order[j]
  }

  function PairsOf<K(==), V>(m: map<K, V>, order: seq<K>): (ps: seq<(K, V)>)
    requires forall k | k in order :: k in m
    ensures |ps| == |order| && forall i | 0 <= i < |ps| :: ps[i] == (order[i], m[order[i]])
  {
    seq(|order|, i requires 0 <= i < |order| => assert order[i] in order; (order[i], m[order[i]]))
  }

  /** The map in which later pairs override earlier ones. */
  function Fold<K(==), V>(ps: seq<(K, V)>): map<K, V> {
    if ps == [] then map[] else Fold(ps[..|ps| - 1])[ps[|ps| - 1].0 := ps[|ps| - 1].1]
  }

  lemma FoldAppend<K, V>(ps: seq<(K, V)>, p: (K, V))
    ensures Fold(ps + [p]) == Fold(ps)[p.0 := p.1]
  {
    assert (ps + [p])[..|ps|] == ps;
  }

  lemma {:induction false} FoldOf<K(!new), V>(ps: seq<(K, V)>, m: map<K, V>)
    requires forall i | 0 <= i < |ps| :: ps[i].0 in m && m[ps[i].0] == ps[i].1
    ensures forall i | 0 <= i < |ps| :: ps[i].0 in Fold(ps)
    ensures forall k | k in Fold(ps) :: k in m && Fold(ps)[k] == m[k]
  {
    if ps != [] {
      var n := |ps| - 1;
      FoldOf(ps[..n], m);
      forall i | 0 <= i < |ps| ensures ps[i].0 in Fold(ps) {
        if i < n { assert ps[..n][i] == ps[i]; }
      }
    }
  }

  /** Whatever order the map was ranged over, folding the pairs gives it back. */
  lemma FoldPairsOf<K(!new), V>(m: map<K, V>, order: seq<K>)
    requires IsOrder(order, m)
    ensures Fold(PairsOf(m, order)) == m
  {
    var ps := PairsOf(m, order);
    FoldOf(ps, m);
    forall k | k in m ensures k in Fold(ps) {
      var i :| 0 <= i < |order| && order[i] == k;
      assert ps[i].0 == k;
    }
  }

  // ---------- Sums ----------

  /** The sum of `m` over `keys`, visited in some order. */
  ghost function Sum<K(!new)>(m: map<K, nat>, keys: set<K>): nat
    requires keys <= m.Keys
  {
    if keys == {} then 0
    else
      var k :| k in keys;
      m[k] + Sum(m, keys - {k})
  }

  /** The sum does not depend on the order in which the keys are visited. */
  lemma {:induction false} SumAny<K(!new)>(m: map<K, nat>, keys: set<K>, k: K)
    requires keys <= m.Keys && k in keys
    ensures Sum(m, keys) == m[k] + Sum(m, keys - {k})
  {
    var j :| j in keys && Sum(m, keys) == m[j] + Sum(m, keys - {j});
    if j != k {
      SumAny(m, keys - {j}, k);
      SumAny(m, keys - {k}, j);
      assert keys - {j} - {k} == keys - {k} - {j};
    }
  }

  lemma {:induction false} SumSame<K(!new)>(a: map<K, nat>, b: map<K, nat>, keys: set<K>)
    requires keys <= a.Keys && keys <= b.Keys && forall k | k in keys :: a[k] == b[k]
    ensures Sum(a, keys) == Sum(b, keys)
  {
    if keys != {} {
      var k :| k in keys;
      SumAny(a, keys, k);
      SumAny(b, keys, k);
      SumSame(a, b, keys - {k});
    }
  }
}
