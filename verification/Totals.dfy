/** Sums of weights over finite maps, for measures of the work that is left. */
module Totals {

  ghost function Total<K(!new)>(weights: map<K, nat>): nat
    decreases |weights|
  {
    if weights == map[] then 0
    else
      var k :| k in weights;
      weights[k] + Total(weights - {k})
  }

  lemma {:induction false} TotalWithout<K(!new)>(weights: map<K, nat>, k: K)
    requires k in weights
    ensures Total(weights) == weights[k] + Total(weights - {k})
    decreases |weights|
  {
    var j :| j in weights && Total(weights) == weights[j] + Total(weights - {j});
    if j != k {
      TotalWithout(weights - {j}, k);
      TotalWithout(weights - {k}, j);
      assert weights - {j} - {k} == weights - {k} - {j};
    }
  }

  lemma TotalUpdate<K(!new)>(weights: map<K, nat>, k: K, w: nat)
    ensures Total(weights[k := w]) == w + Total(weights - {k})
    ensures k in weights ==> Total(weights) == weights[k] + Total(weights - {k})
    ensures k !in weights ==> Total(weights - {k}) == Total(weights)
  {
    TotalWithout(weights[k := w], k);
    assert weights[k := w] - {k} == weights - {k};
    if k in weights {
      TotalWithout(weights, k);
    } else {
      assert weights - {k} == weights;
    }
  }
}
