/** Sums of integer values over a finite map, the shape in which the model
    adds up the values of the holdings of a portfolio and the contributions
    of the flows registered on a balance: the sum does not depend on the
    order in which the keys are visited. */
module Sommes {

  /** The sum of the values of m, visiting its keys in an arbitrary order. */
  ghost function Somme<K>(m: map<K, int>): int
    decreases m.Keys
  {
    if m == map[] then 0
    else
      var k :| k in m;
      m[k] + Somme(m - {k})
  }

  /** Any key may be taken out first: the sum is order-independent. */
  lemma {:induction false} SommeRetrait<K>(m: map<K, int>, k: K)
    requires k in m
    ensures Somme(m) == m[k] + Somme(m - {k})
    decreases m.Keys
  {
    var j :| j in m && Somme(m) == m[j] + Somme(m - {j});
    if j != k {
      SommeRetrait(m - {j}, k);
      SommeRetrait(m - {k}, j);
      assert m - {j} - {k} == m - {k} - {j};
    }
  }

  /** Adding a new key adds its value to the sum. */
  lemma SommeAjout<K>(m: map<K, int>, k: K, v: int)
    requires k !in m
    ensures Somme(m[k := v]) == Somme(m) + v
  {
    SommeRetrait(m[k := v], k);
    assert m[k := v] - {k} == m;
  }

  /** Keys whose value is zero do not change the sum. */
  lemma {:induction false} SommeSansZeros<K>(m: map<K, int>, z: set<K>)
    requires forall k :: k in z && k in m ==> m[k] == 0
    ensures Somme(m) == Somme(m - z)
    decreases z
  {
    if k :| k in z {
      SommeSansZeros(m, z - {k});
      if k in m - (z - {k}) {
        SommeRetrait(m - (z - {k}), k);
      }
      assert m - (z - {k}) - {k} == m - z;
      assert k !in m - (z - {k}) ==> m - (z - {k}) == m - z;
    } else {
      assert m - z == m;
    }
  }
}
