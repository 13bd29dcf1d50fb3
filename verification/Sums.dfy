/** Sums over table rows. */
module Sums {

  /** Sum of a numeric column. */
  ghost function Total<K>(column: map<K, int>): int {
    if column == map[] then 0
    else
      var k :| k in column;
      column[k] + Total(column - {k})
  }

  /** The sum does not depend on the order in which rows are read. */
  lemma {:induction false} TotalWithout<K>(column: map<K, int>, k: K)
    requires k in column
    ensures Total(column) == column[k] + Total(column - {k})
  {
    var j :| j in column && Total(column) == column[j] + Total(column - {j});
    if j != k {
      TotalWithout(column - {j}, k);
      TotalWithout(column - {k}, j);
      assert column - {j} - {k} == column - {k} - {j};
    }
  }

  lemma TotalInsert<K>(column: map<K, int>, k: K, v: int)
    requires k !in column
    ensures Total(column[k := v]) == Total(column) + v
  {
    TotalWithout(column[k := v], k);
    assert column[k := v] - {k} == column;
  }

  lemma TotalUpdate<K>(column: map<K, int>, k: K, v: int)
    requires k in column
    ensures Total(column[k := v]) == Total(column) - column[k] + v
  {
    TotalWithout(column, k);
    TotalWithout(column[k := v], k);
    assert column[k := v] - {k} == column - {k};
  }

  lemma {:induction false} TotalZero<K>(column: map<K, int>)
    requires forall k :: k in column ==> column[k] == 0
    ensures Total(column) == 0
  {
    if column != map[] {
      var k :| k in column;
      TotalWithout(column, k);
      TotalZero(column - {k});
    }
  }

  /** A one-to-one renaming of the rows keeps the sum. */
  lemma {:induction false} TotalRenamed(a: map<nat, int>, b: map<nat, int>, to: map<nat, nat>)
    requires to.Keys == a.Keys
    requires forall k :: k in a ==> to[k] in b && b[to[k]] == a[k]
    requires forall j, k :: j in a && k in a && to[j] == to[k] ==> j == k
    requires forall l :: l in b ==> exists k :: k in a && to[k] == l
    ensures Total(a) == Total(b)
  {
    if a == map[] {
      assert b == map[];
    } else {
      var k :| k in a;
      TotalWithout(a, k);
      TotalWithout(b, to[k]);
      var a', b', to' := a - {k}, b - {to[k]}, to - {k};
      forall l | l in b' ensures exists j :: j in a' && to'[j] == l {
        var j :| j in a && to[j] == l;
        assert j in a' && to'[j] == l;
      }
      TotalRenamed(a', b', to');
    }
  }
}
