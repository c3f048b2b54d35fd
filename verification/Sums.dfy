/** Sums over finite maps: the totals that a table column adds up to. */
module Sums {
  import opened Wrappers

  ghost function Sum(m: map<Uuid, int>): int {
    if m == map[] then 0
    else
      var k :| k in m;
      m[k] + Sum(m - {k})
  }

  /** The sum does not depend on the order in which keys are taken. */
  lemma {:induction false} SumRemove(m: map<Uuid, int>, k: Uuid)
    requires k in m
    ensures Sum(m) == m[k] + Sum(m - {k})
    decreases |m|
  {
    var j :| j in m && Sum(m) == m[j] + Sum(m - {j});
    if j != k {
      SumRemove(m - {j}, k);
      SumRemove(m - {k}, j);
      assert m - {j} - {k} == m - {k} - {j};
    }
  }

  lemma SumUpdate(m: map<Uuid, int>, k: Uuid, v: int)
    ensures Sum(m[k := v]) == Sum(m) - (if k in m then m[k] else 0) + v
  {
    SumRemove(m[k := v], k);
    if k in m {
      SumRemove(m, k);
      assert m[k := v] - {k} == m - {k};
    } else {
      assert m[k := v] - {k} == m;
    }
  }

  lemma {:induction false} SumOfZeros(m: map<Uuid, int>)
    requires forall k :: k in m ==> m[k] == 0
    ensures Sum(m) == 0
    decreases |m|
  {
    if m == map[] {
    } else {
      var k :| k in m && Sum(m) == m[k] + Sum(m - {k});
      SumOfZeros(m - {k});
    }
  }

  lemma {:induction false} SumNonNegative(m: map<Uuid, int>)
    requires forall k :: k in m ==> m[k] >= 0
    ensures Sum(m) >= 0
    decreases |m|
  {
    if m == map[] {
    } else {
      var k :| k in m && Sum(m) == m[k] + Sum(m - {k});
      SumNonNegative(m - {k});
    }
  }

  /** A sum of non-negative amounts is zero only when every amount is. */
  lemma SumZeroIff(m: map<Uuid, int>)
    requires forall k :: k in m ==> m[k] >= 0
    ensures Sum(m) == 0 <==> forall k :: k in m ==> m[k] == 0
  {
    if Sum(m) == 0 {
      forall k | k in m
        ensures m[k] == 0
      {
        SumRemove(m, k);
        SumNonNegative(m - {k});
      }
    } else if forall k :: k in m ==> m[k] == 0 {
      SumOfZeros(m);
    }
  }
}
