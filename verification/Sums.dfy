/** Finite sums over tables. A table is viewed as a map from its primary key to the amount
    that one row contributes, so "the sum over the table" never depends on a row order. */
module Sums {

  datatype Option<+T> = None | Some(value: T)

  /** Sum of an integer column. */
  ghost function Sum<K>(m: map<K, int>): int {
    if m == map[] then 0 else
      var k :| k in m;
      m[k] + Sum(m - {k})
  }

  lemma {:induction false} SumRemove<K>(m: map<K, int>, k: K)
    requires k in m
    ensures Sum(m) == m[k] + Sum(m - {k})
  {
    var j :| j in m && Sum(m) == m[j] + Sum(m - {j});
    if j != k {
      SumRemove(m - {j}, k);
      SumRemove(m - {k}, j);
      assert m - {j} - {k} == m - {k} - {j};
    }
  }

  /** Writing one row changes the sum by exactly that row's change. */
  lemma SumUpdate<K>(m: map<K, int>, k: K, v: int)
    ensures Sum(m[k := v]) == Sum(m) - (if k in m then m[k] else 0) + v
  {
    SumRemove(m[k := v], k);
    assert m[k := v] - {k} == m - {k};
    if k in m {
      SumRemove(m, k);
    } else {
      assert m - {k} == m;
    }
  }

  lemma {:induction false} SumNonNegative<K>(m: map<K, int>)
    requires forall k <- m :: m[k] >= 0
    ensures Sum(m) >= 0
    ensures forall k <- m :: m[k] <= Sum(m)
  {
    if m != map[] {
      var j :| j in m && Sum(m) == m[j] + Sum(m - {j});
      SumNonNegative(m - {j});
      forall k <- m ensures m[k] <= Sum(m) {
        if k != j {
          assert (m - {j})[k] == m[k];
        }
      }
    }
  }

  lemma {:induction false} SumZero<K>(m: map<K, int>)
    requires forall k <- m :: m[k] == 0
    ensures Sum(m) == 0
  {
    if m != map[] {
      var j :| j in m && Sum(m) == m[j] + Sum(m - {j});
      SumZero(m - {j});
    }
  }

  /** Sum of a real column, used for vote weights. */
  ghost function RealSum<K>(m: map<K, real>): real {
    if m == map[] then 0.0 else
      var k :| k in m;
      m[k] + RealSum(m - {k})
  }

  lemma {:induction false} RealSumRemove<K>(m: map<K, real>, k: K)
    requires k in m
    ensures RealSum(m) == m[k] + RealSum(m - {k})
  {
    var j :| j in m && RealSum(m) == m[j] + RealSum(m - {j});
    if j != k {
      RealSumRemove(m - {j}, k);
      RealSumRemove(m - {k}, j);
      assert m - {j} - {k} == m - {k} - {j};
    }
  }

  lemma RealSumUpdate<K>(m: map<K, real>, k: K, v: real)
    ensures RealSum(m[k := v]) == RealSum(m) - (if k in m then m[k] else 0.0) + v
  {
    RealSumRemove(m[k := v], k);
    assert m[k := v] - {k} == m - {k};
    if k in m {
      RealSumRemove(m, k);
    } else {
      assert m - {k} == m;
    }
  }

  lemma {:induction false} RealSumNonNegative<K>(m: map<K, real>)
    requires forall k <- m :: m[k] >= 0.0
    ensures RealSum(m) >= 0.0
    ensures forall k <- m :: m[k] <= RealSum(m)
  {
    if m != map[] {
      var j :| j in m && RealSum(m) == m[j] + RealSum(m - {j});
      RealSumNonNegative(m - {j});
      forall k <- m ensures m[k] <= RealSum(m) {
        if k != j {
          assert (m - {j})[k] == m[k];
        }
      }
    }
  }

  lemma {:induction false} RealSumZero<K>(m: map<K, real>)
    requires forall k <- m :: m[k] == 0.0
    ensures RealSum(m) == 0.0
  {
    if m != map[] {
      var j :| j in m && RealSum(m) == m[j] + RealSum(m - {j});
      RealSumZero(m - {j});
    }
  }
}
