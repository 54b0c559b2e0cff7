// Sums over finite maps: of naturals for ledgers and shares, of reals for interest claims.

module Sums {

  // ---------- naturals ----------

  ghost function Sum<K>(m: map<K, nat>): nat
  {
    if m == map[] then 0
    else
      var k :| k in m;
      m[k] + Sum(m - {k})
  }

  /** Any key may be taken out first. */
  lemma {:induction false} SumPick<K>(m: map<K, nat>, k: K)
    requires k in m
    ensures Sum(m) == m[k] + Sum(m - {k})
    decreases m
  {
    var j :| j in m && Sum(m) == m[j] + Sum(m - {j});
    if j != k {
      SumPick(m - {j}, k);
      SumPick(m - {k}, j);
      assert m - {j} - {k} == m - {k} - {j};
    }
  }

  /** Writing one key moves the sum by the difference; a missing key counts as zero. */
  lemma SumUpdate<K>(m: map<K, nat>, k: K, v: nat)
    ensures Sum(m[k := v]) + (if k in m then m[k] else 0) == Sum(m) + v
  {
    SumPick(m[k := v], k);
    assert m[k := v] - {k} == m - {k};
    if k in m {
      SumPick(m, k);
    } else {
      assert m - {k} == m;
    }
  }

  lemma SumAtLeast<K>(m: map<K, nat>, k: K)
    requires k in m
    ensures m[k] <= Sum(m)
  {
  }

  lemma {:induction false} SumOfZeros<K>(m: map<K, nat>)
    requires forall k | k in m :: m[k] == 0
    ensures Sum(m) == 0
    decreases m
  {
    if m != map[] {
      var k :| k in m;
      SumPick(m, k);
      SumOfZeros(m - {k});
    }
  }

  // ---------- reals ----------

  ghost function RealSum<K>(m: map<K, real>): real
  {
    if m == map[] then 0.0
    else
      var k :| k in m;
      m[k] + RealSum(m - {k})
  }

  lemma {:induction false} RealSumPick<K>(m: map<K, real>, k: K)
    requires k in m
    ensures RealSum(m) == m[k] + RealSum(m - {k})
    decreases m
  {
    var j :| j in m && RealSum(m) == m[j] + RealSum(m - {j});
    if j != k {
      RealSumPick(m - {j}, k);
      RealSumPick(m - {k}, j);
      assert m - {j} - {k} == m - {k} - {j};
    }
  }

  lemma RealSumUpdate<K>(m: map<K, real>, k: K, v: real)
    ensures RealSum(m[k := v]) == RealSum(m) + v - (if k in m then m[k] else 0.0)
  {
    RealSumPick(m[k := v], k);
    assert m[k := v] - {k} == m - {k};
    if k in m {
      RealSumPick(m, k);
    } else {
      assert m - {k} == m;
    }
  }

  lemma RealSumRemove<K>(m: map<K, real>, k: K)
    ensures RealSum(m - {k}) == RealSum(m) - (if k in m then m[k] else 0.0)
  {
    if k in m {
      RealSumPick(m, k);
    } else {
      assert m - {k} == m;
    }
  }

  lemma RealSumAtLeast<K>(m: map<K, real>, k: K)
    requires k in m && forall j | j in m :: m[j] >= 0.0
    ensures m[k] <= RealSum(m)
  {
    RealSumPick(m, k);
    RealSumNonNegative(m - {k});
  }

  lemma {:induction false} RealSumNonNegative<K>(m: map<K, real>)
    requires forall k | k in m :: m[k] >= 0.0
    ensures RealSum(m) >= 0.0
    decreases m
  {
    if m != map[] {
      var k :| k in m;
      RealSumPick(m, k);
      RealSumNonNegative(m - {k});
    }
  }
}
