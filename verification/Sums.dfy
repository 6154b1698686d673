/** Sums over finite maps. */
module Sums {

  ghost function Total(m: map<nat, nat>): nat
    decreases |m|
  {
    if m == map[] then 0
    else
      var k :| k in m;
      assert |m - {k}| < |m| by { assert (m - {k}).Keys == m.Keys - {k}; }
      m[k] + Total(m - {k})
  }

  lemma {:induction false} TotalSplits(m: map<nat, nat>, k: nat)
    requires k in m
    ensures Total(m) == m[k] + Total(m - {k})
    decreases |m|
  {
    var j :| j in m && Total(m) == m[j] + Total(m - {j});
    if j != k {
      assert (m - {j}).Keys == m.Keys - {j};
      TotalSplits(m - {j}, k);
      TotalOfSmaller(m, j, k);
    }
  }

  lemma {:induction false} TotalOfSmaller(m: map<nat, nat>, j: nat, k: nat)
    requires j in m && k in m && j != k
    ensures Total(m - {k}) == m[j] + Total(m - {j} - {k})
    decreases |m|, 0
  {
    assert (m - {k}).Keys == m.Keys - {k};
    assert m - {k} - {j} == m - {j} - {k};
    TotalSplits(m - {k}, j);
  }

  lemma TotalUpdates(m: map<nat, nat>, k: nat, v: nat)
    ensures Total(m[k := v]) == Total(m - {k}) + v
    ensures Total(m) == Total(m - {k}) + (if k in m then m[k] else 0)
  {
    TotalSplits(m[k := v], k);
    assert m[k := v] - {k} == m - {k};
    if k in m { TotalSplits(m, k); } else { assert m - {k} == m; }
  }

  lemma {:induction false} TotalIsMonotone(m: map<nat, nat>, n: map<nat, nat>)
    requires m.Keys <= n.Keys && forall k :: k in m ==> m[k] <= n[k]
    ensures Total(m) <= Total(n)
    decreases |m|
  {
    if m != map[] {
      var k :| k in m;
      assert (m - {k}).Keys == m.Keys - {k};
      TotalSplits(m, k);
      TotalSplits(n, k);
      TotalIsMonotone(m - {k}, n - {k});
    }
  }

  function Nonzero(m: map<nat, nat>): set<nat> {
    set k | k in m && m[k] > 0
  }

  lemma NonzeroSplits(m: map<nat, nat>, k: nat)
    requires k in m
    ensures |Nonzero(m)| == |Nonzero(m - {k})| + if m[k] > 0 then 1 else 0
  {
    assert Nonzero(m) - {k} == Nonzero(m - {k});
  }

  /** A sum is the sum of what exceeds one, plus the number of nonzero terms. */
  lemma {:induction false} TotalAsExcess(m: map<nat, nat>, n: map<nat, nat>)
    requires m.Keys == n.Keys && forall k :: k in m ==> n[k] == if m[k] == 0 then 0 else m[k] - 1
    ensures Total(m) == Total(n) + |Nonzero(m)|
    decreases |m|
  {
    if m == map[] {
      assert Nonzero(m) == {};
    } else {
      var k :| k in m;
      assert (m - {k}).Keys == m.Keys - {k};
      TotalSplits(m, k);
      TotalSplits(n, k);
      NonzeroSplits(m, k);
      TotalAsExcess(m - {k}, n - {k});
    }
  }
}
