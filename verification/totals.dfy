/** Order-free sums over finite maps.  The ledger keeps its postings and its
    transfers in hash maps, so every balance is a sum whose iteration order is
    unspecified; `Total` is that sum and the lemmas below are its algebra. */
module Totals {

  ghost function Pick<K>(m: map<K, int>): (k: K)
    requires m != map[]
    ensures k in m
  {
    var k :| k in m; k
  }

  ghost function Total<K>(m: map<K, int>): (t: int)
    decreases |m|
  {
    if m == map[] then 0 else m[Pick(m)] + Total(m - {Pick(m)})
  }

  /** The sum does not depend on which key is taken out first. */
  lemma {:induction false} TotalRemove<K>(m: map<K, int>, k: K)
    requires k in m
    ensures Total(m) == m[k] + Total(m - {k})
    decreases |m|
  {
    var j := Pick(m);
    if j != k {
      TotalRemove(m - {j}, k);
      TotalRemove(m - {k}, j);
      assert m - {j} - {k} == m - {k} - {j};
    }
  }

  lemma TotalInsert<K>(m: map<K, int>, k: K, v: int)
    requires k !in m
    ensures Total(m[k := v]) == Total(m) + v
  {
    TotalRemove(m[k := v], k);
    assert m[k := v] - {k} == m;
  }

  /** Keys that carry zero may be dropped from the domain. */
  lemma {:induction false} TotalRestrict<K>(m: map<K, int>, n: map<K, int>)
    requires forall k :: k in n ==> k in m && n[k] == m[k]
    requires forall k :: k in m && k !in n ==> m[k] == 0
    ensures Total(m) == Total(n)
    decreases |m|
  {
    if k :| k in m {
      TotalRemove(m, k);
      if k in n {
        TotalRemove(n, k);
        TotalRestrict(m - {k}, n - {k});
      } else {
        TotalRestrict(m - {k}, n);
      }
    } else {
      assert n == m;
    }
  }

  lemma {:induction false} TotalZero<K>(m: map<K, int>)
    requires forall k :: k in m ==> m[k] == 0
    ensures Total(m) == 0
  {
    TotalRestrict(m, map[]);
  }

  /** A sum of non-negative amounts is at least any part of it. */
  lemma {:induction false} TotalMonotone<K>(m: map<K, int>, n: map<K, int>)
    requires forall k :: k in n ==> k in m && n[k] == m[k]
    requires forall k :: k in m ==> 0 <= m[k]
    ensures 0 <= Total(n) <= Total(m)
    decreases |m|
  {
    if k :| k in m {
      TotalRemove(m, k);
      if k in n {
        TotalRemove(n, k);
        TotalMonotone(m - {k}, n - {k});
      } else {
        TotalMonotone(m - {k}, n);
      }
    } else {
      assert n == m;
    }
  }

  /** A sum over two disjoint parts of the keys is the sum of the two sums. */
  lemma {:induction false} TotalSplit<K>(m: map<K, int>, l: map<K, int>, r: map<K, int>)
    requires forall k :: k in m ==> (k in l <==> k !in r)
    requires forall k :: k in l ==> k in m && l[k] == m[k]
    requires forall k :: k in r ==> k in m && r[k] == m[k]
    ensures Total(m) == Total(l) + Total(r)
    decreases |m|
  {
    if k :| k in m {
      TotalRemove(m, k);
      if k in l {
        TotalRemove(l, k);
        TotalSplit(m - {k}, l - {k}, r);
      } else {
        TotalRemove(r, k);
        TotalSplit(m - {k}, l, r - {k});
      }
    } else {
      assert m == map[] && l == map[] && r == map[];
    }
  }
}
