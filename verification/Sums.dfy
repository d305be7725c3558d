/** The sum of the values of a finite map. */
module Sums {
  ghost function Sum(m: map<nat, int>): int {
    if m == map[] then 0 else
      var k :| k in m;
      m[k] + Sum(m - {k})
  }

  /** The sum does not depend on the order of summation. */
  lemma {:induction false} SumWithout(m: map<nat, int>, k: nat)
    requires k in m
    ensures Sum(m) == m[k] + Sum(m - {k})
  {
    var i :| i in m && Sum(m) == m[i] + Sum(m - {i});
    if i != k {
      SumWithout(m - {i}, k);
      SumWithout(m - {k}, i);
      assert m - {i} - {k} == m - {k} - {i};
    }
  }

  lemma SumInsert(m: map<nat, int>, k: nat, t: int)
    requires k !in m
    ensures Sum(m[k := t]) == t + Sum(m)
  {
    SumWithout(m[k := t], k);
    assert m[k := t] - {k} == m;
  }

  function Restrict(m: map<nat, int>, keys: set<nat>): map<nat, int> { map k | k in m && k in keys :: m[k] }

  /** The entries with some keys, and the others. */
  lemma {:induction false} SumSplit(m: map<nat, int>, keys: set<nat>)
    ensures Sum(m) == Sum(m - keys) + Sum(Restrict(m, keys))
    decreases m
  {
    if k :| k in m && k in keys {
      SumSplit(m - {k}, keys);
      SumWithout(m, k);
      SumWithout(Restrict(m, keys), k);
      assert m - {k} - keys == m - keys;
      assert Restrict(m - {k}, keys) == Restrict(m, keys) - {k};
    } else {
      assert m - keys == m && Restrict(m, keys) == map[];
    }
  }

  /** Lowering entries, or dropping some that are not negative, lowers the sum. */
  lemma {:induction false} SumLess(m: map<nat, int>, n: map<nat, int>)
    requires forall k | k in n :: k in m && n[k] <= m[k]
    requires forall k | k in m :: 0 <= m[k]
    ensures Sum(n) <= Sum(m)
  {
    if m == map[] {
      assert n == map[];
    } else {
      var k :| k in m;
      SumWithout(m, k);
      SumLess(m - {k}, n - {k});
      if k in n { SumWithout(n, k); } else { assert n - {k} == n; }
    }
  }
}
