/** Totals over the rows of a table: the sum of a finite map's values, restricted to the keys a predicate selects. */
module Sums {

  ghost function Pick<K>(m: map<K, int>): (k: K)
    requires |m| > 0
    ensures k in m
  {
    var k :| k in m;
    k
  }

  /** The sum of m's values over the keys p selects. */
  ghost function SumWhere<K>(m: map<K, int>, p: K -> bool): int
    decreases |m|
  {
    if |m| == 0 then 0
    else
      var k := Pick(m);
      (if p(k) then m[k] else 0) + SumWhere(m - {k}, p)
  }

  lemma {:induction false} SumTake<K>(m: map<K, int>, p: K -> bool, k: K)
    requires k in m
    ensures SumWhere(m, p) == (if p(k) then m[k] else 0) + SumWhere(m - {k}, p)
    decreases |m|
  {
    var k0 := Pick(m);
    if k != k0 {
      SumTake(m - {k0}, p, k);
      SumTake(m - {k}, p, k0);
      assert m - {k0} - {k} == m - {k} - {k0};
    }
  }

  /** Setting aside any key, present or not. */
  lemma SumAside<K>(m: map<K, int>, p: K -> bool, k: K)
    ensures SumWhere(m, p) == (if k in m && p(k) then m[k] else 0) + SumWhere(m - {k}, p)
  {
    if k in m {
      SumTake(m, p, k);
    } else {
      assert m - {k} == m;
    }
  }

  lemma SumAdd<K>(m: map<K, int>, p: K -> bool, k: K, v: int)
    requires k !in m
    ensures SumWhere(m[k := v], p) == SumWhere(m, p) + (if p(k) then v else 0)
  {
    SumTake(m[k := v], p, k);
    assert m[k := v] - {k} == m;
  }

  lemma PutTwice<K>(m: map<K, int>, k: K, v: int)
    ensures (m - {k})[k := v] == m[k := v]
  {
  }

  lemma SumPut<K>(m: map<K, int>, p: K -> bool, k: K, v: int)
    ensures SumWhere(m[k := v], p)
         == SumWhere(m, p) + (if p(k) then v - (if k in m then m[k] else 0) else 0)
  {
    SumAdd(m - {k}, p, k, v);
    PutTwice(m, k, v);
    SumAside(m, p, k);
  }

  /** A predicate that splits p into q and r splits the sum. */
  lemma {:induction false} SumSplit<K>(m: map<K, int>, p: K -> bool, q: K -> bool, r: K -> bool)
    requires forall k :: k in m ==> (p(k) <==> q(k) || r(k)) && !(q(k) && r(k))
    ensures SumWhere(m, p) == SumWhere(m, q) + SumWhere(m, r)
    decreases |m|
  {
    if |m| > 0 {
      SumSplit(m - {Pick(m)}, p, q, r);
    }
  }

  lemma {:induction false} SumNone<K>(m: map<K, int>, p: K -> bool)
    requires forall k :: k in m ==> !p(k)
    ensures SumWhere(m, p) == 0
    decreases |m|
  {
    if |m| > 0 {
      SumNone(m - {Pick(m)}, p);
    }
  }

  /** Two tables with the same selected rows have the same selected sum. */
  lemma {:induction false} SumSame<K>(a: map<K, int>, b: map<K, int>, p: K -> bool)
    requires forall k :: k in a && p(k) ==> k in b && a[k] == b[k]
    requires forall k :: k in b && p(k) ==> k in a
    ensures SumWhere(a, p) == SumWhere(b, p)
    decreases |a|
  {
    if |a| == 0 {
      SumNone(b, p);
    } else {
      var k := Pick(a);
      if p(k) {
        SumTake(b, p, k);
        SumSame(a - {k}, b - {k}, p);
      } else {
        SumSame(a - {k}, b, p);
      }
    }
  }

  /** Predicates that agree on m's keys select the same sum. */
  lemma {:induction false} SumAgree<K>(m: map<K, int>, p: K -> bool, q: K -> bool)
    requires forall k :: k in m ==> p(k) == q(k)
    ensures SumWhere(m, p) == SumWhere(m, q)
    decreases |m|
  {
    if |m| > 0 {
      SumAgree(m - {Pick(m)}, p, q);
    }
  }

  /** The same rows under other names have the same selected sum. */
  lemma {:induction false} SumRename<J, K>(a: map<J, int>, b: map<K, int>, f: J -> K, p: J -> bool, q: K -> bool)
    requires forall i, j :: i in a && j in a && f(i) == f(j) ==> i == j
    requires forall j :: j in a ==> f(j) in b && b[f(j)] == a[j] && p(j) == q(f(j))
    requires forall k :: k in b && q(k) ==> exists j :: j in a && f(j) == k
    ensures SumWhere(a, p) == SumWhere(b, q)
    decreases |a|
  {
    if |a| == 0 {
      SumNone(b, q);
    } else {
      var j := Pick(a);
      SumTake(b, q, f(j));
      forall k | k in b - {f(j)} && q(k) ensures exists i :: i in a - {j} && f(i) == k {
        var i :| i in a && f(i) == k;
        assert i in a - {j};
      }
      SumRename(a - {j}, b - {f(j)}, f, p, q);
    }
  }
}
