/** Sums over finite maps, by removal of one key at a time, and sizes of finite sets. */
module MapSum {

  ghost function Pick(m: map<nat, int>): (k: nat)
    requires m != map[]
    ensures k in m
  {
    var k :| k in m;
    k
  }

  /** The sum of a map's values. */
  ghost function Sum(m: map<nat, int>): int
    decreases |m|
  {
    if m == map[] then 0 else m[Pick(m)] + Sum(m - {Pick(m)})
  }

  /** Any key may be taken out first. */
  lemma {:induction false} SumRemove(m: map<nat, int>, k: nat)
    requires k in m
    ensures Sum(m) == m[k] + Sum(m - {k})
    decreases |m|
  {
    var c := Pick(m);
    if c != k {
      SumRemove(m - {c}, k);
      SumRemove(m - {k}, c);
      assert m - {c} - {k} == m - {k} - {c};
    }
  }

  lemma SumUpdate(m: map<nat, int>, k: nat, v: int)
    ensures Sum(m[k := v]) == Sum(m) + v - (if k in m then m[k] else 0)
  {
    SumRemove(m[k := v], k);
    if k in m {
      SumRemove(m, k);
      assert m[k := v] - {k} == m - {k};
    } else {
      assert m[k := v] - {k} == m;
    }
  }

  /** More keys and larger values, all of them non-negative, make a larger sum. */
  lemma {:induction false} SumMonotone(a: map<nat, int>, b: map<nat, int>)
    requires a.Keys <= b.Keys
    requires forall k :: k in a ==> a[k] <= b[k]
    requires forall k :: k in b ==> 0 <= b[k]
    ensures Sum(a) <= Sum(b)
    decreases |b|
  {
    if b != map[] {
      var k := Pick(b);
      if k in a {
        SumRemove(a, k);
        SumMonotone(a - {k}, b - {k});
      } else {
        assert a - {k} == a;
        SumMonotone(a, b - {k});
      }
    } else {
      assert a == map[];
    }
  }

  lemma SumAtLeast(m: map<nat, int>, k: nat)
    requires k in m
    requires forall j :: j in m ==> 0 <= m[j]
    ensures m[k] <= Sum(m)
  {
    SumRemove(m, k);
    assert Sum(map[]) == 0;
    SumMonotone(map[], m - {k});
  }

  lemma SumAtLeastTwo(m: map<nat, int>, j: nat, k: nat)
    requires j in m && k in m && j != k
    requires forall i :: i in m ==> 0 <= m[i]
    ensures m[j] + m[k] <= Sum(m)
  {
    SumRemove(m, k);
    SumAtLeast(m - {k}, j);
  }

  lemma SumNonNegative(m: map<nat, int>)
    requires forall j :: j in m ==> 0 <= m[j]
    ensures 0 <= Sum(m)
  {
    assert Sum(map[]) == 0;
    SumMonotone(map[], m);
  }

  lemma {:induction false} SumZero(m: map<nat, int>)
    requires forall k :: k in m ==> m[k] == 0
    ensures Sum(m) == 0
    decreases |m|
  {
    if m != map[] {
      SumZero(m - {Pick(m)});
    }
  }

  lemma SubsetSize<T>(a: set<T>, b: set<T>)
    requires a <= b
    ensures |a| <= |b| && (a != b ==> |a| < |b|)
  {
    assert b == a + (b - a);
    assert |b| == |a| + |b - a|;
  }
}
