/** Sums over finite maps, and sizes of sets. */
module Sums {
  lemma SubsetSize<T>(a: set<T>, b: set<T>)
    requires a <= b
    ensures |a| <= |b|
  {
    assert b == a + (b - a);
  }

  ghost function Sum(m: map<nat, int>): int {
    if m == map[] then 0
    else
      var k :| k in m;
      m[k] + Sum(m - {k})
  }

  /** The sum does not depend on the order in which the keys are taken. */
  lemma {:induction false} SumWithout(m: map<nat, int>, k: nat)
    requires k in m
    ensures Sum(m) == m[k] + Sum(m - {k})
    decreases |m|
  {
    var j :| j in m && Sum(m) == m[j] + Sum(m - {j});
    if j != k {
      SumWithout(m - {j}, k);
      SumWithout(m - {k}, j);
      assert m - {j} - {k} == m - {k} - {j};
    }
  }

  /** f pairs the keys of a with the keys of b one to one, and the values are equal. */
  predicate Matches(a: map<nat, int>, b: map<nat, int>, f: map<nat, nat>) {
    && f.Keys == a.Keys && f.Values == b.Keys
    && (forall i, j :: i in f && j in f && f[i] == f[j] ==> i == j)
    && forall i :: i in f ==> f[i] in b && a[i] == b[f[i]]
  }

  lemma MatchesWithout(a: map<nat, int>, b: map<nat, int>, f: map<nat, nat>, i: nat)
    requires Matches(a, b, f) && i in a
    ensures Matches(a - {i}, b - {f[i]}, f - {i})
  {
    var g := f - {i};
    forall y | y in b && y != f[i] ensures y in g.Values {
      assert y in f.Values;
      var x :| x in f && f[x] == y;
      assert x in g && g[x] == y;
    }
  }

  lemma SizeWithout(m: map<nat, int>, k: nat)
    requires k in m
    ensures |m| == |m - {k}| + 1
  {
  }

  lemma MatchesEmpty(b: map<nat, int>, f: map<nat, nat>)
    requires Matches(map[], b, f)
    ensures b == map[]
  {
  }

  /** Matching maps have equal sums and sizes. */
  lemma {:induction false} SumBijection(a: map<nat, int>, b: map<nat, int>, f: map<nat, nat>)
    requires Matches(a, b, f)
    ensures Sum(a) == Sum(b) && |a| == |b|
    decreases |a|
  {
    if a == map[] {
      MatchesEmpty(b, f);
    } else {
      var i :| i in a;
      var j, x := f[i], a[i];
      assert j in b && b[j] == x;
      MatchesWithout(a, b, f, i);
      var a', b' := a - {i}, b - {j};
      assert |a| == |a'| + 1 && |b| == |b'| + 1 by {
        SizeWithout(a, i);
        SizeWithout(b, j);
      }
      assert Sum(a) == x + Sum(a') && Sum(b) == x + Sum(b') by {
        SumWithout(a, i);
        SumWithout(b, j);
      }
      SumBijection(a', b', f - {i});
    }
  }
}
