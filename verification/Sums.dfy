/** Sums over the values of a finite map: what SQL's sum() computes over a keyed table. */
module Sums {
  ghost function Total(m: map<nat, int>): int
    decreases |m|
  {
    if m == map[] then 0
    else
      var k :| k in m;
      m[k] + Total(m - {k})
  }

  /** The sum does not depend on the order in which rows are visited. */
  lemma {:induction false} TotalRemove(m: map<nat, int>, k: nat)
    requires k in m
    ensures Total(m) == m[k] + Total(m - {k})
    decreases |m|
  {
    var j :| j in m && Total(m) == m[j] + Total(m - {j});
    if j != k {
      TotalRemove(m - {j}, k);
      TotalRemove(m - {k}, j);
      assert m - {j} - {k} == m - {k} - {j};
    }
  }

  lemma TotalPut(m: map<nat, int>, k: nat, v: int)
    ensures Total(m[k := v]) == Total(m) + v - (if k in m then m[k] else 0)
  {
    TotalRemove(m[k := v], k);
    assert m[k := v] - {k} == m - {k};
    if k in m {
      TotalRemove(m, k);
    } else {
      assert m - {k} == m;
    }
  }

  lemma {:induction false} TotalNonNegative(m: map<nat, int>)
    requires forall k :: k in m ==> 0 <= m[k]
    ensures 0 <= Total(m)
    decreases |m|
  {
    if m != map[] {
      var k :| k in m;
      TotalRemove(m, k);
      TotalNonNegative(m - {k});
    }
  }

  lemma {:induction false} TotalOfZeros(m: map<nat, int>)
    requires forall k :: k in m ==> m[k] == 0
    ensures Total(m) == 0
    decreases |m|
  {
    if m != map[] {
      var k :| k in m;
      TotalRemove(m, k);
      TotalOfZeros(m - {k});
    }
  }

  lemma TotalAtLeastOne(m: map<nat, int>, k: nat)
    requires k in m && forall i :: i in m ==> 0 <= m[i]
    ensures m[k] <= Total(m)
  {
    TotalRemove(m, k);
    TotalNonNegative(m - {k});
  }

  lemma TotalAtLeastTwo(m: map<nat, int>, j: nat, k: nat)
    requires j in m && k in m && j != k && forall i :: i in m ==> 0 <= m[i]
    ensures m[j] + m[k] <= Total(m)
  {
    TotalRemove(m, j);
    TotalAtLeastOne(m - {j}, k);
  }

  /** The sum of f over the rows of an append-only table. */
  ghost function SumBy<T>(s: seq<T>, f: T -> int): int {
    if s == [] then 0 else SumBy(s[..|s| - 1], f) + f(s[|s| - 1])
  }

  lemma SumByAppend<T>(s: seq<T>, x: T, f: T -> int)
    ensures SumBy(s + [x], f) == SumBy(s, f) + f(x)
  {
    assert (s + [x])[..|s|] == s;
  }

  lemma {:induction false} SumByConcat<T>(a: seq<T>, b: seq<T>, f: T -> int)
    ensures SumBy(a + b, f) == SumBy(a, f) + SumBy(b, f)
  {
    if b == [] {
      assert a + b == a;
    } else {
      assert a + b == (a + b[..|b| - 1]) + [b[|b| - 1]];
      SumByAppend(a + b[..|b| - 1], b[|b| - 1], f);
      SumByConcat(a, b[..|b| - 1], f);
    }
  }

  /** The sum does not depend on the order of the rows. */
  lemma {:induction false} SumByPermutation<T>(a: seq<T>, b: seq<T>, f: T -> int)
    requires multiset(a) == multiset(b)
    ensures SumBy(a, f) == SumBy(b, f)
  {
    if a == [] {
      assert |multiset(b)| == |b|;
    } else {
      var front, last := a[..|a| - 1], a[|a| - 1];
      assert a == front + [last];
      assert last in multiset(a);
      var i :| 0 <= i < |b| && b[i] == last;
      assert b == b[..i] + [last] + b[i + 1..];
      assert multiset(front) == multiset(a) - multiset{last};
      assert multiset(b[..i] + b[i + 1..]) == multiset(b) - multiset{last};
      SumByPermutation(front, b[..i] + b[i + 1..], f);
      SumByConcat(b[..i], b[i + 1..], f);
      SumByAppend(b[..i], last, f);
      SumByConcat(b[..i] + [last], b[i + 1..], f);
    }
  }
}
