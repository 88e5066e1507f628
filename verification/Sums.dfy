/** Finite sums over maps: the value of SQL's `SUM` over a table, and how it
    moves when a row is inserted, removed or kept. */
module Sums {

  datatype Option<+T> = None | Some(value: T)

  /** The sum of all values of `m`. */
  ghost function Sum<K>(m: map<K, nat>): nat
    decreases |m|
  {
    if m == map[] then 0 else
      var k :| k in m;
      assert (m - {k}).Keys == m.Keys - {k};
      m[k] + Sum(m - {k})
  }

  /** `a` is contained in `b`, value by value not larger. */
  ghost predicate Below<K>(a: map<K, nat>, b: map<K, nat>) {
    forall k :: k in a ==> k in b && a[k] <= b[k]
  }

  /** The sum does not depend on the order in which keys are taken. */
  lemma {:induction false} SumTake<K>(m: map<K, nat>, k: K)
    requires k in m
    ensures Sum(m) == m[k] + Sum(m - {k})
    decreases |m|
  {
    var c :| c in m && Sum(m) == m[c] + Sum(m - {c});
    if c != k {
      assert (m - {c}).Keys == m.Keys - {c};
      assert (m - {k}).Keys == m.Keys - {k};
      SumTake(m - {c}, k);
      SumTake(m - {k}, c);
      assert m - {c} - {k} == m - {k} - {c};
    }
  }

  lemma {:induction false} SomeKey<K>(m: map<K, nat>) returns (k: K)
    requires Sum(m) > 0
    ensures k in m
  {
    k :| k in m;
  }

  lemma SumPut<K>(m: map<K, nat>, k: K, v: nat)
    ensures k !in m ==> Sum(m[k := v]) == Sum(m) + v
    ensures k in m ==> Sum(m[k := v]) == Sum(m) - m[k] + v
    ensures |m[k := v]| == |m| + if k in m then 0 else 1
  {
    SumTake(m[k := v], k);
    if k in m {
      SumTake(m, k);
      assert m[k := v] - {k} == m - {k};
    } else {
      assert m[k := v] - {k} == m;
    }
  }

  lemma SumDrop<K>(m: map<K, nat>, k: K)
    ensures k in m ==> Sum(m - {k}) == Sum(m) - m[k] && |m - {k}| == |m| - 1
    ensures k !in m ==> m - {k} == m
  {
    if k in m {
      SumTake(m, k);
      assert (m - {k}).Keys == m.Keys - {k};
    }
  }

  lemma {:induction false} SumBelow<K>(a: map<K, nat>, b: map<K, nat>)
    requires Below(a, b)
    ensures Sum(a) <= Sum(b) && |a| <= |b|
    decreases |a|
  {
    if a != map[] {
      var k :| k in a;
      SumDrop(a, k);
      SumDrop(b, k);
      SumBelow(a - {k}, b - {k});
    }
  }

  /** One step of merging `b` into `a`, key by key. */
  lemma MergeOne<K>(a: map<K, nat>, b: map<K, nat>, k: K)
    requires k in b
    ensures a + b == (a + (b - {k}))[k := b[k]]
  {
    assert (a + b).Keys == (a + (b - {k}))[k := b[k]].Keys;
  }

  lemma {:induction false} SumUnion<K>(a: map<K, nat>, b: map<K, nat>)
    ensures Sum(a + b) <= Sum(a) + Sum(b)
    ensures |a + b| <= |a| + |b|
    decreases |b|
  {
    if b == map[] {
      assert a + b == a;
    } else {
      var k :| k in b;
      SumDrop(b, k);
      SumUnion(a, b - {k});
      MergeOne(a, b, k);
      SumPut(a + (b - {k}), k, b[k]);
    }
  }

  lemma {:induction false} SumSplit<K>(a: map<K, nat>, b: map<K, nat>)
    requires forall k :: k in a ==> k !in b
    ensures Sum(a + b) == Sum(a) + Sum(b)
    ensures |a + b| == |a| + |b|
    decreases |b|
  {
    if b == map[] {
      assert a + b == a;
    } else {
      var k :| k in b;
      SumDrop(b, k);
      SumSplit(a, b - {k});
      MergeOne(a, b, k);
      SumPut(a + (b - {k}), k, b[k]);
    }
  }

  /** SQL's `COALESCE(SUM(...), 0)`. */
  method Total<K>(m: map<K, nat>) returns (s: nat)
    ensures s == Sum(m)
  {
    s := 0;
    var left := m;
    while left != map[]
      invariant s + Sum(left) == Sum(m)
      decreases |left|
    {
      var k :| k in left;
      SumDrop(left, k);
      s := s + left[k];
      left := left - {k};
    }
  }
}
