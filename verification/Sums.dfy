/** Finite sums. A Go `for range` over a map visits the keys in an unspecified order; the sum of
    the values does not depend on it, which is what `MapSumRemove` says. */
module Sums {

  /** Reading an absent key of a Go map yields the zero value. */
  function Get<K>(m: map<K, real>, k: K): real {
    if k in m then m[k] else 0.0
  }

  /** `m[k] += v`, where an absent key counts as zero. */
  function AddTo<K>(m: map<K, real>, k: K, v: real): map<K, real> {
    m[k := Get(m, k) + v]
  }

  /** The pointwise sum of two maps; a key seen for the first time starts at zero. */
  function Plus<K>(a: map<K, real>, b: map<K, real>): map<K, real> {
    map k | k in a.Keys + b.Keys :: Get(a, k) + Get(b, k)
  }

  ghost function MapSum<K>(m: map<K, real>): real
    decreases |m|
  {
    if m == map[] then 0.0
    else
      var k :| k in m;
      m[k] + MapSum(m - {k})
  }

  /** Whatever key is visited first, the rest of the sum is the sum of the rest. */
  lemma {:induction false} MapSumRemove<K>(m: map<K, real>, k: K)
    requires k in m
    ensures MapSum(m) == m[k] + MapSum(m - {k})
    decreases |m|
  {
    var j :| j in m && MapSum(m) == m[j] + MapSum(m - {j});
    if j != k {
      MapSumRemove(m - {j}, k);
      MapSumRemove(m - {k}, j);
      assert m - {j} - {k} == m - {k} - {j};
    }
  }

  lemma MapSumUpdate<K>(m: map<K, real>, k: K, v: real)
    ensures MapSum(m[k := v]) == MapSum(m) - Get(m, k) + v
  {
    MapSumRemove(m[k := v], k);
    assert m[k := v] - {k} == m - {k};
    if k in m {
      MapSumRemove(m, k);
    } else {
      assert m - {k} == m;
    }
  }

  lemma MapSumAddTo<K>(m: map<K, real>, k: K, v: real)
    ensures MapSum(AddTo(m, k, v)) == MapSum(m) + v
  {
    MapSumUpdate(m, k, Get(m, k) + v);
  }

  /** A sum of smaller terms is smaller, and equal only when every term is equal. */
  lemma {:induction false} MapSumMonotone<K>(a: map<K, real>, b: map<K, real>)
    requires a.Keys == b.Keys && forall k :: k in a ==> a[k] <= b[k]
    ensures MapSum(a) <= MapSum(b)
    ensures MapSum(a) == MapSum(b) <==> a == b
    decreases |a|
  {
    if a != map[] {
      var k :| k in a;
      MapSumRemove(a, k);
      MapSumRemove(b, k);
      MapSumMonotone(a - {k}, b - {k});
      if a[k] == b[k] && a - {k} == b - {k} {
        assert a == (a - {k})[k := a[k]];
        assert b == (b - {k})[k := b[k]];
      }
    } else {
      assert b == map[];
    }
  }

  lemma {:induction false} MapSumZero<K>(m: map<K, real>)
    requires forall k :: k in m ==> m[k] == 0.0
    ensures MapSum(m) == 0.0
    decreases |m|
  {
    if m != map[] {
      var k :| k in m;
      MapSumRemove(m, k);
      MapSumZero(m - {k});
    }
  }

  function Times(f: real, x: real): real { f * x }

  lemma Distribute(f: real, a: real, b: real)
    ensures Times(f, a + b) == Times(f, a) + Times(f, b)
  {
  }

  lemma {:induction false} MapSumScale<K>(m: map<K, real>, c: map<K, real>, f: real)
    requires c.Keys == m.Keys && forall k :: k in m ==> c[k] == Times(f, m[k])
    ensures MapSum(c) == Times(f, MapSum(m))
    decreases |m|
  {
    if m == map[] {
      assert c == map[];
    } else {
      var k :| k in m;
      MapSumRemove(m, k);
      MapSumRemove(c, k);
      MapSumScale(m - {k}, c - {k}, f);
      Distribute(f, m[k], MapSum(m - {k}));
    }
  }

  /** Maps with the same keys, added value by value. */
  lemma MapSumPlus<K>(a: map<K, real>, b: map<K, real>, c: map<K, real>)
    requires a.Keys == b.Keys == c.Keys && forall k :: k in a ==> c[k] == a[k] + b[k]
    ensures MapSum(c) == MapSum(a) + MapSum(b)
  {
    PlusTotal(a, b);
    assert c == Plus(a, b) by {
      forall k | k in c ensures Plus(a, b)[k] == c[k] {}
    }
  }

  lemma {:induction false} PlusTotal<K>(a: map<K, real>, b: map<K, real>)
    ensures MapSum(Plus(a, b)) == MapSum(a) + MapSum(b)
    decreases |b|
  {
    if b == map[] {
      assert Plus(a, b) == a;
    } else {
      var k :| k in b;
      var rest := Plus(a, b - {k});
      assert MapSum(rest) == MapSum(a) + MapSum(b - {k}) by { PlusTotal(a, b - {k}); }
      MapSumRemove(b, k);
      MapSumAddTo(rest, k, b[k]);
      PlusOneMore(a, b, k);
    }
  }

  lemma PlusOneMore<K>(a: map<K, real>, b: map<K, real>, k: K)
    requires k in b
    ensures Plus(a, b) == AddTo(Plus(a, b - {k}), k, b[k])
  {
  }

  function SeqSum(s: seq<real>): real {
    if s == [] then 0.0 else SeqSum(s[..|s| - 1]) + s[|s| - 1]
  }

  lemma {:induction false} SeqSumConcat(a: seq<real>, b: seq<real>)
    ensures SeqSum(a + b) == SeqSum(a) + SeqSum(b)
  {
    if b == [] {
      assert a + b == a;
    } else {
      assert (a + b)[..|a + b| - 1] == a + b[..|b| - 1];
      SeqSumConcat(a, b[..|b| - 1]);
    }
  }

  lemma {:induction false} SeqSumMonotone(a: seq<real>, b: seq<real>)
    requires |a| == |b| && forall i :: 0 <= i < |a| ==> a[i] <= b[i]
    ensures SeqSum(a) <= SeqSum(b)
    ensures SeqSum(a) == SeqSum(b) <==> a == b
  {
    if a != [] {
      var n := |a| - 1;
      SeqSumMonotone(a[..n], b[..n]);
      assert a == a[..n] + [a[n]] && b == b[..n] + [b[n]];
    }
  }

  // ----- Totals per name -----

  /** `for x in xs { m[name(x)] += f(x) }`. */
  function GroupSum<T>(xs: seq<T>, name: T -> string, f: T -> real): map<string, real> {
    if xs == [] then map[]
    else AddTo(GroupSum(xs[..|xs| - 1], name, f), name(xs[|xs| - 1]), f(xs[|xs| - 1]))
  }

  function Images<T>(xs: seq<T>, f: T -> real): seq<real> {
    seq(|xs|, i requires 0 <= i < |xs| => f(xs[i]))
  }

  /** Grouping by name neither loses nor invents anything. */
  lemma {:induction false} GroupTotal<T>(xs: seq<T>, name: T -> string, f: T -> real)
    ensures MapSum(GroupSum(xs, name, f)) == SeqSum(Images(xs, f))
  {
    if xs != [] {
      var n := |xs| - 1;
      GroupTotal(xs[..n], name, f);
      MapSumAddTo(GroupSum(xs[..n], name, f), name(xs[n]), f(xs[n]));
      assert Images(xs, f)[..n] == Images(xs[..n], f);
    }
  }
}
