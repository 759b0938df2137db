// Sums over the values of a map, whatever order the map is walked in.
module Totals {
  // A number of things and an amount of money or quantity, added side by side.
  datatype Tally = Tally(count: int, amount: real) {
    function Plus(other: Tally): (r: Tally) {
      Tally(count + other.count, amount + other.amount)
    }
  }

  const ZERO := Tally(0, 0.0)

  lemma PlusLaws(a: Tally, b: Tally, c: Tally)
    ensures a.Plus(b.Plus(c)) == b.Plus(a.Plus(c))
    ensures a.Plus(b).Plus(c) == a.Plus(b.Plus(c))
    ensures a.Plus(ZERO) == a
  {
  }

  ghost function Total<K, V>(m: map<K, V>, f: V -> Tally): Tally
    decreases |m|
  {
    if m == map[] then ZERO
    else
      var k :| k in m;
      f(m[k]).Plus(Total(m - {k}, f))
  }

  lemma {:induction false} TotalRemove<K, V>(m: map<K, V>, f: V -> Tally, k: K)
    requires k in m
    ensures Total(m, f) == f(m[k]).Plus(Total(m - {k}, f))
    decreases |m|
  {
    var j :| j in m && Total(m, f) == f(m[j]).Plus(Total(m - {j}, f));
    if j != k {
      TotalRemove(m - {j}, f, k);
      TotalRemove(m - {k}, f, j);
      assert m - {j} - {k} == m - {k} - {j};
      PlusLaws(f(m[j]), f(m[k]), Total(m - {j} - {k}, f));
    }
  }

  lemma TotalUpdate<K, V>(m: map<K, V>, f: V -> Tally, k: K, v: V)
    ensures Total(m[k := v], f).Plus(if k in m then f(m[k]) else ZERO) == Total(m, f).Plus(f(v))
  {
    var n := m[k := v];
    TotalRemove(n, f, k);
    assert n - {k} == m - {k};
    if k in m {
      TotalRemove(m, f, k);
    } else {
      assert m - {k} == m;
    }
  }

  function Restrict<K, V>(m: map<K, V>, keys: set<K>): (r: map<K, V>) {
    map k | k in m && k in keys :: m[k]
  }

  lemma RestrictLess<K, V>(m: map<K, V>, keys: set<K>, k: K)
    requires keys <= m.Keys && k in keys
    ensures (m - {k}) - (keys - {k}) == m - keys
    ensures Restrict(m - {k}, keys - {k}) == Restrict(m, keys) - {k}
  {
  }

  // Splitting a map in two splits its total.
  lemma {:induction false} TotalSplit<K, V>(m: map<K, V>, f: V -> Tally, keys: set<K>)
    requires keys <= m.Keys
    ensures Total(m, f) == Total(m - keys, f).Plus(Total(Restrict(m, keys), f))
    decreases |keys|
  {
    if keys == {} {
      assert m - keys == m;
      assert Restrict(m, keys) == map[];
    } else {
      var k :| k in keys;
      var part := Restrict(m, keys);
      RestrictLess(m, keys, k);
      TotalRemove(m, f, k);
      TotalRemove(part, f, k);
      TotalSplit(m - {k}, f, keys - {k});
      PlusLaws(f(m[k]), Total(m - keys, f), Total(part - {k}, f));
    }
  }
}
