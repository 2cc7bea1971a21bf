/** SELECT COUNT(*) and SUM over a table held as a map from primary key to row. */
module Totals {

  /** The keys of the rows that satisfy a condition. */
  function Where<K, V>(m: map<K, V>, p: V -> bool): set<K> {
    set k | k in m && p(m[k])
  }

  /** How many rows satisfy a condition. */
  function Count<K, V>(m: map<K, V>, p: V -> bool): nat {
    |Where(m, p)|
  }

  /** Writing one row moves a count by what the old and the new row contribute. */
  lemma CountSet<K, V>(m: map<K, V>, p: V -> bool, k: K, v: V)
    ensures Count(m[k := v], p)
         == Count(m, p) + (if p(v) then 1 else 0) - (if k in m && p(m[k]) then 1 else 0)
  {
    WhereOthers(m, p, k, v);
    WithoutOne(Where(m, p), k);
    WithoutOne(Where(m[k := v], p), k);
  }

  lemma WhereOthers<K, V>(m: map<K, V>, p: V -> bool, k: K, v: V)
    ensures Where(m, p) - {k} == Where(m[k := v], p) - {k}
  {
  }

  lemma WithoutOne<T>(a: set<T>, x: T)
    ensures |a| == |a - {x}| + (if x in a then 1 else 0)
  {
    if x !in a {
      assert a - {x} == a;
    }
  }

  lemma CountMonotone<K, V>(m: map<K, V>, n: map<K, V>, p: V -> bool, q: V -> bool)
    requires forall k :: k in m && p(m[k]) ==> k in n && q(n[k])
    ensures Count(m, p) <= Count(n, q)
  {
    assert Where(m, p) <= Where(n, q);
    SubsetSize(Where(m, p), Where(n, q));
  }

  lemma {:induction false} SubsetSize<T>(a: set<T>, b: set<T>)
    requires a <= b
    ensures |a| <= |b|
  {
    assert b == a + (b - a);
  }

  /** The sum of a quantity over all rows. */
  ghost function Total<K(!new), V(!new)>(m: map<K, V>, f: (K, V) -> int): int
    decreases |m|
  {
    if m == map[] then 0
    else
      var k :| k in m;
      assert (m - {k}).Keys == m.Keys - {k};
      f(k, m[k]) + Total(m - {k}, f)
  }

  lemma TwoOut<K, V>(m: map<K, V>, a: K, b: K)
    requires a in m && b in m && a != b
    ensures m - {a} - {b} == m - {b} - {a}
    ensures |m - {a}| < |m| && |m - {b}| < |m| && b in m - {a} && a in m - {b}
    ensures (m - {a})[b] == m[b] && (m - {b})[a] == m[a]
  {
    assert (m - {a}).Keys == m.Keys - {a} && (m - {b}).Keys == m.Keys - {b};
  }

  /** Any row may be taken out first. */
  lemma {:induction false} TotalSplit<K(!new), V(!new)>(m: map<K, V>, f: (K, V) -> int, k: K)
    requires k in m
    ensures Total(m, f) == f(k, m[k]) + Total(m - {k}, f)
    decreases |m|
  {
    var first :| first in m && Total(m, f) == f(first, m[first]) + Total(m - {first}, f);
    if first != k {
      TwoOut(m, first, k);
      TotalSplit(m - {first}, f, k);
      TotalSplit(m - {k}, f, first);
    }
  }

  /** Writing one row moves a total by what the new row adds over the old one. */
  lemma TotalSet<K(!new), V(!new)>(m: map<K, V>, f: (K, V) -> int, k: K, v: V)
    ensures Total(m[k := v], f) == Total(m, f) + f(k, v) - (if k in m then f(k, m[k]) else 0)
  {
    TotalSplit(m[k := v], f, k);
    assert m[k := v] - {k} == m - {k};
    if k in m {
      TotalSplit(m, f, k);
    } else {
      assert m - {k} == m;
    }
  }

  /** A total splits along a row-by-row split of the quantity; the third table may have fewer rows. */
  lemma {:induction false} TotalAdd<K(!new), A(!new), B(!new), C(!new)>(
      m: map<K, A>, f: (K, A) -> int, n: map<K, B>, g: (K, B) -> int, o: map<K, C>, h: (K, C) -> int)
    requires m.Keys == n.Keys && o.Keys <= m.Keys
    requires forall k :: k in m ==> f(k, m[k]) == g(k, n[k]) + (if k in o then h(k, o[k]) else 0)
    ensures Total(m, f) == Total(n, g) + Total(o, h)
    decreases |m|
  {
    if m == map[] {
      assert n.Keys == {} && o.Keys == {};
      assert n == map[] && o == map[];
    } else {
      var k :| k in m;
      assert (m - {k}).Keys == m.Keys - {k} && (n - {k}).Keys == n.Keys - {k} && (o - {k}).Keys == o.Keys - {k};
      TotalSplit(m, f, k);
      TotalSplit(n, g, k);
      TotalAdd(m - {k}, f, n - {k}, g, o - {k}, h);
      if k in o {
        TotalSplit(o, h, k);
      } else {
        assert o - {k} == o;
      }
    }
  }

  /** Two tables whose rows contribute alike have the same total. */
  lemma TotalMatch<K(!new), A(!new), B(!new)>(m: map<K, A>, f: (K, A) -> int, n: map<K, B>, g: (K, B) -> int)
    requires m.Keys == n.Keys
    requires forall k :: k in m ==> f(k, m[k]) == g(k, n[k])
    ensures Total(m, f) == Total(n, g)
  {
    var none: map<K, int> := map[];
    var zero := (k: K, v: int) => 0;
    TotalAdd(m, f, n, g, none, zero);
  }

  lemma {:induction false} TotalNonNegative<K(!new), V(!new)>(m: map<K, V>, f: (K, V) -> int)
    requires forall k :: k in m ==> f(k, m[k]) >= 0
    ensures Total(m, f) >= 0
    decreases |m|
  {
    if m != map[] {
      var k :| k in m;
      assert (m - {k}).Keys == m.Keys - {k};
      TotalSplit(m, f, k);
      TotalNonNegative(m - {k}, f);
    }
  }

  /** The bag of what a function makes of the rows. */
  ghost function Images<K(!new), V(!new), T(!new)>(m: map<K, V>, f: (K, V) -> T): multiset<T>
    decreases |m|
  {
    if m == map[] then multiset{}
    else
      var k :| k in m;
      assert (m - {k}).Keys == m.Keys - {k};
      multiset{f(k, m[k])} + Images(m - {k}, f)
  }

  lemma SwapFirst<T(!new)>(a: T, b: T, rest: multiset<T>, all: multiset<T>, withoutA: multiset<T>,
      withoutB: multiset<T>)
    requires all == multiset{a} + withoutA && withoutA == multiset{b} + rest && withoutB == multiset{a} + rest
    ensures all == multiset{b} + withoutB
  {
  }

  lemma {:induction false} ImagesSplit<K(!new), V(!new), T(!new)>(m: map<K, V>, f: (K, V) -> T, k: K)
    requires k in m
    ensures Images(m, f) == multiset{f(k, m[k])} + Images(m - {k}, f)
    decreases |m|
  {
    var first :| first in m && Images(m, f) == multiset{f(first, m[first])} + Images(m - {first}, f);
    if first != k {
      TwoOut(m, first, k);
      ImagesSplit(m - {first}, f, k);
      ImagesSplit(m - {k}, f, first);
      SwapFirst(f(first, m[first]), f(k, m[k]), Images(m - {first} - {k}, f),
                Images(m, f), Images(m - {first}, f), Images(m - {k}, f));
    }
  }

  lemma ImagesMore<K(!new), V(!new), T(!new)>(m: map<K, V>, f: (K, V) -> T, k: K, v: V)
    requires k !in m
    ensures Images(m[k := v], f) == Images(m, f) + multiset{f(k, v)}
  {
    ImagesSplit(m[k := v], f, k);
    assert m[k := v] - {k} == m;
  }
}
