/** Sequences without repetition, and sums over finite maps. */
module Finite {

  datatype Option<+T> = None | Some(value: T)

  ghost predicate NoDup<T>(s: seq<T>) {
    forall i, j :: 0 <= i < j < |s| ==> s[i] != s[j]
  }

  ghost function Elements<T>(s: seq<T>): set<T> {
    set x | x in s
  }

  /** s lists the members of xs, each exactly once: what a Go range over a map delivers. */
  ghost predicate Lists<T>(s: seq<T>, xs: set<T>) {
    NoDup(s) && Elements(s) == xs
  }

  lemma NoDupAppend<T>(s: seq<T>, x: T)
    requires NoDup(s) && x !in s
    ensures NoDup(s + [x]) && Elements(s + [x]) == Elements(s) + {x}
  {
  }

  lemma {:induction false} ListsCount<T>(s: seq<T>, xs: set<T>)
    requires Lists(s, xs)
    ensures |s| == |xs|
  {
    if s == [] {
      assert xs == {};
    } else {
      var rest := s[..|s| - 1];
      assert s == rest + [s[|s| - 1]];
      assert Elements(rest) == xs - {s[|s| - 1]};
      ListsCount(rest, xs - {s[|s| - 1]});
    }
  }

  /** The sum of the values of a finite map. */
  ghost function Sum<K>(m: map<K, int>): int
    decreases |m|
  {
    if m == map[] then 0 else
      var k :| k in m;
      assert |m - {k}| < |m| by { MinusSmaller(m, k); }
      m[k] + Sum(m - {k})
  }

  lemma MinusSmaller<K, V>(m: map<K, V>, k: K)
    requires k in m
    ensures |m - {k}| < |m|
  {
    assert (m - {k}).Keys == m.Keys - {k};
    assert |(m - {k}).Keys| == |m.Keys| - 1;
  }

  /** Any key may be split off first. */
  lemma {:induction false} SumSplit<K>(m: map<K, int>, k: K)
    requires k in m
    ensures Sum(m) == m[k] + Sum(m - {k})
    decreases |m|
  {
    var c :| c in m && Sum(m) == m[c] + Sum(m - {c});
    if c != k {
      MinusSmaller(m, c);
      MinusSmaller(m, k);
      SumSplit(m - {c}, k);
      SumSplit(m - {k}, c);
      assert m - {c} - {k} == m - {k} - {c};
    }
  }

  lemma SumUpdate<K>(m: map<K, int>, k: K, v: int)
    requires k in m
    ensures Sum(m[k := v]) == Sum(m) - m[k] + v
  {
    SumSplit(m, k);
    SumSplit(m[k := v], k);
    assert m[k := v] - {k} == m - {k};
  }

  /** Pointwise order carries over to sums. */
  lemma {:induction false} SumMonotone<K>(m: map<K, int>, n: map<K, int>)
    requires m.Keys == n.Keys
    requires forall k :: k in m ==> m[k] <= n[k]
    ensures Sum(m) <= Sum(n)
    decreases |m|
  {
    if m == map[] {
      assert n == map[];
    } else {
      var k :| k in m;
      SumSplit(m, k);
      SumSplit(n, k);
      MinusSmaller(m, k);
      SumMonotone(m - {k}, n - {k});
    }
  }

  lemma {:induction false} SumConstant<K>(m: map<K, int>, c: int)
    requires forall k :: k in m ==> m[k] == c
    ensures Sum(m) == c * |m|
    decreases |m|
  {
    if m == map[] {
    } else {
      var k :| k in m;
      SumSplit(m, k);
      MinusSmaller(m, k);
      assert |(m - {k}).Keys| == |m.Keys| - 1 by { assert (m - {k}).Keys == m.Keys - {k}; }
      SumConstant(m - {k}, c);
      assert c * |m| == c * (|m| - 1) + c;
    }
  }

  ghost function Fibre<T, K>(f: map<T, K>, k: K): set<T> {
    set x | x in f && f[x] == k
  }

  lemma FibreSplit<T, K>(f: map<T, K>, k: K)
    ensures var rest := map x | x in f && f[x] != k :: f[x];
      && |f| == |rest| + |Fibre(f, k)|
      && forall j :: j != k ==> Fibre(rest, j) == Fibre(f, j)
  {
    var rest := map x | x in f && f[x] != k :: f[x];
    assert f.Keys == rest.Keys + Fibre(f, k) && rest.Keys !! Fibre(f, k);
    assert |f.Keys| == |rest.Keys| + |Fibre(f, k)|;
  }

  lemma FibreSizes<T, K>(f: map<T, K>, rest: map<T, K>, keys: set<K>, k: K)
    requires k in keys && forall j :: j != k ==> Fibre(rest, j) == Fibre(f, j)
    ensures (map j | j in keys :: |Fibre(f, j)|) - {k} == map j | j in keys - {k} :: |Fibre(rest, j)|
  {
    hide Fibre;
  }

  /** A finite map has as many entries as its fibres have members together. */
  lemma {:induction false} SumOfFibres<T, K>(f: map<T, K>, keys: set<K>)
    requires forall x :: x in f ==> f[x] in keys
    ensures Sum(map k | k in keys :: |Fibre(f, k)|) == |f|
    decreases |keys|
  {
    var sizes := map k | k in keys :: |Fibre(f, k)|;
    if keys == {} {
      assert f == map[] && sizes == map[];
    } else {
      hide Fibre, Sum;
      var k :| k in keys;
      var rest := map x | x in f && f[x] != k :: f[x];
      FibreSplit(f, k);
      SumOfFibres(rest, keys - {k});
      SumSplit(sizes, k);
      FibreSizes(f, rest, keys, k);
    }
  }
}
