/** Sums over finite maps and lists, lists in increasing order of a key, and induction over runs. */
module Folds {

  ghost function SumMap<K>(m: map<K, real>): real
    decreases |m|
  {
    if m == map[] then 0.0 else
      var k :| k in m;
      m[k] + SumMap(m - {k})
  }

  /** The sum does not depend on the order in which the keys are taken. */
  lemma {:induction false} SumMapAt<K>(m: map<K, real>, k: K)
    requires k in m
    ensures SumMap(m) == m[k] + SumMap(m - {k})
    decreases |m|
  {
    var c :| c in m && SumMap(m) == m[c] + SumMap(m - {c});
    if c != k {
      SumMapAt(m - {c}, k);
      SumMapAt(m - {k}, c);
      assert m - {c} - {k} == m - {k} - {c};
    }
  }

  lemma SumMapPut<K>(m: map<K, real>, k: K, v: real)
    ensures SumMap(m[k := v]) == v + SumMap(m - {k})
  {
    SumMapAt(m[k := v], k);
    assert m[k := v] - {k} == m - {k};
  }

  function Sum(xs: seq<real>): real {
    if xs == [] then 0.0 else Sum(xs[..|xs| - 1]) + xs[|xs| - 1]
  }

  ghost predicate Increasing(xs: seq<int>) {
    forall i, j :: 0 <= i < j < |xs| ==> xs[i] < xs[j]
  }

  ghost predicate IncreasingBy<T>(key: T -> int, xs: seq<T>) {
    forall i, j :: 0 <= i < j < |xs| ==> key(xs[i]) < key(xs[j])
  }

  /** A list with strictly increasing keys is determined by the set of its elements. */
  lemma {:induction false} IncreasingIsUnique<T>(key: T -> int, xs: seq<T>, ys: seq<T>)
    requires IncreasingBy(key, xs) && IncreasingBy(key, ys)
    requires forall x :: x in xs <==> x in ys
    ensures xs == ys
    decreases |xs|
  {
    if xs != [] { assert xs[0] in xs; }
    if ys != [] { assert ys[0] in ys; }
    if xs != [] {
      var m, n := |xs| - 1, |ys| - 1;
      LastIsGreatest(key, xs, ys);
      forall x ensures x in xs[..m] <==> x in ys[..n] {
        if x in xs[..m] { assert x in xs && x != ys[n]; }
        if x in ys[..n] { assert x in ys && x != xs[m]; }
      }
      IncreasingIsUnique(key, xs[..m], ys[..n]);
      assert xs == xs[..m] + [xs[m]] && ys == ys[..n] + [ys[n]];
    }
  }

  lemma LastIsGreatest<T>(key: T -> int, xs: seq<T>, ys: seq<T>)
    requires IncreasingBy(key, xs) && IncreasingBy(key, ys) && xs != [] && ys != []
    requires forall x :: x in xs <==> x in ys
    ensures xs[|xs| - 1] == ys[|ys| - 1]
  {
    var m, n := |xs| - 1, |ys| - 1;
    assert xs[m] in xs && ys[n] in ys;
    var i :| 0 <= i < |ys| && ys[i] == xs[m];
    var j :| 0 <= j < |xs| && xs[j] == ys[n];
    NoneAfterLast(key, ys, i);
    NoneAfterLast(key, xs, j);
  }

  lemma NoneAfterLast<T>(key: T -> int, xs: seq<T>, i: nat)
    requires IncreasingBy(key, xs) && i < |xs|
    ensures key(xs[i]) <= key(xs[|xs| - 1]) && (key(xs[i]) == key(xs[|xs| - 1]) ==> i == |xs| - 1)
  {
    if i < |xs| - 1 { assert key(xs[i]) < key(xs[|xs| - 1]); }
  }

  // ---- the stable sort by a key

  ghost predicate OrderedBy<T>(key: T -> int, xs: seq<T>) {
    forall i, j :: 0 <= i < j < |xs| ==> key(xs[i]) <= key(xs[j])
  }

  /** Insert behind every element whose key is not greater. */
  function Insert<T>(key: T -> int, xs: seq<T>, x: T): seq<T> {
    if xs == [] || key(xs[|xs| - 1]) <= key(x) then xs + [x]
    else Insert(key, xs[..|xs| - 1], x) + [xs[|xs| - 1]]
  }

  /** Insertion in list order is the stable sort. */
  function SortBy<T>(key: T -> int, xs: seq<T>): seq<T> {
    if xs == [] then [] else Insert(key, SortBy(key, xs[..|xs| - 1]), xs[|xs| - 1])
  }

  lemma {:induction false} InsertAdds<T>(key: T -> int, xs: seq<T>, x: T)
    ensures multiset(Insert(key, xs, x)) == multiset(xs) + multiset{x}
  {
    if xs != [] && key(xs[|xs| - 1]) > key(x) {
      InsertAdds(key, xs[..|xs| - 1], x);
      assert xs == xs[..|xs| - 1] + [xs[|xs| - 1]];
    }
  }

  lemma OrderedSnoc<T>(key: T -> int, xs: seq<T>, x: T)
    requires OrderedBy(key, xs) && forall y :: y in xs ==> key(y) <= key(x)
    ensures OrderedBy(key, xs + [x])
  {
    forall i | 0 <= i < |xs| ensures key(xs[i]) <= key(x) { assert xs[i] in xs; }
  }

  lemma LastIsNotLess<T>(key: T -> int, xs: seq<T>, y: T)
    requires OrderedBy(key, xs) && y in xs
    ensures key(y) <= key(xs[|xs| - 1])
  {
    var i :| 0 <= i < |xs| && xs[i] == y;
  }

  lemma {:induction false} InsertSorts<T>(key: T -> int, xs: seq<T>, x: T)
    requires OrderedBy(key, xs)
    ensures OrderedBy(key, Insert(key, xs, x))
  {
    if xs == [] {
    } else if key(xs[|xs| - 1]) <= key(x) {
      forall y | y in xs ensures key(y) <= key(x) { LastIsNotLess(key, xs, y); }
      OrderedSnoc(key, xs, x);
    } else {
      var n := |xs| - 1;
      InsertSorts(key, xs[..n], x);
      InsertAdds(key, xs[..n], x);
      forall y | y in Insert(key, xs[..n], x) ensures key(y) <= key(xs[n]) {
        assert y in multiset(Insert(key, xs[..n], x));
        if y != x {
          assert y in xs[..n];
          LastIsNotLess(key, xs, y);
        }
      }
      OrderedSnoc(key, Insert(key, xs[..n], x), xs[n]);
    }
  }

  lemma {:induction false} SortedIsSorted<T>(key: T -> int, xs: seq<T>)
    ensures OrderedBy(key, SortBy(key, xs)) && multiset(SortBy(key, xs)) == multiset(xs)
  {
    if xs != [] {
      var n := |xs| - 1;
      SortedIsSorted(key, xs[..n]);
      InsertSorts(key, SortBy(key, xs[..n]), xs[n]);
      InsertAdds(key, SortBy(key, xs[..n]), xs[n]);
      assert xs == xs[..n] + [xs[n]];
    }
  }

  lemma SortedHolds<T>(key: T -> int, xs: seq<T>)
    ensures OrderedBy(key, SortBy(key, xs)) && forall x :: x in SortBy(key, xs) <==> x in xs
  {
    SortedIsSorted(key, xs);
    forall x ensures x in SortBy(key, xs) <==> x in xs {
      assert x in SortBy(key, xs) <==> x in multiset(SortBy(key, xs));
    }
  }

  /** Sorting leaves a list that is already in order as it is. */
  lemma {:induction false} SortIsNoOp<T>(key: T -> int, xs: seq<T>)
    requires OrderedBy(key, xs)
    ensures SortBy(key, xs) == xs
  {
    if xs != [] {
      SortIsNoOp(key, xs[..|xs| - 1]);
      assert xs[..|xs| - 1] + [xs[|xs| - 1]] == xs;
    }
  }

  // ---- sets in order

  /** An element of the set with the least key. */
  method Earliest<T(==)>(key: T -> int, items: set<T>) returns (first: T)
    requires items != {}
    ensures first in items && forall x :: x in items ==> key(first) <= key(x)
  {
    first :| first in items;
    var rest := items - {first};
    while rest != {}
      invariant rest <= items && first in items - rest
      invariant forall x :: x in items - rest ==> key(first) <= key(x)
      decreases |rest|
    {
      var x :| x in rest;
      ghost var before := items - rest;
      if key(x) < key(first) { first := x; }
      rest := rest - {x};
      assert items - rest == before + {x};
    }
    assert items - rest == items;
  }

  /** The elements of the set, which have distinct keys, in the order of their keys. */
  method InKeyOrder<T(==)>(key: T -> int, items: set<T>) returns (order: seq<T>)
    requires forall x, y :: x in items && y in items && key(x) == key(y) ==> x == y
    ensures IncreasingBy(key, order) && forall x :: x in order <==> x in items
  {
    order := [];
    var rest := items;
    while rest != {}
      invariant rest <= items && IncreasingBy(key, order)
      invariant forall x, y :: x in order && y in rest ==> key(x) < key(y)
      invariant forall x :: x in order <==> x in items - rest
      decreases |rest|
    {
      var x := Earliest(key, rest);
      ghost var before := order;
      order := order + [x];
      rest := rest - {x};
      forall i | 0 <= i < |before| ensures key(order[i]) < key(x) { assert order[i] in before; }
    }
  }

  // ---- runs

  /** Feed the elements of xs to f one after the other. */
  ghost function Fold<S, X>(f: (S, X) -> S, s: S, xs: seq<X>): S {
    if xs == [] then s else f(Fold(f, s, xs[..|xs| - 1]), xs[|xs| - 1])
  }

  /** What holds at the start and is kept by every step holds at the end. */
  lemma {:induction false} FoldKeeps<S(!new), X(!new)>(f: (S, X) -> S, s: S, xs: seq<X>, inv: (S, seq<X>) -> bool)
    requires inv(s, [])
    requires forall t, ys, x :: inv(t, ys) ==> inv(f(t, x), ys + [x])
    ensures inv(Fold(f, s, xs), xs)
  {
    if xs != [] {
      var n := |xs| - 1;
      FoldKeeps(f, s, xs[..n], inv);
      assert xs[..n] + [xs[n]] == xs;
    }
  }

  /** The same for what is known after a number of elements of a given list. */
  lemma {:induction false} FoldCounts<S(!new), X>(f: (S, X) -> S, s: S, xs: seq<X>, n: nat, inv: (S, nat) -> bool)
    requires n <= |xs| && inv(s, 0)
    requires forall i: nat, t :: i < |xs| && inv(t, i) ==> inv(f(t, xs[i]), i + 1)
    ensures inv(Fold(f, s, xs[..n]), n)
  {
    if n > 0 {
      FoldCounts(f, s, xs, n - 1, inv);
      assert xs[..n][..n - 1] == xs[..n - 1];
    }
  }

  /** Two runs side by side: what holds of both at the start and is kept when each takes its next element holds at the
      end. */
  lemma {:induction false} FoldsKeep<S(!new), T(!new), X, Y>(f: (S, X) -> S, s: S, xs: seq<X>, g: (T, Y) -> T, t: T,
                                                           ys: seq<Y>, inv: (S, T, seq<X>) -> bool)
    requires |xs| == |ys| && inv(s, t, [])
    requires forall i, a, b :: 0 <= i < |xs| && inv(a, b, xs[..i]) ==> inv(f(a, xs[i]), g(b, ys[i]), xs[..i] + [xs[i]])
    ensures inv(Fold(f, s, xs), Fold(g, t, ys), xs)
  {
    if xs != [] {
      var n := |xs| - 1;
      forall i, a, b | 0 <= i < n && inv(a, b, xs[..n][..i])
        ensures inv(f(a, xs[..n][i]), g(b, ys[..n][i]), xs[..n][..i] + [xs[..n][i]])
      {
        assert xs[..n][..i] == xs[..i];
      }
      FoldsKeep(f, s, xs[..n], g, t, ys[..n], inv);
      assert xs[..n] + [xs[n]] == xs;
    }
  }
}
