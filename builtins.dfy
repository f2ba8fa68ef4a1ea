/** The Python built-ins the service leans on, stated once:
    dict.get / dict.setdefault, list.remove, filtering comprehensions,
    looking ids up in a dict while skipping missing ones, and
    `list.sort(key=..., reverse=True)` followed by a `[:n]` slice. */
module Builtins {

  /** `m.get(k, default)` */
  function Get<K, V>(m: map<K, V>, k: K, default: V): V {
    if k in m then m[k] else default
  }

  /** The dict after `m.setdefault(k, d)`. */
  function SetDefault<K, V>(m: map<K, V>, k: K, d: V): map<K, V> {
    if k in m then m else m[k := d]
  }

  function Min(a: int, b: int): int {
    if a <= b then a else b
  }

  /** The elements of a list, as a set. */
  function Elems<T(!new)>(xs: seq<T>): (r: set<T>)
    ensures forall x :: x in r <==> x in xs
  {
    set x | x in xs
  }

  /** No element occurs twice. */
  predicate Distinct<T(==)>(xs: seq<T>) {
    forall i, j :: 0 <= i < j < |xs| ==> xs[i] != xs[j]
  }

  /** `order` lists the keys of `m`, each exactly once: the iteration order of a
      Python dict. */
  ghost predicate KeyOrder<K(!new), V>(order: seq<K>, m: map<K, V>) {
    Distinct(order) && forall k :: k in order <==> k in m
  }

  /** Adding `x` to the set under `k` and taking it out again restores the dict. */
  lemma AddThenRemove<K, T>(m: map<K, set<T>>, k: K, x: T)
    requires k in m && x !in m[k]
    ensures m[k := m[k] + {x}][k := m[k] + {x} - {x}] == m
  {
    assert m[k] + {x} - {x} == m[k];
  }

  /** Removing `x` from the set under `k` and adding it again restores the dict. */
  lemma RemoveThenAdd<K, T>(m: map<K, set<T>>, k: K, x: T)
    requires k in m && x in m[k]
    ensures m[k := m[k] - {x}][k := m[k] - {x} + {x}] == m
  {
    assert m[k] - {x} + {x} == m[k];
  }

  /** Storing under a fresh key and popping it again restores the dict. */
  lemma PutThenPop<K, V>(m: map<K, V>, k: K, v: V)
    requires k !in m
    ensures m[k := v] - {k} == m
  {
    assert (m[k := v] - {k}).Keys == m.Keys;
  }

  /** A list without repeats has as many elements as the set of its elements. */
  lemma {:induction false} DistinctCard<T>(xs: seq<T>)
    requires Distinct(xs)
    ensures |set x | x in xs| == |xs|
  {
    if xs != [] {
      DistinctCard(xs[1..]);
      assert (set x | x in xs) == {xs[0]} + (set x | x in xs[1..]);
      assert xs[0] !in xs[1..];
    }
  }

  /** A list without repeats drawn from `s` is no longer than `s`, and exactly as long
      when it lists every element of `s`. */
  lemma EnumerationCard<T>(xs: seq<T>, s: set<T>)
    requires Distinct(xs) && forall i :: 0 <= i < |xs| ==> xs[i] in s
    ensures |xs| <= |s|
    ensures (forall v :: v in s ==> v in xs) ==> |xs| == |s|
  {
    DistinctCard(xs);
    var found := set x | x in xs;
    assert s == found + (s - found);
  }

  /** `[x for x in xs if keep(x)]` */
  function Filter<T(==)>(xs: seq<T>, keep: T -> bool): (r: seq<T>)
    ensures forall i :: 0 <= i < |r| ==> r[i] in xs && keep(r[i])
    ensures forall i :: 0 <= i < |xs| && keep(xs[i]) ==> xs[i] in r
    ensures |r| <= |xs|
    ensures Distinct(xs) ==> Distinct(r)
  {
    if xs == [] then []
    else if keep(xs[0]) then [xs[0]] + Filter(xs[1..], keep)
    else Filter(xs[1..], keep)
  }

  /** A filter that rejects every element gives the empty list. */
  lemma {:induction false} FilterNone<T>(xs: seq<T>, keep: T -> bool)
    requires forall i :: 0 <= i < |xs| ==> !keep(xs[i])
    ensures Filter(xs, keep) == []
  {
    if xs != [] {
      assert !keep(xs[0]);
      FilterNone(xs[1..], keep);
    }
  }

  /** `[m[k] for k in ids if k in m]`: the values of the ids that are still keys of `m`,
      in the order of `ids`. */
  function Resolve<K, V>(ids: seq<K>, m: map<K, V>): seq<V> {
    if ids == [] then []
    else if ids[0] in m then [m[ids[0]]] + Resolve(ids[1..], m)
    else Resolve(ids[1..], m)
  }

  /** When every id is a key, `Resolve` looks each one up in place. */
  lemma {:induction false} ResolveAll<K, V>(ids: seq<K>, m: map<K, V>)
    requires forall k :: k in ids ==> k in m
    ensures |Resolve(ids, m)| == |ids|
    ensures forall i :: 0 <= i < |ids| ==> Resolve(ids, m)[i] == m[ids[i]]
  {
    if ids != [] {
      ResolveAll(ids[1..], m);
    }
  }

  /** Looking up one more id appends its value, when it is a key. */
  lemma {:induction false} ResolveSnoc<K, V>(ids: seq<K>, k: K, m: map<K, V>)
    ensures Resolve(ids + [k], m) == Resolve(ids, m) + (if k in m then [m[k]] else [])
  {
    if ids != [] {
      assert (ids + [k])[1..] == ids[1..] + [k];
      ResolveSnoc(ids[1..], k, m);
    }
  }

  /** Binding a key that is not among the ids changes nothing that is looked up. */
  lemma {:induction false} ResolveOtherKey<K, V>(ids: seq<K>, m: map<K, V>, k: K, v: V)
    requires k !in ids
    ensures Resolve(ids, m[k := v]) == Resolve(ids, m)
  {
    if ids != [] {
      ResolveOtherKey(ids[1..], m, k, v);
    }
  }

  /** `xs` with `x` left out: for a list without repeats, what deleting the key `x`
      does to a dict's key order. */
  function Without<T(==,!new)>(xs: seq<T>, x: T): (r: seq<T>)
    ensures forall y :: y in r <==> y in xs && y != x
    ensures Distinct(xs) ==> Distinct(r)
  {
    if xs == [] then []
    else if xs[0] == x then Without(xs[1..], x)
    else
      var rest := Without(xs[1..], x);
      assert Distinct(xs) ==> xs[0] !in xs[1..];
      [xs[0]] + rest
  }

  /** Position of the first occurrence of `x`. */
  function IndexOf<T(==)>(xs: seq<T>, x: T): (i: nat)
    requires x in xs
    ensures i < |xs| && xs[i] == x && x !in xs[..i]
  {
    if xs[0] == x then 0 else 1 + IndexOf(xs[1..], x)
  }

  /** The list after `xs.remove(x)`: the first occurrence of `x` is dropped and
      the others keep their order. Python raises ValueError when `x` is absent;
      every caller checks `x in xs` first. */
  function RemoveFirst<T(==)>(xs: seq<T>, x: T): (r: seq<T>)
    requires x in xs
    ensures |r| == |xs| - 1
    ensures forall j :: 0 <= j < |r| ==> r[j] == xs[if j < IndexOf(xs, x) then j else j + 1]
    ensures multiset(r) == multiset(xs) - multiset{x}
  {
    var i := IndexOf(xs, x);
    assert xs == xs[..i] + [x] + xs[i + 1..];
    xs[..i] + xs[i + 1..]
  }

  /** Removing an element that was just appended, and occurs nowhere else, restores
      the list. */
  lemma RemoveAppended<T>(xs: seq<T>, x: T)
    requires x !in xs
    ensures RemoveFirst(xs + [x], x) == xs
  {
    var i := IndexOf(xs + [x], x);
    assert i == |xs| by {
      assert (xs + [x])[i] == x;
    }
  }

  /** Ordered newest/largest first. */
  predicate SortedDesc<T>(xs: seq<T>, key: T -> int) {
    forall i, j :: 0 <= i < j < |xs| ==> key(xs[i]) >= key(xs[j])
  }

  /** Puts `x` in front of the first element whose key is not larger than its own,
      so `x` precedes the elements of `xs` that tie with it. */
  function Insert<T(==)>(x: T, xs: seq<T>, key: T -> int): (r: seq<T>)
    ensures multiset(r) == multiset(xs) + multiset{x}
  {
    if xs == [] || key(xs[0]) <= key(x) then [x] + xs
    else
      assert xs == [xs[0]] + xs[1..];
      [xs[0]] + Insert(x, xs[1..], key)
  }

  lemma {:induction false} InsertSorted<T>(x: T, xs: seq<T>, key: T -> int)
    requires SortedDesc(xs, key)
    ensures SortedDesc(Insert(x, xs, key), key)
  {
    if xs == [] || key(xs[0]) <= key(x) {
    } else {
      var rest := Insert(x, xs[1..], key);
      InsertSorted(x, xs[1..], key);
      forall i | 0 <= i < |rest| ensures key(xs[0]) >= key(rest[i]) {
        assert rest[i] in multiset(rest);
        if rest[i] != x {
          assert rest[i] in multiset(xs[1..]);
          var k :| 0 <= k < |xs[1..]| && xs[1..][k] == rest[i];
          assert xs[k + 1] == rest[i];
        }
      }
    }
  }

  lemma {:induction false} InsertDistinct<T>(x: T, xs: seq<T>, key: T -> int)
    requires x !in xs && Distinct(xs)
    ensures Distinct(Insert(x, xs, key))
  {
    if xs == [] || key(xs[0]) <= key(x) {
    } else {
      var rest := Insert(x, xs[1..], key);
      InsertDistinct(x, xs[1..], key);
      assert xs[0] !in multiset(rest);
    }
  }

  /** `sorted(xs, key=key, reverse=True)`: a stable sort, largest key first
      (elements with equal keys keep their relative order). */
  function SortDesc<T(==)>(xs: seq<T>, key: T -> int): (r: seq<T>)
    ensures multiset(r) == multiset(xs)
    ensures |r| == |xs|
    ensures SortedDesc(r, key)
  {
    if xs == [] then []
    else
      var rest := SortDesc(xs[1..], key);
      assert xs == [xs[0]] + xs[1..];
      InsertSorted(xs[0], rest, key);
      Insert(xs[0], rest, key)
  }

  /** Sorting a list without repeats gives a list without repeats. */
  lemma {:induction false} SortDescDistinct<T>(xs: seq<T>, key: T -> int)
    requires Distinct(xs)
    ensures Distinct(SortDesc(xs, key))
  {
    if xs != [] {
      var rest := SortDesc(xs[1..], key);
      SortDescDistinct(xs[1..], key);
      assert xs[0] !in xs[1..];
      assert xs[0] !in multiset(xs[1..]);
      assert xs[0] !in multiset(rest);
      InsertDistinct(xs[0], rest, key);
    }
  }

  /** Filtering then sorting keeps exactly the elements that pass the filter. */
  lemma SortFilterMembers<T>(xs: seq<T>, keep: T -> bool, key: T -> int)
    ensures forall y :: y in SortDesc(Filter(xs, keep), key) <==> y in xs && keep(y)
    ensures Distinct(xs) ==> Distinct(SortDesc(Filter(xs, keep), key))
  {
    var ps := Filter(xs, keep);
    var q := SortDesc(ps, key);
    if Distinct(xs) {
      SortDescDistinct(ps, key);
    }
    forall y ensures y in q <==> y in ps {
      assert y in q <==> y in multiset(q);
      assert y in ps <==> y in multiset(ps);
    }
    forall y | y in ps ensures y in xs && keep(y) {
      var j :| 0 <= j < |ps| && ps[j] == y;
    }
    forall y | y in xs && keep(y) ensures y in ps {
      var j :| 0 <= j < |xs| && xs[j] == y;
    }
  }

  /** Every element a `[:n]` slice of a descending list leaves out ranks no higher
      than any element it keeps. */
  lemma {:induction false} PrefixHoldsLargest<T>(xs: seq<T>, key: T -> int, n: nat, x: T)
    requires SortedDesc(xs, key)
    requires x in xs && x !in xs[..Min(n, |xs|)]
    ensures n < |xs|
    ensures forall y :: y in xs[..n] ==> key(y) >= key(x)
  {
    var k :| 0 <= k < |xs| && xs[k] == x;
    forall y | y in xs[..n] ensures key(y) >= key(x) {
      var i :| 0 <= i < n && xs[..n][i] == y;
      assert xs[i] == y;
    }
  }

  /** `sorted(xs, key=key, reverse=True)[:n]` */
  function Top<T(==)>(xs: seq<T>, key: T -> int, n: nat): seq<T> {
    var r := SortDesc(xs, key);
    r[..Min(n, |r|)]
  }

  /** Sorting keeps exactly the elements it is given. */
  lemma SortDescMembers<T>(xs: seq<T>, key: T -> int)
    ensures forall y :: y in SortDesc(xs, key) <==> y in xs
  {
    var r := SortDesc(xs, key);
    forall y ensures y in r <==> y in xs {
      assert y in r <==> y in multiset(r);
      assert y in xs <==> y in multiset(xs);
    }
  }

  /** A prefix keeps the order, the distinctness and draws on the whole. */
  lemma PrefixOf<T>(r: seq<T>, m: nat, key: T -> int)
    requires m <= |r|
    ensures SortedDesc(r, key) ==> SortedDesc(r[..m], key)
    ensures Distinct(r) ==> Distinct(r[..m])
    ensures forall y :: y in r[..m] ==> y in r
  {
    forall y | y in r[..m] ensures y in r {
      var i :| 0 <= i < m && r[..m][i] == y;
      assert r[i] == y;
    }
  }

  /** The first `n` of a ranking: as many as there are up to `n`, ranked and each
      once, drawn from `xs`; anything left out means the slice is full and ranks no
      higher than what it keeps. */
  lemma TopSpec<T>(xs: seq<T>, key: T -> int, n: nat)
    requires Distinct(xs)
    ensures var q := Top(xs, key, n);
      && |q| == Min(n, |xs|)
      && SortedDesc(q, key)
      && Distinct(q)
      && (forall y :: y in q ==> y in xs)
      && (forall x :: x in xs && x !in q ==> |q| == n && forall y :: y in q ==> key(y) >= key(x))
  {
    var r := SortDesc(xs, key);
    var q := r[..Min(n, |r|)];
    SortDescDistinct(xs, key);
    SortDescMembers(xs, key);
    PrefixOf(r, Min(n, |r|), key);
    assert Top(xs, key, n) == q;
    forall y | y in q ensures y in xs {
      assert y in multiset(r);
    }
    forall x | x in xs && x !in q
      ensures |q| == n && forall y :: y in q ==> key(y) >= key(x)
    {
      PrefixHoldsLargest(r, key, n, x);
    }
  }
}
