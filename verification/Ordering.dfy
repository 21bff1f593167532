/** What ORDER BY leaves open: a result is some permutation that is sorted by the key; ties come in any order. */
module Ordering {

  datatype Key = Key(major: int, minor: int)

  predicate Leq(a: Key, b: Key) {
    a.major < b.major || (a.major == b.major && a.minor <= b.minor)
  }

  function Map<A, B>(f: A -> B, xs: seq<A>): (ys: seq<B>)
    ensures |ys| == |xs| && forall i :: 0 <= i < |xs| ==> ys[i] == f(xs[i])
  {
    if |xs| == 0 then [] else [f(xs[0])] + Map(f, xs[1..])
  }

  lemma MapAppend<A, B>(f: A -> B, xs: seq<A>, i: nat)
    requires i < |xs|
    ensures Map(f, xs[..i + 1]) == Map(f, xs[..i]) + [f(xs[i])]
  {
  }

  /** The rows among the first n that satisfy the condition, in order. */
  function Filter<T>(keep: T -> bool, xs: seq<T>, n: nat): seq<T>
    requires n <= |xs|
  {
    if n == 0 then [] else Filter(keep, xs, n - 1) + (if keep(xs[n - 1]) then [xs[n - 1]] else [])
  }

  lemma {:induction false} FilterCounts<T>(keep: T -> bool, xs: seq<T>, n: nat, x: T)
    requires n <= |xs|
    ensures multiset(Filter(keep, xs, n))[x] == if keep(x) then multiset(xs[..n])[x] else 0
    decreases n
  {
    if n > 0 {
      var y, ok := xs[n - 1], keep(xs[n - 1]);
      FilterCounts(keep, xs, n - 1, x);
      assert multiset(xs[..n])[x] == multiset(xs[..n - 1])[x] + (if y == x then 1 else 0) by {
        assert xs[..n] == xs[..n - 1] + [y];
        CountAppended(xs[..n - 1], y, true, x);
      }
      CountAppended(Filter(keep, xs, n - 1), y, ok, x);
    }
  }

  predicate Sorted<T>(key: T -> Key, xs: seq<T>) {
    forall i, j :: 0 <= i < j < |xs| ==> Leq(key(xs[i]), key(xs[j]))
  }

  /** xs is a possible outcome of ordering the rows of `rows` by key. */
  predicate IsOrdering<T(==)>(key: T -> Key, xs: seq<T>, rows: seq<T>) {
    multiset(xs) == multiset(rows) && Sorted(key, xs)
  }

  /** Equal keys only on equal rows. */
  predicate KeysTell<T(==)>(key: T -> Key, rows: seq<T>) {
    forall i, j :: 0 <= i < |rows| && 0 <= j < |rows| && key(rows[i]) == key(rows[j]) ==> rows[i] == rows[j]
  }

  lemma CountAppended<T>(xs: seq<T>, x: T, keep: bool, t: T)
    ensures multiset(xs + (if keep then [x] else []))[t] == multiset(xs)[t] + (if keep && x == t then 1 else 0)
  {
    assert xs + [] == xs;
  }

  lemma MembersAgree<T>(xs: seq<T>, ys: seq<T>)
    requires multiset(xs) == multiset(ys)
    ensures |xs| == |ys| && forall x :: x in xs <==> x in ys
  {
    assert |multiset(xs)| == |multiset(ys)|;
    forall x ensures x in xs <==> x in ys {
      assert x in multiset(xs) <==> x in multiset(ys);
    }
  }

  lemma HeadsAgree<T>(key: T -> Key, xs: seq<T>, ys: seq<T>)
    requires multiset(xs) == multiset(ys) && Sorted(key, xs) && Sorted(key, ys) && KeysTell(key, xs) && |xs| > 0
    ensures |ys| > 0 && xs[0] == ys[0]
  {
    MembersAgree(xs, ys);
    assert xs[0] in ys && ys[0] in xs;
    var i :| 0 <= i < |xs| && xs[i] == ys[0];
    var j :| 0 <= j < |ys| && ys[j] == xs[0];
    assert Leq(key(xs[0]), key(xs[i])) && Leq(key(ys[0]), key(ys[j]));
    assert key(xs[0]) == key(xs[i]);
  }

  lemma TailsAgree<T>(xs: seq<T>, ys: seq<T>)
    requires multiset(xs) == multiset(ys) && |xs| > 0 && |ys| > 0 && xs[0] == ys[0]
    ensures multiset(xs[1..]) == multiset(ys[1..])
  {
    assert xs == [xs[0]] + xs[1..] && ys == [ys[0]] + ys[1..];
    assert multiset(xs[1..]) == multiset(xs) - multiset{xs[0]};
  }

  lemma TailIsSorted<T>(key: T -> Key, xs: seq<T>)
    requires Sorted(key, xs) && |xs| > 0
    ensures Sorted(key, xs[1..])
  {
  }

  /** If keys tell rows apart, there is only one way to order them. */
  lemma {:induction false} OrderingIsUnique<T>(key: T -> Key, xs: seq<T>, ys: seq<T>)
    requires multiset(xs) == multiset(ys) && Sorted(key, xs) && Sorted(key, ys) && KeysTell(key, xs)
    ensures xs == ys
    decreases |xs|
  {
    MembersAgree(xs, ys);
    if |xs| > 0 {
      HeadsAgree(key, xs, ys);
      TailsAgree(xs, ys);
      TailIsSorted(key, xs);
      TailIsSorted(key, ys);
      OrderingIsUnique(key, xs[1..], ys[1..]);
      assert xs == [xs[0]] + xs[1..] && ys == [ys[0]] + ys[1..];
    }
  }

  function Without<T>(xs: seq<T>, i: nat): seq<T>
    requires i < |xs|
  {
    xs[..i] + xs[i + 1..]
  }

  lemma WithoutOne<T>(xs: seq<T>, i: nat)
    requires i < |xs|
    ensures multiset(xs) == multiset{xs[i]} + multiset(Without(xs, i))
    ensures multiset(Without(xs, i)) == multiset(xs) - multiset{xs[i]}
  {
    assert xs == xs[..i] + [xs[i]] + xs[i + 1..];
  }

  lemma MapWithout<A, B>(f: A -> B, xs: seq<A>, i: nat)
    requires i < |xs|
    ensures Map(f, Without(xs, i)) == Without(Map(f, xs), i)
  {
    var a, b := Map(f, Without(xs, i)), Without(Map(f, xs), i);
    forall k | 0 <= k < |a| ensures a[k] == b[k] {
      assert Without(xs, i)[k] == xs[if k < i then k else k + 1];
    }
  }

  /** Joining further columns to permuted rows permutes the joined rows. */
  lemma {:induction false} MapRespectsPermutation<A, B>(f: A -> B, xs: seq<A>, ys: seq<A>)
    requires multiset(xs) == multiset(ys)
    ensures multiset(Map(f, xs)) == multiset(Map(f, ys))
    decreases |xs|
  {
    MembersAgree(xs, ys);
    if |xs| > 0 {
      assert xs[0] in ys;
      var j :| 0 <= j < |ys| && ys[j] == xs[0];
      WithoutOne(xs, 0);
      WithoutOne(ys, j);
      MapRespectsPermutation(f, Without(xs, 0), Without(ys, j));
      MapWithout(f, xs, 0);
      MapWithout(f, ys, j);
      WithoutOne(Map(f, xs), 0);
      WithoutOne(Map(f, ys), j);
    }
  }

  function Id(k: Key): Key {
    k
  }

  /** Ties or not, the sequence of keys is the same for every ordering. */
  lemma KeysAreUnique<T>(key: T -> Key, xs: seq<T>, ys: seq<T>)
    requires multiset(xs) == multiset(ys) && Sorted(key, xs) && Sorted(key, ys)
    ensures Map(key, xs) == Map(key, ys)
  {
    MapRespectsPermutation(key, xs, ys);
    OrderingIsUnique(Id, Map(key, xs), Map(key, ys));
  }

  function Take<T>(xs: seq<T>, limit: nat): seq<T> {
    if |xs| <= limit then xs else xs[..limit]
  }

  lemma {:induction false} MapTake<A, B>(f: A -> B, xs: seq<A>, limit: nat)
    ensures Map(f, Take(xs, limit)) == Take(Map(f, xs), limit)
  {
  }

  /** Sorting a cut of one ordering again, against cutting another ordering of the same rows. */
  lemma CutsAgree<T>(key: T -> Key, rows: seq<T>, one: seq<T>, page: seq<T>, other: seq<T>, limit: nat)
    requires IsOrdering(key, one, rows) && IsOrdering(key, other, rows) && IsOrdering(key, page, Take(one, limit))
    ensures Map(key, page) == Map(key, Take(other, limit))
    ensures KeysTell(key, one) ==> page == Take(other, limit)
  {
    KeysAreUnique(key, one, other);
    KeysAreUnique(key, page, Take(one, limit));
    MapTake(key, one, limit);
    MapTake(key, other, limit);
    if KeysTell(key, one) {
      OrderingIsUnique(key, one, other);
      OrderingIsUnique(key, Take(one, limit), page);
    }
  }
}
