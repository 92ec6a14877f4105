/** Ordering of records by a numeric key, largest first: the shape of the
    database's `ORDER BY key DESC`. Records with equal keys may come in any
    order, so the model keeps them in the order insertion leaves them. */
module Sorting {
  import opened Sums

  /** Every record comes no later than all the records with a larger key. */
  predicate DescendingBy<T>(xs: seq<T>, key: T -> real)
  {
    forall i, j :: 0 <= i < j < |xs| ==> key(xs[j]) <= key(xs[i])
  }

  /** No key in xs is larger than b. */
  predicate BoundedBy<T>(xs: seq<T>, key: T -> real, b: real)
  {
    forall i :: 0 <= i < |xs| ==> key(xs[i]) <= b
  }

  /** The tail of a descending list is descending and bounded by the head. */
  lemma DescendingTail<T>(xs: seq<T>, key: T -> real)
    requires xs != [] && DescendingBy(xs, key)
    ensures DescendingBy(xs[1..], key) && BoundedBy(xs[1..], key, key(xs[0]))
  {
    var tail := xs[1..];
    forall i, j | 0 <= i < j < |tail|
      ensures key(tail[j]) <= key(tail[i])
    {
      assert tail[i] == xs[i + 1] && tail[j] == xs[j + 1];
    }
    forall i | 0 <= i < |tail|
      ensures key(tail[i]) <= key(xs[0])
    {
      assert tail[i] == xs[i + 1];
    }
  }

  /** A head no smaller than a descending tail makes a descending list. */
  lemma DescendingCons<T>(x: T, rest: seq<T>, key: T -> real)
    requires DescendingBy(rest, key) && BoundedBy(rest, key, key(x))
    ensures DescendingBy([x] + rest, key)
  {
    var r := [x] + rest;
    forall i, j | 0 <= i < j < |r|
      ensures key(r[j]) <= key(r[i])
    {
      assert r[j] == rest[j - 1];
      if i > 0 { assert r[i] == rest[i - 1]; }
    }
  }

  /** Places x in front of the first record whose key is not larger. */
  function InsertDesc<T>(x: T, xs: seq<T>, key: T -> real): (r: seq<T>)
    ensures multiset(r) == multiset(xs) + multiset{x}
    decreases |xs|
  {
    if xs == [] then [x]
    else if key(xs[0]) <= key(x) then [x] + xs
    else
      assert xs == [xs[0]] + xs[1..];
      [xs[0]] + InsertDesc(x, xs[1..], key)
  }

  lemma BoundedCons<T>(x: T, rest: seq<T>, key: T -> real, b: real)
    requires key(x) <= b && BoundedBy(rest, key, b)
    ensures BoundedBy([x] + rest, key, b)
  {
    var r := [x] + rest;
    forall i | 0 < i < |r|
      ensures key(r[i]) <= b
    {
      assert r[i] == rest[i - 1];
    }
  }

  /** Inserting a record keeps every key under a bound that all of them already respect. */
  lemma {:induction false} InsertDescBounded<T>(x: T, xs: seq<T>, key: T -> real, b: real)
    requires key(x) <= b && BoundedBy(xs, key, b)
    ensures BoundedBy(InsertDesc(x, xs, key), key, b)
    decreases |xs|
  {
    if xs == [] {
      BoundedCons(x, xs, key, b);
    } else if key(x) < key(xs[0]) {
      assert BoundedBy(xs[1..], key, b) by {
        forall i | 0 <= i < |xs[1..]| ensures key(xs[1..][i]) <= b { assert xs[1..][i] == xs[i + 1]; }
      }
      InsertDescBounded(x, xs[1..], key, b);
      BoundedCons(xs[0], InsertDesc(x, xs[1..], key), key, b);
    } else {
      BoundedCons(x, xs, key, b);
    }
  }

  lemma {:induction false} InsertDescSorted<T>(x: T, xs: seq<T>, key: T -> real)
    requires DescendingBy(xs, key)
    ensures DescendingBy(InsertDesc(x, xs, key), key)
    decreases |xs|
  {
    if xs == [] {
      assert InsertDesc(x, xs, key) == [x];
    } else if key(x) < key(xs[0]) {
      DescendingTail(xs, key);
      InsertDescSorted(x, xs[1..], key);
      InsertDescBounded(x, xs[1..], key, key(xs[0]));
      DescendingCons(xs[0], InsertDesc(x, xs[1..], key), key);
    } else {
      assert BoundedBy(xs, key, key(x)) by {
        forall i | 0 <= i < |xs| ensures key(xs[i]) <= key(x) { assert key(xs[i]) <= key(xs[0]); }
      }
      DescendingCons(x, xs, key);
    }
  }

  /** Insertion sort by key, largest first. */
  function SortDesc<T>(xs: seq<T>, key: T -> real): (r: seq<T>)
    ensures multiset(r) == multiset(xs)
    ensures DescendingBy(r, key)
    decreases |xs|
  {
    if xs == [] then []
    else
      var rest := SortDesc(xs[1..], key);
      InsertDescSorted(xs[0], rest, key);
      assert xs == [xs[0]] + xs[1..];
      InsertDesc(xs[0], rest, key)
  }

  /** Sorting keeps exactly the records of the input. */
  lemma SortDescMembers<T>(xs: seq<T>, key: T -> real)
    ensures forall x :: x in SortDesc(xs, key) <==> x in xs
  {
    var r := SortDesc(xs, key);
    forall x
      ensures x in r <==> x in xs
    {
      assert x in r <==> x in multiset(r);
      assert x in xs <==> x in multiset(xs);
    }
  }

  /** Keeping a subsequence of a sorted list keeps it sorted. */
  /** Keeping a subsequence keeps every key under a bound. */
  lemma {:induction false} FilterBounded<T>(xs: seq<T>, p: T -> bool, key: T -> real, b: real)
    requires BoundedBy(xs, key, b)
    ensures BoundedBy(Filter(xs, p), key, b)
  {
    var r := Filter(xs, p);
    forall i | 0 <= i < |r|
      ensures key(r[i]) <= b
    {
      assert r[i] in r;
      var j :| 0 <= j < |xs| && xs[j] == r[i];
    }
  }

  lemma {:induction false} FilterKeepsOrder<T>(xs: seq<T>, p: T -> bool, key: T -> real)
    requires DescendingBy(xs, key)
    ensures DescendingBy(Filter(xs, p), key)
    decreases |xs|
  {
    if xs != [] {
      DescendingTail(xs, key);
      FilterKeepsOrder(xs[1..], p, key);
      if p(xs[0]) {
        FilterBounded(xs[1..], p, key, key(xs[0]));
        DescendingCons(xs[0], Filter(xs[1..], p), key);
      }
      assert Filter(xs, p) == (if p(xs[0]) then [xs[0]] else []) + Filter(xs[1..], p);
    }
  }

  /** Two lists that are permutations of each other have the same count of
      records that satisfy p. */
  lemma CountByPermutation<T>(xs: seq<T>, ys: seq<T>, p: T -> bool)
    requires multiset(xs) == multiset(ys)
    ensures CountBy(xs, p) == CountBy(ys, p)
  {
    CountBySum(xs, p);
    CountBySum(ys, p);
    SumByPermutation(xs, ys, Indicator(p));
  }
}
