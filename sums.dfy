/** Sums, counts and order-preserving filters over in-memory record lists: the
    shapes of Python's sum(...), len([...]) and list comprehensions with `if`,
    and of the database's SUM/COUNT aggregates. Sums of an empty list are 0. */
module Sums {

  function SumBy<T>(xs: seq<T>, f: T -> real): real
    decreases |xs|
  {
    if xs == [] then 0.0 else f(xs[0]) + SumBy(xs[1..], f)
  }

  lemma {:induction false} SumByAppend<T>(xs: seq<T>, ys: seq<T>, f: T -> real)
    ensures SumBy(xs + ys, f) == SumBy(xs, f) + SumBy(ys, f)
    decreases |xs|
  {
    if xs == [] {
      assert xs + ys == ys;
    } else {
      assert (xs + ys)[1..] == xs[1..] + ys;
      SumByAppend(xs[1..], ys, f);
    }
  }

  lemma SumByCons<T>(x: T, xs: seq<T>, f: T -> real)
    ensures SumBy([x] + xs, f) == f(x) + SumBy(xs, f)
  {
    assert ([x] + xs)[1..] == xs;
  }

  lemma SumByRemove<T>(xs: seq<T>, i: nat, f: T -> real)
    requires i < |xs|
    ensures SumBy(xs, f) == f(xs[i]) + SumBy(xs[..i] + xs[i + 1..], f)
  {
    var a, x, b := xs[..i], xs[i], xs[i + 1..];
    assert xs[i..] == [x] + b;
    assert xs == a + xs[i..];
    SumByAppend(a, xs[i..], f);
    SumByCons(x, b, f);
    SumByAppend(a, b, f);
  }

  lemma MultisetRemove<T>(ys: seq<T>, i: nat)
    requires i < |ys|
    ensures multiset(ys[..i] + ys[i + 1..]) == multiset(ys) - multiset{ys[i]}
  {
    assert ys == ys[..i] + [ys[i]] + ys[i + 1..];
    assert multiset(ys) == multiset(ys[..i]) + multiset{ys[i]} + multiset(ys[i + 1..]);
  }

  /** Taking the same element out of two permutations of each other leaves permutations. */
  lemma PermutationRest<T>(xs: seq<T>, ys: seq<T>, i: nat)
    requires multiset(xs) == multiset(ys) && xs != [] && i < |ys| && ys[i] == xs[0]
    ensures multiset(xs[1..]) == multiset(ys[..i] + ys[i + 1..])
  {
    var x, a, b := xs[0], ys[..i], ys[i + 1..];
    assert xs == [x] + xs[1..];
    assert multiset(xs) == multiset{x} + multiset(xs[1..]);
    assert ys == a + [x] + b;
    assert multiset(ys) == multiset(a) + multiset{x} + multiset(b);
    assert multiset(a + b) == multiset(a) + multiset(b);
    assert multiset(xs[1..]) == multiset(xs) - multiset{x};
    assert multiset(a) + multiset(b) == multiset(ys) - multiset{x};
  }

  /** A sum does not depend on the order of the summands. */
  lemma {:induction false} SumByPermutation<T>(xs: seq<T>, ys: seq<T>, f: T -> real)
    requires multiset(xs) == multiset(ys)
    ensures SumBy(xs, f) == SumBy(ys, f)
    decreases |xs|
  {
    if xs == [] {
      assert |ys| == |multiset(ys)| == 0;
    } else {
      assert xs[0] in multiset(ys);
      var i :| 0 <= i < |ys| && ys[i] == xs[0];
      PermutationRest(xs, ys, i);
      SumByPermutation(xs[1..], ys[..i] + ys[i + 1..], f);
      SumByRemove(ys, i, f);
    }
  }

  function CountBy<T>(xs: seq<T>, p: T -> bool): (n: nat)
    ensures n <= |xs|
    decreases |xs|
  {
    if xs == [] then 0 else (if p(xs[0]) then 1 else 0) + CountBy(xs[1..], p)
  }

  /** One for the records that satisfy p, zero for the others. */
  function Indicator<T>(p: T -> bool): T -> real
  {
    x => if p(x) then 1.0 else 0.0
  }

  /** A count is the sum of the indicator. */
  lemma {:induction false} CountBySum<T>(xs: seq<T>, p: T -> bool)
    ensures CountBy(xs, p) as real == SumBy(xs, Indicator(p))
    decreases |xs|
  {
    if xs != [] {
      CountBySum(xs[1..], p);
    }
  }

  /** Counting over a concatenation adds the counts of the parts. */
  lemma {:induction false} CountByAppend<T>(xs: seq<T>, ys: seq<T>, p: T -> bool)
    ensures CountBy(xs + ys, p) == CountBy(xs, p) + CountBy(ys, p)
    decreases |xs|
  {
    if xs == [] {
      assert xs + ys == ys;
    } else {
      assert (xs + ys)[1..] == xs[1..] + ys;
      CountByAppend(xs[1..], ys, p);
    }
  }

  /** Elements that fail the predicate are not counted. */
  lemma {:induction false} CountByNone<T>(xs: seq<T>, p: T -> bool)
    requires forall i :: 0 <= i < |xs| ==> !p(xs[i])
    ensures CountBy(xs, p) == 0
    decreases |xs|
  {
    if xs != [] { CountByNone(xs[1..], p); }
  }

  /** The list comprehension `[x for x in xs if p(x)]`. */
  function Filter<T>(xs: seq<T>, p: T -> bool): (r: seq<T>)
    ensures |r| <= |xs|
    ensures forall x :: x in r ==> x in xs && p(x)
    decreases |xs|
  {
    if xs == [] then [] else (if p(xs[0]) then [xs[0]] else []) + Filter(xs[1..], p)
  }

  /** The filter keeps exactly the elements that satisfy p, each as often as in the input. */
  lemma {:induction false} FilterMultiset<T>(xs: seq<T>, p: T -> bool)
    ensures forall x :: multiset(Filter(xs, p))[x] == if p(x) then multiset(xs)[x] else 0
    decreases |xs|
  {
    if xs != [] {
      FilterMultiset(xs[1..], p);
      assert xs == [xs[0]] + xs[1..];
    }
  }

  /** An element is kept exactly when it occurs in the input and satisfies p. */
  lemma {:induction false} FilterMembers<T>(xs: seq<T>, p: T -> bool)
    ensures forall x :: x in Filter(xs, p) <==> x in xs && p(x)
    decreases |xs|
  {
    if xs != [] {
      FilterMembers(xs[1..], p);
      assert forall x :: x in xs <==> x == xs[0] || x in xs[1..];
    }
  }

  lemma {:induction false} FilterAppend<T>(xs: seq<T>, ys: seq<T>, p: T -> bool)
    ensures Filter(xs + ys, p) == Filter(xs, p) + Filter(ys, p)
    decreases |xs|
  {
    if xs == [] {
      assert xs + ys == ys;
    } else {
      assert (xs + ys)[1..] == xs[1..] + ys;
      FilterAppend(xs[1..], ys, p);
    }
  }

  /** A predicate every element satisfies filters nothing out. */
  lemma {:induction false} FilterAll<T>(xs: seq<T>, p: T -> bool)
    requires forall x :: x in xs ==> p(x)
    ensures Filter(xs, p) == xs
    decreases |xs|
  {
    if xs != [] {
      FilterAll(xs[1..], p);
      assert [xs[0]] + xs[1..] == xs;
    }
  }

  /** Pointwise equal predicates filter alike. */
  lemma {:induction false} FilterExt<T>(xs: seq<T>, p: T -> bool, q: T -> bool)
    requires forall x :: p(x) == q(x)
    ensures Filter(xs, p) == Filter(xs, q)
    decreases |xs|
  {
    if xs != [] { FilterExt(xs[1..], p, q); }
  }

  /** A predicate no element satisfies filters everything out. */
  lemma {:induction false} FilterNothing<T>(xs: seq<T>, p: T -> bool)
    requires forall x :: x in xs ==> !p(x)
    ensures Filter(xs, p) == []
    decreases |xs|
  {
    if xs != [] { FilterNothing(xs[1..], p); }
  }

  /** Leaving out an element that fails the test makes the filter shorter than the input. */
  lemma {:induction false} FilterMissing<T>(xs: seq<T>, p: T -> bool, i: nat)
    requires i < |xs| && !p(xs[i])
    ensures |Filter(xs, p)| < |xs|
    decreases |xs|
  {
    if i > 0 { FilterMissing(xs[1..], p, i - 1); }
  }

  /** Filtering by p and then by q keeps what satisfies both. */
  lemma {:induction false} FilterFilter<T>(xs: seq<T>, p: T -> bool, q: T -> bool, pq: T -> bool)
    requires forall x :: pq(x) == (p(x) && q(x))
    ensures Filter(Filter(xs, p), q) == Filter(xs, pq)
    decreases |xs|
  {
    if xs != [] {
      FilterFilter(xs[1..], p, q, pq);
      var head := if p(xs[0]) then [xs[0]] else [];
      FilterAppend(head, Filter(xs[1..], p), q);
      if p(xs[0]) { assert head[1..] == []; }
    }
  }

  /** Filtering a second time with the same predicate changes nothing. */
  lemma {:induction false} FilterIdempotent<T>(xs: seq<T>, p: T -> bool)
    ensures Filter(Filter(xs, p), p) == Filter(xs, p)
    decreases |xs|
  {
    if xs != [] {
      FilterIdempotent(xs[1..], p);
      var head := if p(xs[0]) then [xs[0]] else [];
      FilterAppend(head, Filter(xs[1..], p), p);
      if p(xs[0]) { assert Filter(head, p) == head by { assert head[1..] == []; } }
    }
  }

  /** The filter keeps as many elements as the predicate counts. */
  lemma {:induction false} FilterLength<T>(xs: seq<T>, p: T -> bool)
    ensures |Filter(xs, p)| == CountBy(xs, p)
    decreases |xs|
  {
    if xs != [] { FilterLength(xs[1..], p); }
  }

  /** Summing over a filtered list is summing the weights of the kept elements. */
  lemma {:induction false} SumByFilter<T>(xs: seq<T>, p: T -> bool, f: T -> real, g: T -> real)
    requires forall x :: g(x) == if p(x) then f(x) else 0.0
    ensures SumBy(Filter(xs, p), f) == SumBy(xs, g)
    decreases |xs|
  {
    if xs != [] {
      var head := if p(xs[0]) then [xs[0]] else [];
      SumByAppend(head, Filter(xs[1..], p), f);
      SumByFilter(xs[1..], p, f, g);
      if p(xs[0]) { assert head[1..] == []; }
    }
  }

  /** Pointwise equal weights give equal sums. */
  lemma {:induction false} SumByExt<T>(xs: seq<T>, f: T -> real, g: T -> real)
    requires forall x :: x in xs ==> f(x) == g(x)
    ensures SumBy(xs, f) == SumBy(xs, g)
    decreases |xs|
  {
    if xs != [] { SumByExt(xs[1..], f, g); }
  }

  /** Sums of two weightings add up pointwise. */
  lemma {:induction false} SumByAdd<T>(xs: seq<T>, f: T -> real, g: T -> real, h: T -> real)
    requires forall x :: h(x) == f(x) + g(x)
    ensures SumBy(xs, h) == SumBy(xs, f) + SumBy(xs, g)
    decreases |xs|
  {
    if xs != [] { SumByAdd(xs[1..], f, g, h); }
  }

  /** A sum of non-negative weights is non-negative. */
  lemma {:induction false} SumByNonNegative<T>(xs: seq<T>, f: T -> real)
    ensures (forall x :: x in xs ==> f(x) >= 0.0) ==> SumBy(xs, f) >= 0.0
    decreases |xs|
  {
    if xs != [] { SumByNonNegative(xs[1..], f); }
  }

  /** A sum of zero weights is zero. */
  lemma {:induction false} SumByZero<T>(xs: seq<T>, f: T -> real)
    requires forall x :: x in xs ==> f(x) == 0.0
    ensures SumBy(xs, f) == 0.0
    decreases |xs|
  {
    if xs != [] { SumByZero(xs[1..], f); }
  }

  /** Summing a constant over the elements that satisfy p is the constant
      times their number. */
  lemma {:induction false} SumByIndicator<T>(xs: seq<T>, p: T -> bool, a: real, f: T -> real)
    requires forall x :: f(x) == if p(x) then a else 0.0
    ensures SumBy(xs, f) == a * (CountBy(xs, p) as real)
    decreases |xs|
  {
    if xs != [] { SumByIndicator(xs[1..], p, a, f); }
  }

  /** The sum of a sum over x and y sums row-wise or column-wise alike:
      rows(x) sums f(x) over ys, cols(y) sums g(y) over xs, and g(y)(x) == f(x)(y). */
  lemma {:induction false} SumBySwap<A, B>(xs: seq<A>, ys: seq<B>, f: A -> B -> real, g: B -> A -> real,
                                          rows: A -> real, cols: B -> real)
    requires forall x, y :: g(y)(x) == f(x)(y)
    requires forall x :: rows(x) == SumBy(ys, f(x))
    requires forall y :: cols(y) == SumBy(xs, g(y))
    ensures SumBy(xs, rows) == SumBy(ys, cols)
    decreases |xs|
  {
    if xs == [] {
      SumByZero(ys, cols);
    } else {
      var tailCols := y => SumBy(xs[1..], g(y));
      SumBySwap(xs[1..], ys, f, g, rows, tailCols);
      SumByAdd(ys, f(xs[0]), tailCols, cols);
    }
  }
}
