/** Generic sequence operations: the row filters, column projections and
    column sums the pipeline is built from, with the algebra relating them. */
module Seqs {

  /** The elements of `xs` that satisfy `p`, in their original order
      (a boolean-mask selection `df[mask]`). */
  function Filter<T(!new)>(xs: seq<T>, p: T -> bool): (r: seq<T>)
    ensures |r| <= |xs|
    ensures forall x :: x in r <==> x in xs && p(x)
  {
    if |xs| == 0 then []
    else if p(xs[0]) then [xs[0]] + Filter(xs[1..], p)
    else Filter(xs[1..], p)
  }

  /** `f` applied to every element of `xs`, position by position. */
  function Map<T(!new), U>(xs: seq<T>, f: T -> U): (r: seq<U>)
    ensures |r| == |xs|
    ensures forall i :: 0 <= i < |xs| ==> r[i] == f(xs[i])
    ensures forall x :: x in xs ==> f(x) in r
    ensures forall y :: y in r ==> exists x :: x in xs && y == f(x)
  {
    if |xs| == 0 then [] else [f(xs[0])] + Map(xs[1..], f)
  }

  /** The sum of `f` over `xs` (a column `.sum()`). */
  function Sum<T>(xs: seq<T>, f: T -> int): int
  {
    if |xs| == 0 then 0 else f(xs[0]) + Sum(xs[1..], f)
  }

  /** Filtering distributes over concatenation, keeping relative order. */
  lemma {:induction false} FilterConcat<T(!new)>(a: seq<T>, b: seq<T>, p: T -> bool)
    ensures Filter(a + b, p) == Filter(a, p) + Filter(b, p)
  {
    if |a| == 0 {
      assert a + b == b;
    } else {
      assert (a + b)[0] == a[0];
      assert (a + b)[1..] == a[1..] + b;
      FilterConcat(a[1..], b, p);
    }
  }

  /** An element that satisfies `p` survives exactly where it stood. */
  lemma {:induction false} FilterKeepsInPlace<T(!new)>(a: seq<T>, x: T, b: seq<T>, p: T -> bool)
    requires p(x)
    ensures Filter(a + [x] + b, p) == Filter(a, p) + [x] + Filter(b, p)
  {
    FilterConcat(a + [x], b, p);
    FilterConcat(a, [x], p);
    assert [x][1..] == [];
    assert Filter([x], p) == [x];
  }

  /** An element that fails `p` is removed and nothing else changes. */
  lemma {:induction false} FilterDropsInPlace<T(!new)>(a: seq<T>, x: T, b: seq<T>, p: T -> bool)
    requires !p(x)
    ensures Filter(a + [x] + b, p) == Filter(a, p) + Filter(b, p)
  {
    FilterConcat(a + [x], b, p);
    FilterConcat(a, [x], p);
    assert [x][1..] == [];
    assert Filter([x], p) == [];
    assert Filter(a, p) + Filter([x], p) == Filter(a, p);
  }

  /** Two successive filters are one filter by the conjunction. */
  lemma {:induction false} FilterFuse<T(!new)>(xs: seq<T>, p: T -> bool, q: T -> bool, pq: T -> bool)
    requires forall x :: pq(x) == (p(x) && q(x))
    ensures Filter(Filter(xs, p), q) == Filter(xs, pq)
  {
    if |xs| > 0 {
      FilterFuse(xs[1..], p, q, pq);
    }
  }

  /** Filters by predicates that agree on the elements select the same elements. */
  lemma {:induction false} FilterCongruent<T(!new)>(xs: seq<T>, p: T -> bool, q: T -> bool)
    requires forall x :: x in xs ==> p(x) == q(x)
    ensures Filter(xs, p) == Filter(xs, q)
  {
    if |xs| > 0 {
      assert forall x :: x in xs[1..] ==> x in xs;
      FilterCongruent(xs[1..], p, q);
    }
  }

  /** Mapping distributes over concatenation. */
  lemma {:induction false} MapConcat<T(!new), U>(a: seq<T>, b: seq<T>, f: T -> U)
    ensures Map(a + b, f) == Map(a, f) + Map(b, f)
  {
    if |a| == 0 {
      assert a + b == b;
    } else {
      assert (a + b)[1..] == a[1..] + b;
      MapConcat(a[1..], b, f);
    }
  }

  /** Sums distribute over concatenation. */
  lemma {:induction false} SumConcat<T>(a: seq<T>, b: seq<T>, f: T -> int)
    ensures Sum(a + b, f) == Sum(a, f) + Sum(b, f)
  {
    if |a| == 0 {
      assert a + b == b;
    } else {
      assert (a + b)[0] == a[0];
      assert (a + b)[1..] == a[1..] + b;
      SumConcat(a[1..], b, f);
    }
  }

  /** Summing a projected column is summing the composed selector. */
  lemma {:induction false} SumMap<T(!new), U>(xs: seq<T>, g: T -> U, f: U -> int, h: T -> int)
    requires forall x :: h(x) == f(g(x))
    ensures Sum(Map(xs, g), f) == Sum(xs, h)
  {
    if |xs| > 0 {
      assert Map(xs, g)[1..] == Map(xs[1..], g);
      SumMap(xs[1..], g, f, h);
    }
  }

  /** When every element satisfies exactly one of `p`, `q` and `s`, the sums
      over the three selections add up to the sum over everything. */
  lemma {:induction false} SumPartition3<T(!new)>(xs: seq<T>, p: T -> bool, q: T -> bool, s: T -> bool, f: T -> int)
    requires forall x :: x in xs ==> p(x) || q(x) || s(x)
    requires forall x :: x in xs ==> !(p(x) && q(x)) && !(p(x) && s(x)) && !(q(x) && s(x))
    ensures Sum(Filter(xs, p), f) + Sum(Filter(xs, q), f) + Sum(Filter(xs, s), f) == Sum(xs, f)
  {
    if |xs| > 0 {
      assert forall x :: x in xs[1..] ==> x in xs;
      SumPartition3(xs[1..], p, q, s, f);
    }
  }

  /** An element whose summand is zero changes no filtered sum, whether the
      filter keeps it or not. */
  lemma {:induction false} SumFilterSkipsZero<T(!new)>(a: seq<T>, x: T, b: seq<T>, p: T -> bool, f: T -> int)
    requires f(x) == 0
    ensures Sum(Filter(a + [x] + b, p), f) == Sum(Filter(a + b, p), f)
  {
    FilterConcat(a, b, p);
    SumConcat(Filter(a, p), Filter(b, p), f);
    if p(x) {
      FilterKeepsInPlace(a, x, b, p);
      SumConcat(Filter(a, p) + [x], Filter(b, p), f);
      SumConcat(Filter(a, p), [x], f);
      assert [x][1..] == [];
    } else {
      FilterDropsInPlace(a, x, b, p);
    }
  }

  /** An element whose summand is zero changes no sum. */
  lemma {:induction false} SumSkipsZero<T>(a: seq<T>, x: T, b: seq<T>, f: T -> int)
    requires f(x) == 0
    ensures Sum(a + [x] + b, f) == Sum(a + b, f)
  {
    SumConcat(a + [x], b, f);
    SumConcat(a, [x], f);
    SumConcat(a, b, f);
    assert [x][1..] == [];
  }
}
