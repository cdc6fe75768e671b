/** The array operations the screens chain together (`filter`, `reduce` as a sum,
    `slice`, `reverse`, `sort`), as functions on sequences with their laws. */
module Seqs {
  import opened Wrappers

  /** `a` is an order-preserving subsequence of `b`. */
  ghost predicate IsSubsequence<T>(a: seq<T>, b: seq<T>)
    decreases |b|
  {
    a == [] || (b != [] && ((a[0] == b[0] && IsSubsequence(a[1..], b[1..])) || IsSubsequence(a, b[1..])))
  }

  /** `Array.prototype.filter`: the elements that pass `keep`, in their original order. */
  function Filter<T(!new)>(xs: seq<T>, keep: T -> bool): (r: seq<T>)
    ensures |r| <= |xs|
    ensures forall x :: x in r <==> x in xs && keep(x)
    ensures IsSubsequence(r, xs)
  {
    if xs == [] then []
    else
      var rest := Filter(xs[1..], keep);
      assert xs == [xs[0]] + xs[1..];
      if keep(xs[0]) then [xs[0]] + rest else rest
  }

  /** Filtering a sequence of which every element passes gives it back whole. */
  lemma {:induction false} FilterKeepsAll<T(!new)>(xs: seq<T>, keep: T -> bool)
    requires forall i :: 0 <= i < |xs| ==> keep(xs[i])
    ensures Filter(xs, keep) == xs
  {
    if xs != [] {
      FilterKeepsAll(xs[1..], keep);
    }
  }

  /** Filtering a sequence of which no element passes gives the empty sequence. */
  lemma FilterKeepsNone<T(!new)>(xs: seq<T>, keep: T -> bool)
    requires forall i :: 0 <= i < |xs| ==> !keep(xs[i])
    ensures Filter(xs, keep) == []
  {
  }

  /** Filtering distributes over concatenation. */
  lemma {:induction false} FilterAppend<T(!new)>(a: seq<T>, b: seq<T>, keep: T -> bool)
    ensures Filter(a + b, keep) == Filter(a, keep) + Filter(b, keep)
  {
    if a == [] {
      assert a + b == b;
    } else {
      assert (a + b)[1..] == a[1..] + b;
      FilterAppend(a[1..], b, keep);
    }
  }

  /** Two filters in a row keep exactly what their conjunction keeps. */
  lemma {:induction false} FilterFilter<T(!new)>(xs: seq<T>, p: T -> bool, q: T -> bool, both: T -> bool)
    requires forall x :: both(x) == (p(x) && q(x))
    ensures Filter(Filter(xs, p), q) == Filter(xs, both)
  {
    if xs != [] {
      FilterFilter(xs[1..], p, q, both);
      assert xs == [xs[0]] + xs[1..];
      if p(xs[0]) {
        assert Filter(xs, p) == [xs[0]] + Filter(xs[1..], p);
      }
    }
  }

  /** Two tests that agree on every element keep the same elements. */
  lemma {:induction false} FilterCongruent<T(!new)>(xs: seq<T>, p: T -> bool, q: T -> bool)
    requires forall i :: 0 <= i < |xs| ==> p(xs[i]) == q(xs[i])
    ensures Filter(xs, p) == Filter(xs, q)
  {
    if xs != [] {
      FilterCongruent(xs[1..], p, q);
    }
  }

  /** `xs.reduce((s, x) => s + f(x), 0)`. */
  function SumOf<T>(xs: seq<T>, f: T -> int): int
  {
    if xs == [] then 0 else f(xs[0]) + SumOf(xs[1..], f)
  }

  lemma {:induction false} SumOfAppend<T>(a: seq<T>, b: seq<T>, f: T -> int)
    ensures SumOf(a + b, f) == SumOf(a, f) + SumOf(b, f)
  {
    if a == [] {
      assert a + b == b;
    } else {
      assert (a + b)[1..] == a[1..] + b;
      SumOfAppend(a[1..], b, f);
    }
  }

  /** A sum of non-negative terms is non-negative. */
  lemma {:induction false} SumOfNonNegative<T>(xs: seq<T>, f: T -> int)
    requires forall i :: 0 <= i < |xs| ==> f(xs[i]) >= 0
    ensures SumOf(xs, f) >= 0
  {
    if xs != [] {
      SumOfNonNegative(xs[1..], f);
    }
  }

  /** Summing a pointwise larger function gives a larger sum. */
  lemma {:induction false} SumOfMonotone<T>(xs: seq<T>, f: T -> int, g: T -> int)
    requires forall i :: 0 <= i < |xs| ==> f(xs[i]) <= g(xs[i])
    ensures SumOf(xs, f) <= SumOf(xs, g)
  {
    if xs != [] {
      SumOfMonotone(xs[1..], f, g);
    }
  }

  /** Summing `f` over the kept elements is summing, over all elements, a `g`
      that is `f` on kept elements and 0 elsewhere. */
  lemma {:induction false} SumOfFilter<T(!new)>(xs: seq<T>, keep: T -> bool, f: T -> int, g: T -> int)
    requires forall x :: g(x) == (if keep(x) then f(x) else 0)
    ensures SumOf(Filter(xs, keep), f) == SumOf(xs, g)
  {
    if xs != [] {
      SumOfFilter(xs[1..], keep, f, g);
    }
  }

  /** A difference of two sums is the sum of the pointwise differences. */
  lemma {:induction false} SumOfDifference<T>(xs: seq<T>, f: T -> int, g: T -> int, h: T -> int)
    requires forall x :: h(x) == f(x) - g(x)
    ensures SumOf(xs, f) - SumOf(xs, g) == SumOf(xs, h)
  {
    if xs != [] {
      SumOfDifference(xs[1..], f, g, h);
    }
  }

  /** Taking one term out of a sum. */
  lemma SumOfRemove<T>(b: seq<T>, j: nat, f: T -> int)
    requires j < |b|
    ensures SumOf(b, f) == f(b[j]) + SumOf(b[..j] + b[j + 1..], f)
  {
    var front, back := b[..j], b[j + 1..];
    assert b == (front + [b[j]]) + back;
    SumOfAppend(front + [b[j]], back, f);
    SumOfAppend(front, [b[j]], f);
    SumOfAppend(front, back, f);
  }

  /** Taking one element out of a sequence takes it out of its multiset. */
  lemma MultisetRemove<T>(b: seq<T>, j: nat)
    requires j < |b|
    ensures multiset(b[..j] + b[j + 1..]) == multiset(b) - multiset{b[j]}
  {
    assert b == b[..j] + [b[j]] + b[j + 1..];
    assert multiset(b) == multiset(b[..j]) + multiset{b[j]} + multiset(b[j + 1..]);
  }

  /** A permutation of a non-empty sequence holds its head somewhere, and the
      rest of each are permutations of each other. */
  lemma PermutationOfTail<T>(a: seq<T>, b: seq<T>) returns (j: nat)
    requires a != [] && multiset(a) == multiset(b)
    ensures j < |b| && b[j] == a[0]
    ensures multiset(a[1..]) == multiset(b[..j] + b[j + 1..])
  {
    assert a[0] in multiset(b);
    assert a[0] in b;
    j :| 0 <= j < |b| && b[j] == a[0];
    MultisetRemove(b, j);
    assert a == [a[0]] + a[1..];
  }

  /** A sum does not depend on the order of its terms. */
  lemma {:induction false} SumOfPermutation<T>(a: seq<T>, b: seq<T>, f: T -> int)
    requires multiset(a) == multiset(b)
    ensures SumOf(a, f) == SumOf(b, f)
    decreases |a|
  {
    if a != [] {
      var j := PermutationOfTail(a, b);
      SumOfPermutation(a[1..], b[..j] + b[j + 1..], f);
      SumOfRemove(b, j, f);
    } else {
      assert b == [];
    }
  }

  /** Splitting a sum by a predicate and its complement. */
  lemma {:induction false} SumOfSplit<T(!new)>(xs: seq<T>, p: T -> bool, q: T -> bool, f: T -> int)
    requires forall x :: q(x) == !p(x)
    ensures SumOf(Filter(xs, p), f) + SumOf(Filter(xs, q), f) == SumOf(xs, f)
  {
    if xs != [] {
      SumOfSplit(xs[1..], p, q, f);
    }
  }

  /** `xs.filter(keep).length`, as a sum of ones. */
  lemma {:induction false} FilterLengthIsSum<T(!new)>(xs: seq<T>, keep: T -> bool, one: T -> int)
    requires forall x :: one(x) == (if keep(x) then 1 else 0)
    ensures |Filter(xs, keep)| == SumOf(xs, one)
  {
    if xs != [] {
      FilterLengthIsSum(xs[1..], keep, one);
    }
  }

  /** Two predicates that never hold together keep at most all elements between them. */
  lemma {:induction false} FilterDisjointLengths<T(!new)>(xs: seq<T>, p: T -> bool, q: T -> bool)
    requires forall x :: !(p(x) && q(x))
    ensures |Filter(xs, p)| + |Filter(xs, q)| <= |xs|
  {
    if xs != [] {
      FilterDisjointLengths(xs[1..], p, q);
    }
  }

  /** A test and its negation split a sequence between them. */
  lemma {:induction false} FilterComplementLengths<T(!new)>(xs: seq<T>, p: T -> bool, q: T -> bool)
    requires forall x :: q(x) == !p(x)
    ensures |Filter(xs, p)| + |Filter(xs, q)| == |xs|
  {
    if xs != [] {
      FilterComplementLengths(xs[1..], p, q);
    }
  }

  /** Sums of two functions that agree on every element are equal. */
  lemma {:induction false} SumOfCongruent<T>(xs: seq<T>, f: T -> int, g: T -> int)
    requires forall i :: 0 <= i < |xs| ==> f(xs[i]) == g(xs[i])
    ensures SumOf(xs, f) == SumOf(xs, g)
  {
    if xs != [] {
      SumOfCongruent(xs[1..], f, g);
    }
  }

  /** The number of elements that pass `keep` does not depend on their order. */
  lemma FilterLengthPermutation<T(!new)>(a: seq<T>, b: seq<T>, keep: T -> bool)
    requires multiset(a) == multiset(b)
    ensures |Filter(a, keep)| == |Filter(b, keep)|
  {
    var one := (x: T) => if keep(x) then 1 else 0;
    FilterLengthIsSum(a, keep, one);
    FilterLengthIsSum(b, keep, one);
    SumOfPermutation(a, b, one);
  }

  /** The last `n` elements (`xs.slice(-n)` for n > 0), all of them when there are fewer. */
  function LastN<T>(xs: seq<T>, n: nat): (r: seq<T>)
    ensures |r| == if n < |xs| then n else |xs|
    ensures forall i :: 0 <= i < |r| ==> r[i] == xs[|xs| - |r| + i]
  {
    if n < |xs| then xs[|xs| - n..] else xs
  }

  /** The first `n` elements (`xs.slice(0, n)`), all of them when there are fewer. */
  function Take<T>(xs: seq<T>, n: nat): (r: seq<T>)
    ensures |r| == if n < |xs| then n else |xs|
    ensures forall i :: 0 <= i < |r| ==> r[i] == xs[i]
  {
    if n < |xs| then xs[..n] else xs
  }

  /** `Array.prototype.reverse`. */
  function Reverse<T>(xs: seq<T>): (r: seq<T>)
    ensures |r| == |xs|
    ensures forall i :: 0 <= i < |xs| ==> r[i] == xs[|xs| - 1 - i]
  {
    if xs == [] then [] else Reverse(xs[1..]) + [xs[0]]
  }

  /** `le` orders every pair of values and is transitive: what a sort comparator needs. */
  ghost predicate TotalPreorder<T(!new)>(le: (T, T) -> bool)
  {
    && (forall a, b :: le(a, b) || le(b, a))
    && (forall a, b, c :: le(a, b) && le(b, c) ==> le(a, c))
  }

  predicate SortedBy<T>(xs: seq<T>, le: (T, T) -> bool)
  {
    forall i, j :: 0 <= i < j < |xs| ==> le(xs[i], xs[j])
  }

  /** Inserts `x` in front of the first element it is not after, so that among
      equal keys the earlier element stays first. */
  function Insert<T(!new)>(x: T, xs: seq<T>, le: (T, T) -> bool): (r: seq<T>)
    requires TotalPreorder(le)
    requires SortedBy(xs, le)
    ensures multiset(r) == multiset(xs) + multiset{x}
    ensures SortedBy(r, le)
  {
    if xs == [] then [x]
    else if le(x, xs[0]) then
      InsertInFront(x, xs, le);
      [x] + xs
    else
      var rest := Insert(x, xs[1..], le);
      InsertFurther(x, xs, le, rest);
      [xs[0]] + rest
  }

  lemma InsertInFront<T(!new)>(x: T, xs: seq<T>, le: (T, T) -> bool)
    requires TotalPreorder(le) && SortedBy(xs, le)
    requires xs != [] && le(x, xs[0])
    ensures SortedBy([x] + xs, le)
  {
    forall j | 0 <= j < |xs| ensures le(x, xs[j]) {
      if j > 0 { assert le(xs[0], xs[j]); }
    }
    var r := [x] + xs;
    forall i, j | 0 <= i < j < |r| ensures le(r[i], r[j]) {
      if i > 0 { assert r[i] == xs[i - 1] && r[j] == xs[j - 1]; }
    }
  }

  lemma InsertFurther<T(!new)>(x: T, xs: seq<T>, le: (T, T) -> bool, rest: seq<T>)
    requires TotalPreorder(le) && SortedBy(xs, le)
    requires xs != [] && !le(x, xs[0])
    requires SortedBy(rest, le) && multiset(rest) == multiset(xs[1..]) + multiset{x}
    ensures SortedBy([xs[0]] + rest, le)
    ensures multiset([xs[0]] + rest) == multiset(xs) + multiset{x}
  {
    assert xs == [xs[0]] + xs[1..];
    forall k | 0 <= k < |rest| ensures le(xs[0], rest[k]) {
      assert rest[k] in multiset(rest);
      if rest[k] != x {
        assert rest[k] in multiset(xs[1..]);
        var j :| 0 <= j < |xs[1..]| && xs[1..][j] == rest[k];
        assert le(xs[0], xs[j + 1]);
      }
    }
    var r := [xs[0]] + rest;
    forall i, j | 0 <= i < j < |r| ensures le(r[i], r[j]) {
      if i > 0 { assert r[i] == rest[i - 1] && r[j] == rest[j - 1]; }
    }
  }

  /** `Array.prototype.sort` with a comparator whose "not greater" relation is `le`:
      a permutation of the input, ordered by `le`. */
  function Sort<T(!new)>(xs: seq<T>, le: (T, T) -> bool): (r: seq<T>)
    requires TotalPreorder(le)
    ensures |r| == |xs|
    ensures multiset(r) == multiset(xs)
    ensures SortedBy(r, le)
  {
    if xs == [] then []
    else
      assert xs == [xs[0]] + xs[1..];
      var r := Insert(xs[0], Sort(xs[1..], le), le);
      assert |r| == |multiset(r)|;
      r
  }

  /** `Array.prototype.find`: the first element that passes `p`, if any. */
  function Find<T(==)>(xs: seq<T>, p: T -> bool): (r: Option<T>)
    ensures r.None? <==> forall i :: 0 <= i < |xs| ==> !p(xs[i])
    ensures r.Some? ==> exists i :: 0 <= i < |xs| && xs[i] == r.value && p(xs[i]) && IsFirst(xs, p, i)
  {
    if xs == [] then None
    else if p(xs[0]) then
      assert IsFirst(xs, p, 0);
      Some(xs[0])
    else
      var r := Find(xs[1..], p);
      if r.Some? then
        var i :| 0 <= i < |xs[1..]| && xs[1..][i] == r.value && p(xs[1..][i]) && IsFirst(xs[1..], p, i);
        assert IsFirst(xs, p, i + 1);
        r
      else r
  }

  /** No element before index `i` passes `p`. */
  predicate IsFirst<T>(xs: seq<T>, p: T -> bool, i: nat)
    requires i <= |xs|
  {
    forall j :: 0 <= j < i ==> !p(xs[j])
  }

  /** No value occurs twice. */
  ghost predicate Distinct<T>(xs: seq<T>)
  {
    forall i, j :: 0 <= i < j < |xs| ==> xs[i] != xs[j]
  }

  /** A value at two positions is counted at least twice. */
  lemma TwoPositionsCountTwice<T>(a: seq<T>, i: nat, j: nat)
    requires i < j < |a| && a[i] == a[j]
    ensures multiset(a)[a[i]] >= 2
  {
    assert a == a[..i] + [a[i]] + a[i + 1..j] + [a[j]] + a[j + 1..];
  }

  /** In a sequence without repeats every value is counted at most once. */
  lemma {:induction false} DistinctCountsOnce<T>(b: seq<T>, x: T)
    requires Distinct(b)
    ensures multiset(b)[x] <= 1
  {
    if b != [] {
      DistinctCountsOnce(b[1..], x);
      assert b == [b[0]] + b[1..];
      if b[0] == x {
        assert x !in b[1..];
      }
    }
  }

  /** A rearrangement of a sequence without repeats has no repeats. */
  lemma DistinctPermutation<T>(a: seq<T>, b: seq<T>)
    requires multiset(a) == multiset(b) && Distinct(b)
    ensures Distinct(a)
  {
    forall i, j | 0 <= i < j < |a| ensures a[i] != a[j] {
      if a[i] == a[j] {
        TwoPositionsCountTwice(a, i, j);
        DistinctCountsOnce(b, a[i]);
      }
    }
  }

  /** Replacing one element changes the sum by the difference of the two. */
  lemma SumOfUpdate<T>(xs: seq<T>, p: nat, y: T, f: T -> int)
    requires p < |xs|
    ensures SumOf(xs[p := y], f) == SumOf(xs, f) - f(xs[p]) + f(y)
  {
    var ys := xs[p := y];
    assert xs == xs[..p] + ([xs[p]] + xs[p + 1..]);
    assert ys == xs[..p] + ([y] + xs[p + 1..]);
    SumOfAppend(xs[..p], [xs[p]] + xs[p + 1..], f);
    SumOfAppend(xs[..p], [y] + xs[p + 1..], f);
    SumOfAppend([xs[p]], xs[p + 1..], f);
    SumOfAppend([y], xs[p + 1..], f);
  }

  /** A list without repetitions has as many elements as the set of its elements. */
  lemma {:induction false} DistinctCardinality<T>(xs: seq<T>)
    requires Distinct(xs)
    ensures |set x | x in xs| == |xs|
  {
    if xs != [] {
      var rest := xs[1..];
      assert Distinct(rest);
      DistinctCardinality(rest);
      assert (set x | x in xs) == (set x | x in rest) + {xs[0]};
      assert xs[0] !in rest;
    }
  }

  /** The first `n` of a list is part of it. */
  lemma TakeIsPart<T>(xs: seq<T>, n: nat)
    ensures multiset(Take(xs, n)) <= multiset(xs)
  {
    if n < |xs| {
      assert xs == xs[..n] + xs[n..];
    }
  }

  /** `xs.sort(cmp).slice(0, n)`: the first `n` elements in `le` order. Every
      element is among them, or the list is full and every element listed may
      precede it. */
  function TopN<T(!new)>(xs: seq<T>, le: (T, T) -> bool, n: nat): (r: seq<T>)
    requires TotalPreorder(le)
    ensures |r| == if n < |xs| then n else |xs|
    ensures SortedBy(r, le)
    ensures multiset(r) <= multiset(xs)
    ensures n >= |xs| ==> multiset(r) == multiset(xs)
    ensures forall x :: x in xs ==> x in r || (|r| == n && forall i :: 0 <= i < |r| ==> le(r[i], x))
  {
    var sorted := Sort(xs, le);
    var r := Take(sorted, n);
    TakeIsPart(sorted, n);
    forall x | x in xs ensures x in r || (|r| == n && forall i :: 0 <= i < |r| ==> le(r[i], x)) {
      TopNCovers(xs, sorted, le, n, x);
    }
    r
  }

  lemma TopNCovers<T>(xs: seq<T>, sorted: seq<T>, le: (T, T) -> bool, n: nat, x: T)
    requires multiset(sorted) == multiset(xs) && SortedBy(sorted, le) && x in xs
    ensures var r := Take(sorted, n);
            x in r || (|r| == n && forall i :: 0 <= i < |r| ==> le(r[i], x))
  {
    var r := Take(sorted, n);
    assert x in multiset(sorted);
    var m :| 0 <= m < |sorted| && sorted[m] == x;
    if m < |r| {
      assert r[m] == x;
    }
  }

  /** A subset is no larger than its superset. */
  lemma {:induction false} SubsetCardinality<T>(a: set<T>, b: set<T>)
    requires a <= b
    ensures |a| <= |b|
    decreases |a|
  {
    if a != {} {
      var x :| x in a;
      SubsetCardinality(a - {x}, b - {x});
    }
  }

  /** A list without repetitions that lies in a set of its own size lists every
      element of the set; returns where `x` is listed. */
  lemma ListedWhenAsLarge<T>(xs: seq<T>, s: set<T>, x: T) returns (p: nat)
    requires Distinct(xs) && |s| == |xs| && x in s
    requires forall i :: 0 <= i < |xs| ==> xs[i] in s
    ensures p < |xs| && xs[p] == x
  {
    if x !in xs {
      var listed := set y | y in xs;
      DistinctCardinality(xs);
      SubsetCardinality(listed, s - {x});
    }
    p :| 0 <= p < |xs| && xs[p] == x;
  }

  /** The first `n` of the elements that pass `keep`: each passes and comes
      from `xs`, every element that passes is listed unless `n` elements at
      least as good are, and with `n > 0` the list is empty only when none passes. */
  lemma TopNOfFilter<T(!new)>(xs: seq<T>, keep: T -> bool, le: (T, T) -> bool, n: nat)
    requires TotalPreorder(le)
    ensures var r := TopN(Filter(xs, keep), le, n);
            && |r| <= n
            && SortedBy(r, le)
            && (forall i :: 0 <= i < |r| ==> r[i] in xs && keep(r[i]))
            && (forall x :: x in xs && keep(x) ==> x in r || (|r| == n && forall i :: 0 <= i < |r| ==> le(r[i], x)))
            && (n > 0 ==> (r == [] <==> forall x :: x in xs ==> !keep(x)))
  {
    var kept := Filter(xs, keep);
    var r := TopN(kept, le, n);
    forall i | 0 <= i < |r| ensures r[i] in kept {
      assert r[i] in multiset(r);
    }
    forall x | x in xs && keep(x) ensures x in r || (|r| == n && forall i :: 0 <= i < |r| ==> le(r[i], x)) {
      assert x in kept;
    }
    if n > 0 && r == [] {
      assert kept == [];
    }
  }
}
