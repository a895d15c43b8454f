/** Sequence operations behind the source's `Array.prototype.filter`,
    summation loops and `[...new Set(xs)]`. */
module Seqs {

  /** `xs.filter(keep)`. */
  function Filter<T(!new)>(xs: seq<T>, keep: T -> bool): (r: seq<T>)
    ensures |r| <= |xs|
    ensures forall x :: x in r <==> x in xs && keep(x)
    ensures forall x :: multiset(r)[x] == if keep(x) then multiset(xs)[x] else 0
  {
    if xs == [] then []
    else
      assert xs == [xs[0]] + xs[1..];
      if keep(xs[0]) then [xs[0]] + Filter(xs[1..], keep)
      else Filter(xs[1..], keep)
  }

  /** `sub` can be obtained from `xs` by deleting elements, keeping the order. */
  ghost predicate IsSubsequence<T>(sub: seq<T>, xs: seq<T>)
    decreases |xs|
  {
    if sub == [] then true
    else if xs == [] then false
    else if sub[0] == xs[0] then IsSubsequence(sub[1..], xs[1..])
    else IsSubsequence(sub, xs[1..])
  }

  /** `filter` keeps the surviving elements in their original order. */
  lemma {:induction false} FilterIsSubsequence<T(!new)>(xs: seq<T>, keep: T -> bool)
    ensures IsSubsequence(Filter(xs, keep), xs)
  {
    if xs != [] {
      FilterIsSubsequence(xs[1..], keep);
      if !keep(xs[0]) {
        SubsequenceOfTail(Filter(xs[1..], keep), xs);
      }
    }
  }

  lemma {:induction false} SubsequenceOfTail<T(!new)>(sub: seq<T>, xs: seq<T>)
    requires xs != [] && IsSubsequence(sub, xs[1..])
    ensures IsSubsequence(sub, xs)
    decreases |xs|, 1
  {
    if sub != [] && sub[0] == xs[0] {
      var ys := xs[1..];
      if sub[0] == ys[0] {
        SubsequenceOfTail(sub[1..], ys);
      } else {
        SubsequenceDropFirst(sub, ys);
      }
    }
  }

  lemma {:induction false} SubsequenceDropFirst<T(!new)>(sub: seq<T>, ys: seq<T>)
    requires sub != [] && IsSubsequence(sub, ys)
    ensures IsSubsequence(sub[1..], ys)
    decreases |ys| + 1, 0
  {
    if sub[0] == ys[0] {
      SubsequenceOfTail(sub[1..], ys);
    } else {
      SubsequenceDropFirst(sub, ys[1..]);
      SubsequenceOfTail(sub[1..], ys);
    }
  }

  /** A predicate that holds of every element keeps everything. */
  lemma {:induction false} FilterAll<T(!new)>(xs: seq<T>, keep: T -> bool)
    requires forall x :: x in xs ==> keep(x)
    ensures Filter(xs, keep) == xs
  {
    if xs != [] {
      FilterAll(xs[1..], keep);
    }
  }

  /** Three predicates that pick exactly one group for every element split
      the sequence: the group sizes add up to its length. */
  lemma {:induction false} FilterPartition<T(!new)>(xs: seq<T>, a: T -> bool, b: T -> bool, c: T -> bool)
    requires forall x :: x in xs ==> (a(x) || b(x) || c(x))
    requires forall x :: x in xs ==> !(a(x) && b(x)) && !(a(x) && c(x)) && !(b(x) && c(x))
    ensures |Filter(xs, a)| + |Filter(xs, b)| + |Filter(xs, c)| == |xs|
  {
    if xs != [] {
      FilterPartition(xs[1..], a, b, c);
    }
  }

  /** The sum of a sequence of integers, adding from the left as a loop does. */
  function Sum(xs: seq<int>): int
  {
    if xs == [] then 0 else Sum(xs[..|xs| - 1]) + xs[|xs| - 1]
  }

  /** A sequence of `n` copies of `v` sums to `n * v`. */
  lemma {:induction false} SumConstant(xs: seq<int>, v: int)
    requires forall i :: 0 <= i < |xs| ==> xs[i] == v
    ensures Sum(xs) == |xs| * v
  {
    if xs != [] {
      SumConstant(xs[..|xs| - 1], v);
    }
  }

  /** Sums are monotone in every element. */
  lemma {:induction false} SumBounds(xs: seq<int>, lo: int, hi: int)
    requires forall i :: 0 <= i < |xs| ==> lo <= xs[i] <= hi
    ensures |xs| * lo <= Sum(xs) <= |xs| * hi
  {
    if xs != [] {
      SumBounds(xs[..|xs| - 1], lo, hi);
    }
  }

  ghost predicate NoDuplicates<T>(xs: seq<T>) {
    forall i, j :: 0 <= i < j < |xs| ==> xs[i] != xs[j]
  }

  /** `[...new Set(xs)]`: each distinct element once, in order of first occurrence. */
  function Dedup<T(==,!new)>(xs: seq<T>): (r: seq<T>)
    ensures forall x :: x in r <==> x in xs
    ensures NoDuplicates(r)
    ensures |r| <= |xs|
  {
    if xs == [] then []
    else
      var r := Dedup(xs[..|xs| - 1]);
      if xs[|xs| - 1] in r then r else r + [xs[|xs| - 1]]
  }

  /** Without duplicates, deduplication changes nothing. */
  lemma {:induction false} DedupDistinct<T(!new)>(xs: seq<T>)
    requires NoDuplicates(xs)
    ensures Dedup(xs) == xs
  {
    if xs != [] {
      var init := xs[..|xs| - 1];
      DedupDistinct(init);
      assert xs[|xs| - 1] !in init;
      assert init + [xs[|xs| - 1]] == xs;
    }
  }

  /** The sequence with every occurrence of `x` removed. */
  function Without<T(==,!new)>(xs: seq<T>, x: T): (r: seq<T>)
    ensures forall y :: y in r <==> y in xs && y != x
    ensures |r| <= |xs|
  {
    if xs == [] then []
    else if xs[0] == x then Without(xs[1..], x)
    else [xs[0]] + Without(xs[1..], x)
  }

  /** Removing the first element of a duplicate-free sequence leaves its tail. */
  lemma WithoutHead<T(!new)>(xs: seq<T>)
    requires xs != [] && NoDuplicates(xs)
    ensures Without(xs, xs[0]) == xs[1..]
  {
    WithoutAbsent(xs[1..], xs[0]);
  }

  lemma {:induction false} WithoutAbsent<T(!new)>(xs: seq<T>, x: T)
    requires x !in xs
    ensures Without(xs, x) == xs
  {
    if xs != [] {
      WithoutAbsent(xs[1..], x);
    }
  }

  /** Removal keeps a duplicate-free sequence duplicate-free. */
  lemma {:induction false} WithoutNoDuplicates<T(!new)>(xs: seq<T>, x: T)
    requires NoDuplicates(xs)
    ensures NoDuplicates(Without(xs, x))
  {
    if xs != [] {
      WithoutNoDuplicates(xs[1..], x);
      var rest := Without(xs[1..], x);
      if xs[0] != x {
        assert xs[0] !in xs[1..];
        assert xs[0] !in rest;
        assert Without(xs, x) == [xs[0]] + rest;
      }
    }
  }
}
