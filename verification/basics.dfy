/** Failure-compatible wrappers and the two list folds the app uses everywhere:
    summing a money-valued field over a list of records, and order-preserving filtering. */
module Basics {

  datatype Option<+T> = None | Some(value: T) {
    function GetOr(default: T): T {
      match this
      case Some(v) => v
      case None => default
    }
  }

  datatype Result<+R, +E> = Success(value: R) | Failure(error: E)

  /** Left-to-right sum of `f` over `xs`, the shape of Swift's `reduce(0.0) { $0 + f($1) }`. */
  function Sum<T>(xs: seq<T>, f: T -> real): real
  {
    if |xs| == 0 then 0.0 else Sum(xs[..|xs| - 1], f) + f(xs[|xs| - 1])
  }

  lemma {:induction false} SumAppend<T>(xs: seq<T>, ys: seq<T>, f: T -> real)
    ensures Sum(xs + ys, f) == Sum(xs, f) + Sum(ys, f)
    decreases |ys|
  {
    if |ys| == 0 {
      assert xs + ys == xs;
    } else {
      var ys' := ys[..|ys| - 1];
      assert (xs + ys)[..|xs + ys| - 1] == xs + ys';
      SumAppend(xs, ys', f);
    }
  }

  lemma SumSingleton<T>(x: T, f: T -> real)
    ensures Sum([x], f) == f(x)
  {
    assert [x][..0] == [];
  }

  /** Summing from the front gives the same value as summing from the back. */
  lemma SumCons<T>(x: T, xs: seq<T>, f: T -> real)
    ensures Sum([x] + xs, f) == f(x) + Sum(xs, f)
  {
    SumAppend([x], xs, f);
    SumSingleton(x, f);
  }

  /** The sum depends only on the multiset of elements, not on their order. */
  lemma {:induction false} SumPermutation<T>(xs: seq<T>, ys: seq<T>, f: T -> real)
    requires multiset(xs) == multiset(ys)
    ensures Sum(xs, f) == Sum(ys, f)
    decreases |xs|
  {
    if |xs| == 0 {
      assert |ys| == |multiset(ys)| == 0;
    } else {
      var x := xs[0];
      assert x in multiset(ys);
      var k :| 0 <= k < |ys| && ys[k] == x;
      var rest := ys[..k] + ys[k + 1..];
      assert ys == ys[..k] + [x] + ys[k + 1..];
      assert xs == [x] + xs[1..];
      assert multiset(xs[1..]) == multiset(rest) by {
        calc {
          multiset(xs);
          multiset([x] + xs[1..]);
          multiset{x} + multiset(xs[1..]);
        }
        calc {
          multiset(ys);
          multiset(ys[..k] + [x] + ys[k + 1..]);
          multiset(ys[..k]) + multiset{x} + multiset(ys[k + 1..]);
          multiset{x} + multiset(rest);
        }
        assert multiset(xs[1..]) == multiset(xs) - multiset{x};
        assert multiset(rest) == multiset(ys) - multiset{x};
      }
      SumPermutation(xs[1..], rest, f);
      SumCons(x, xs[1..], f);
      SumAppend(ys[..k] + [x], ys[k + 1..], f);
      SumAppend(ys[..k], [x], f);
      SumAppend(ys[..k], ys[k + 1..], f);
      SumSingleton(x, f);
    }
  }

  lemma {:induction false} SumNonNegative<T>(xs: seq<T>, f: T -> real)
    requires forall i :: 0 <= i < |xs| ==> f(xs[i]) >= 0.0
    ensures Sum(xs, f) >= 0.0
    decreases |xs|
  {
    if |xs| > 0 {
      SumNonNegative(xs[..|xs| - 1], f);
    }
  }

  /** First position of `x` in `xs`, if any (Swift's `firstIndex(of:)`). */
  function IndexOf<T(==)>(xs: seq<T>, x: T): (r: Option<nat>)
    ensures r.Some? ==> r.value < |xs| && xs[r.value] == x && x !in xs[..r.value]
    ensures r.None? ==> x !in xs
  {
    if |xs| == 0 then None
    else if xs[0] == x then Some(0)
    else
      match IndexOf(xs[1..], x)
      case None => None
      case Some(k) =>
        assert xs[..k + 1] == [xs[0]] + xs[1..][..k];
        Some(k + 1)
  }

  /** Order-preserving selection of the elements satisfying `p` (Swift's `filter`). */
  function Filter<T(==)>(xs: seq<T>, p: T -> bool): (r: seq<T>)
    ensures |r| <= |xs|
    ensures forall i :: 0 <= i < |r| ==> r[i] in xs && p(r[i])
    ensures forall i :: 0 <= i < |xs| && p(xs[i]) ==> xs[i] in r
  {
    if |xs| == 0 then []
    else if p(xs[0]) then [xs[0]] + Filter(xs[1..], p)
    else Filter(xs[1..], p)
  }

  /** `f` where `p` holds and zero elsewhere. */
  function Masked<T>(p: T -> bool, f: T -> real): T -> real
  {
    x => if p(x) then f(x) else 0.0
  }

  /** Summing over the selected elements is summing over all of them with the rest counted as zero. */
  lemma {:induction false} SumFilter<T>(xs: seq<T>, p: T -> bool, f: T -> real)
    ensures Sum(Filter(xs, p), f) == Sum(xs, Masked(p, f))
    decreases |xs|
  {
    if |xs| > 0 {
      SumFilter(xs[1..], p, f);
      assert xs == [xs[0]] + xs[1..];
      SumCons(xs[0], xs[1..], Masked(p, f));
      if p(xs[0]) {
        SumCons(xs[0], Filter(xs[1..], p), f);
      }
    }
  }

  /** `sub` can be obtained from `xs` by deleting elements: nothing added, nothing reordered. */
  predicate IsSubsequence<T(==)>(sub: seq<T>, xs: seq<T>)
    decreases |xs|
  {
    if |sub| == 0 then true
    else if |xs| == 0 then false
    else if sub[0] == xs[0] then IsSubsequence(sub[1..], xs[1..])
    else IsSubsequence(sub, xs[1..])
  }

  lemma {:induction false} FilterIsSubsequence<T>(xs: seq<T>, p: T -> bool)
    ensures IsSubsequence(Filter(xs, p), xs)
    decreases |xs|
  {
    if |xs| > 0 {
      FilterIsSubsequence(xs[1..], p);
    }
  }

  lemma {:induction false} FilterAll<T>(xs: seq<T>, p: T -> bool)
    requires forall i :: 0 <= i < |xs| ==> p(xs[i])
    ensures Filter(xs, p) == xs
    decreases |xs|
  {
    if |xs| > 0 {
      FilterAll(xs[1..], p);
    }
  }

  lemma {:induction false} FilterAppend<T>(xs: seq<T>, ys: seq<T>, p: T -> bool)
    ensures Filter(xs + ys, p) == Filter(xs, p) + Filter(ys, p)
    decreases |xs|
  {
    if |xs| == 0 {
      assert xs + ys == ys;
    } else {
      assert (xs + ys)[1..] == xs[1..] + ys;
      FilterAppend(xs[1..], ys, p);
    }
  }

  /** Filtering a sequence extended at the back. */
  lemma FilterSnoc<T>(xs: seq<T>, x: T, p: T -> bool)
    ensures Filter(xs + [x], p) == if p(x) then Filter(xs, p) + [x] else Filter(xs, p)
  {
    FilterAppend(xs, [x], p);
    assert [x][1..] == [];
  }

  /** The sequence read from the back. */
  function Reversed<T>(xs: seq<T>): (r: seq<T>)
    ensures |r| == |xs|
    ensures forall i :: 0 <= i < |xs| ==> r[i] == xs[|xs| - 1 - i]
    decreases |xs|
  {
    if |xs| == 0 then []
    else
      var rest := Reversed(xs[..|xs| - 1]);
      var r := [xs[|xs| - 1]] + rest;
      assert forall i :: 1 <= i < |r| ==> r[i] == rest[i - 1];
      r
  }

  /** `f` applied to every element, in order. */
  function Map<A, B>(xs: seq<A>, f: A -> B): (r: seq<B>)
    ensures |r| == |xs|
    ensures forall i :: 0 <= i < |xs| ==> r[i] == f(xs[i])
  {
    seq(|xs|, i requires 0 <= i < |xs| => f(xs[i]))
  }

  /** Every sequence is a subsequence of itself. */
  lemma {:induction false} IsSubsequenceRefl<T>(xs: seq<T>)
    ensures IsSubsequence(xs, xs)
    decreases |xs|
  {
    if |xs| > 0 {
      IsSubsequenceRefl(xs[1..]);
    }
  }

  /** Nothing is selected when no element satisfies the predicate. */
  lemma {:induction false} NoneSelected<T>(xs: seq<T>, p: T -> bool)
    requires forall i :: 0 <= i < |xs| ==> !p(xs[i])
    ensures Filter(xs, p) == []
    decreases |xs|
  {
    if |xs| > 0 {
      NoneSelected(xs[1..], p);
    }
  }
}
