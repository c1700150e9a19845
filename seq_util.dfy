/**
 * Sequence helpers with the JavaScript array idioms the dashboard uses:
 * `filter`, and `Array.from(new Set(xs))` (distinct values in first-occurrence
 * order).
 */
module SeqUtil {

  /** `r` is `s` with some elements left out, the rest kept in order. */
  predicate IsSubsequence<T(==)>(r: seq<T>, s: seq<T>)
  {
    if |r| == 0 then true
    else if |s| == 0 then false
    else (r[0] == s[0] && IsSubsequence(r[1..], s[1..])) || IsSubsequence(r, s[1..])
  }

  /** `xs.filter(p)`: keeps exactly the elements satisfying `p`, in order. */
  function Filter<T(==,!new)>(xs: seq<T>, p: T -> bool): (r: seq<T>)
    ensures |r| <= |xs|
    ensures forall x :: x in r <==> x in xs && p(x)
    ensures forall i :: 0 <= i < |r| ==> p(r[i])
    ensures IsSubsequence(r, xs)
  {
    if |xs| == 0 then []
    else
      var rest := Filter(xs[1..], p);
      assert forall x :: x in xs <==> x == xs[0] || x in xs[1..];
      if p(xs[0]) then
        var r := [xs[0]] + rest;
        assert r[1..] == rest;
        r
      else rest
  }

  /** A filter that drops some element is strictly shorter. */
  lemma {:induction false} FilterMissing<T(!new)>(xs: seq<T>, p: T -> bool, x: T)
    requires x in xs && !p(x)
    ensures |Filter(xs, p)| < |xs|
  {
    if xs[0] != x {
      FilterMissing(xs[1..], p, x);
    }
  }

  /** `xs.map((x, index) => f(x, index + 1))`: each element with its
      position counted from 1. */
  function Numbered<T, U>(xs: seq<T>, f: (T, int) -> U): (r: seq<U>)
    ensures |r| == |xs|
    ensures forall i :: 0 <= i < |xs| ==> r[i] == f(xs[i], i + 1)
  {
    seq(|xs|, i requires 0 <= i < |xs| => f(xs[i], i + 1))
  }

  /** Two filters whose predicates never hold together select at most as
      many elements as there are. */
  lemma {:induction false} FilterDisjointBound<T(!new)>(xs: seq<T>, p: T -> bool, q: T -> bool)
    requires forall x :: !(p(x) && q(x))
    ensures |Filter(xs, p)| + |Filter(xs, q)| <= |xs|
  {
    if |xs| > 0 {
      FilterDisjointBound(xs[1..], p, q);
    }
  }

  /** The position of the last occurrence of `x` in `xs`, or -1. */
  function LastIndexOf<T(==)>(xs: seq<T>, x: T): (c: int)
    ensures -1 <= c < |xs|
    ensures c >= 0 ==> xs[c] == x
    ensures forall i :: c < i < |xs| ==> xs[i] != x
    ensures c < 0 <==> x !in xs
  {
    if |xs| == 0 then -1
    else if xs[|xs| - 1] == x then |xs| - 1
    else
      var c := LastIndexOf(xs[..|xs| - 1], x);
      assert xs == xs[..|xs| - 1] + [xs[|xs| - 1]];
      c
  }

  /** Appending `y` moves the last occurrence of `y` to the end and leaves
      every other last occurrence where it was. */
  lemma LastIndexOfSnoc<T>(xs: seq<T>, y: T, x: T)
    ensures LastIndexOf(xs + [y], x) == if x == y then |xs| else LastIndexOf(xs, x)
  {
    assert (xs + [y])[..|xs|] == xs;
  }

  /** A prefix one longer is the prefix with the next element appended. */
  lemma PrefixSnoc<T>(xs: seq<T>, k: nat)
    requires k < |xs|
    ensures xs[..k + 1] == xs[..k] + [xs[k]]
  {
  }

  /** The number of times `x` occurs in `xs`. */
  function Count<T(==)>(xs: seq<T>, x: T): nat
  {
    multiset(xs)[x]
  }

  predicate NoDuplicates<T(==)>(xs: seq<T>)
  {
    forall i, j :: 0 <= i < j < |xs| ==> xs[i] != xs[j]
  }

  /** The position of the first occurrence of `x` in `xs`. */
  function FirstIndex<T(==)>(xs: seq<T>, x: T): (k: nat)
    requires x in xs
    ensures k < |xs| && xs[k] == x && x !in xs[..k]
  {
    if xs[0] == x then 0
    else
      var k := FirstIndex(xs[1..], x);
      assert xs[..k + 1] == [xs[0]] + xs[1..][..k];
      k + 1
  }

  lemma {:induction false} FirstIndexPrefix<T>(xs: seq<T>, n: nat, x: T)
    requires n <= |xs| && x in xs[..n]
    ensures x in xs && FirstIndex(xs, x) == FirstIndex(xs[..n], x)
  {
    var k := FirstIndex(xs[..n], x);
    assert xs[..n][..k] == xs[..k];
    var m := FirstIndex(xs, x);
    assert forall i :: 0 <= i < k ==> xs[..k][i] != x;
    assert forall i :: 0 <= i < m ==> xs[..m][i] != x;
    assert xs[k] == x;
  }

  /** Appending a value extends the distinct values by it exactly when it is
      new. */
  lemma DistinctSnoc<T(!new)>(xs: seq<T>, x: T)
    ensures Distinct(xs + [x]) == if x in xs then Distinct(xs) else Distinct(xs) + [x]
  {
    assert (xs + [x])[..|xs|] == xs;
  }

  lemma CountSnoc<T>(xs: seq<T>, x: T, u: T)
    ensures Count(xs + [x], u) == Count(xs, u) + if u == x then 1 else 0
  {
    assert multiset(xs + [x]) == multiset(xs) + multiset{x};
  }

  /** `Array.from(new Set(xs))`: each value once, in the order of its first
      occurrence (`DistinctOrder`). */
  function Distinct<T(==,!new)>(xs: seq<T>): (r: seq<T>)
    ensures NoDuplicates(r)
    ensures forall x :: x in r <==> x in xs
  {
    if |xs| == 0 then []
    else
      var init := xs[..|xs| - 1];
      var last := xs[|xs| - 1];
      var d := Distinct(init);
      assert forall x :: x in xs <==> x in init || x == last by {
        assert xs == init + [last];
      }
      if last in d then d else d + [last]
  }

  /** The distinct values are listed in the order of their first occurrence. */
  lemma {:induction false} DistinctOrder<T(!new)>(xs: seq<T>)
    ensures forall i, j :: 0 <= i < j < |Distinct(xs)| ==>
              FirstIndex(xs, Distinct(xs)[i]) < FirstIndex(xs, Distinct(xs)[j])
  {
    if |xs| > 0 {
      var init := xs[..|xs| - 1];
      var last := xs[|xs| - 1];
      var d := Distinct(init);
      DistinctOrder(init);
      assert forall x :: x in xs <==> x in init || x == last by {
        assert xs == init + [last];
      }
      forall i | 0 <= i < |d|
        ensures FirstIndex(xs, d[i]) == FirstIndex(init, d[i]) < |xs| - 1
      {
        FirstIndexPrefix(xs, |xs| - 1, d[i]);
      }
      if last !in d {
        assert FirstIndex(xs, last) == |xs| - 1 by {
          assert forall i :: 0 <= i < |init| ==> init[i] != last;
        }
        var r := d + [last];
        assert Distinct(xs) == r;
        assert forall i :: 0 <= i < |d| ==> r[i] == d[i];
      } else {
        assert Distinct(xs) == d;
        forall i, j | 0 <= i < j < |d| ensures FirstIndex(xs, d[i]) < FirstIndex(xs, d[j]) {
          assert FirstIndex(init, d[i]) < FirstIndex(init, d[j]);
        }
      }
    }
  }

  /** A list without repeats is its own set of distinct values. */
  lemma {:induction false} DistinctOfNoDuplicates<T(!new)>(xs: seq<T>)
    requires NoDuplicates(xs)
    ensures Distinct(xs) == xs
  {
    if |xs| > 0 {
      var init := xs[..|xs| - 1];
      var last := xs[|xs| - 1];
      assert NoDuplicates(init);
      DistinctOfNoDuplicates(init);
      assert last !in init;
      assert xs == init + [last];
    }
  }

  /** A filter that every element passes keeps the whole list. */
  lemma {:induction false} FilterKeepsAll<T(!new)>(xs: seq<T>, p: T -> bool)
    requires forall i :: 0 <= i < |xs| ==> p(xs[i])
    ensures Filter(xs, p) == xs
  {
    if |xs| > 0 {
      FilterKeepsAll(xs[1..], p);
      assert xs == [xs[0]] + xs[1..];
    }
  }

  /** A filter keeps every occurrence of a value that passes it. */
  lemma {:induction false} FilterCount<T(!new)>(xs: seq<T>, p: T -> bool, x: T)
    requires p(x)
    ensures Count(Filter(xs, p), x) == Count(xs, x)
  {
    if |xs| > 0 {
      FilterCount(xs[1..], p, x);
      assert xs == [xs[0]] + xs[1..];
      assert multiset(xs) == multiset{xs[0]} + multiset(xs[1..]);
      if p(xs[0]) {
        assert multiset([xs[0]] + Filter(xs[1..], p)) == multiset{xs[0]} + multiset(Filter(xs[1..], p));
      }
    }
  }
}
