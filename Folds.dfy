/** The list operations the pages build their views from: `filter` and a
    summing `reduce` over a JavaScript array, and deletion of one index.
    Both folds recurse on the LAST element, so they consume the sequence
    left to right exactly as `Array.prototype.reduce` does. */
module Folds {

  /** `s.filter(p)`: the elements that satisfy `p`, in their original order. */
  function Filter<T>(p: T -> bool, s: seq<T>): (r: seq<T>)
    ensures |r| <= |s|
    ensures forall x :: x in r ==> x in s && p(x)
  {
    if s == [] then []
    else Filter(p, s[..|s| - 1]) + (if p(s[|s| - 1]) then [s[|s| - 1]] else [])
  }

  /** `s.reduce((sum, x) => sum + f(x), 0)` over integers. */
  function Sum<T>(f: T -> int, s: seq<T>): int
  {
    if s == [] then 0 else Sum(f, s[..|s| - 1]) + f(s[|s| - 1])
  }

  /** `s.filter((_, j) => j !== i)`: drops index `i`, keeps everything else. */
  function RemoveAt<T>(s: seq<T>, i: int): (r: seq<T>)
    ensures 0 <= i < |s| ==> |r| == |s| - 1
    ensures 0 <= i < |s| ==> forall j :: 0 <= j < i ==> r[j] == s[j]
    ensures 0 <= i < |s| ==> forall j :: i <= j < |r| ==> r[j] == s[j + 1]
    ensures !(0 <= i < |s|) ==> r == s
  {
    if 0 <= i < |s| then s[..i] + s[i + 1..] else s
  }

  /** Filtering distributes over concatenation. */
  lemma {:induction false} FilterAppend<T>(p: T -> bool, a: seq<T>, b: seq<T>)
    ensures Filter(p, a + b) == Filter(p, a) + Filter(p, b)
  {
    if b == [] {
      assert a + b == a;
    } else {
      var b' := b[..|b| - 1];
      assert (a + b)[..|a + b| - 1] == a + b';
      FilterAppend(p, a, b');
    }
  }

  /** A one-element input is kept exactly when its element passes. */
  lemma FilterOne<T>(p: T -> bool, x: T)
    ensures Filter(p, [x]) == if p(x) then [x] else []
  {
    assert [x][..0] == [];
  }

  /** An element is kept exactly when it is in the input and satisfies `p`. */
  lemma {:induction false} FilterMembership<T>(p: T -> bool, s: seq<T>, x: T)
    ensures x in Filter(p, s) <==> x in s && p(x)
  {
    if s != [] {
      var s' := s[..|s| - 1];
      assert s == s' + [s[|s| - 1]];
      FilterMembership(p, s', x);
    }
  }

  /** When every element passes, the filter is the identity. */
  lemma {:induction false} FilterKeepsAll<T>(p: T -> bool, s: seq<T>)
    requires forall k :: 0 <= k < |s| ==> p(s[k])
    ensures Filter(p, s) == s
  {
    if s != [] {
      var s' := s[..|s| - 1];
      FilterKeepsAll(p, s');
      assert s' + [s[|s| - 1]] == s;
    }
  }

  /** Filters with predicates that agree on every element agree. */
  lemma {:induction false} FilterCongruent<T>(p: T -> bool, q: T -> bool, s: seq<T>)
    requires forall k :: 0 <= k < |s| ==> p(s[k]) == q(s[k])
    ensures Filter(p, s) == Filter(q, s)
  {
    if s != [] {
      FilterCongruent(p, q, s[..|s| - 1]);
    }
  }

  /** A predicate and its negation split the input between them. */
  lemma {:induction false} FilterPartitionLength<T>(p: T -> bool, q: T -> bool, s: seq<T>)
    requires forall k :: 0 <= k < |s| ==> q(s[k]) == !p(s[k])
    ensures |Filter(p, s)| + |Filter(q, s)| == |s|
  {
    if s != [] {
      FilterPartitionLength(p, q, s[..|s| - 1]);
    }
  }

  /** Counting the elements that pass `r` in the whole input is counting
      them among the elements that pass `p` and among those that fail it. */
  lemma {:induction false} FilterSplitCount<T>(r: T -> bool, p: T -> bool, q: T -> bool, s: seq<T>)
    requires forall k :: 0 <= k < |s| ==> q(s[k]) == !p(s[k])
    ensures |Filter(r, s)| == |Filter(r, Filter(p, s))| + |Filter(r, Filter(q, s))|
  {
    if s != [] {
      var s', x := s[..|s| - 1], s[|s| - 1];
      FilterSplitCount(r, p, q, s');
      FilterAppend(r, Filter(p, s'), if p(x) then [x] else []);
      FilterAppend(r, Filter(q, s'), if q(x) then [x] else []);
      FilterOne(r, x);
      assert Filter(r, []) == [];
    }
  }

  lemma {:induction false} SumAppend<T>(f: T -> int, a: seq<T>, b: seq<T>)
    ensures Sum(f, a + b) == Sum(f, a) + Sum(f, b)
  {
    if b == [] {
      assert a + b == a;
    } else {
      var b' := b[..|b| - 1];
      assert (a + b)[..|a + b| - 1] == a + b';
      SumAppend(f, a, b');
    }
  }

  /** Removing index `i` takes exactly that element's term out of the sum. */
  lemma {:induction false} SumRemoveAt<T>(f: T -> int, s: seq<T>, i: int)
    requires 0 <= i < |s|
    ensures Sum(f, RemoveAt(s, i)) == Sum(f, s) - f(s[i])
  {
    var a, b := s[..i], s[i + 1..];
    assert RemoveAt(s, i) == a + b;
    assert s == (a + [s[i]]) + b;
    SumAppend(f, a + [s[i]], b);
    SumAppend(f, a, [s[i]]);
    SumAppend(f, a, b);
    assert Sum(f, [s[i]]) == f(s[i]) by { assert [s[i]][..0] == []; }
  }

  /** Replacing one element changes the sum by the difference of its terms. */
  lemma {:induction false} SumUpdate<T>(f: T -> int, s: seq<T>, i: int, x: T)
    requires 0 <= i < |s|
    ensures Sum(f, s[i := x]) == Sum(f, s) - f(s[i]) + f(x)
  {
    assert s == s[..i] + [s[i]] + s[i + 1..];
    assert s[i := x] == s[..i] + [x] + s[i + 1..];
    SumAppend(f, s[..i] + [s[i]], s[i + 1..]);
    SumAppend(f, s[..i], [s[i]]);
    SumAppend(f, s[..i] + [x], s[i + 1..]);
    SumAppend(f, s[..i], [x]);
    assert [s[i]][..0] == [] && [x][..0] == [];
  }

  /** Summing over the elements that pass a predicate and over those that
      fail it gives the whole sum. */
  lemma {:induction false} SumPartition<T>(f: T -> int, p: T -> bool, q: T -> bool, s: seq<T>)
    requires forall k :: 0 <= k < |s| ==> q(s[k]) == !p(s[k])
    ensures Sum(f, Filter(p, s)) + Sum(f, Filter(q, s)) == Sum(f, s)
  {
    if s != [] {
      var s' := s[..|s| - 1];
      var x := s[|s| - 1];
      SumPartition(f, p, q, s');
      SumAppend(f, Filter(p, s'), if p(x) then [x] else []);
      SumAppend(f, Filter(q, s'), if q(x) then [x] else []);
      assert [x][..0] == [];
    }
  }

  /** A sum of terms no smaller than `lo` is at least `|s| * lo`. */
  lemma {:induction false} SumLowerBound<T>(f: T -> int, s: seq<T>, lo: int)
    requires forall k :: 0 <= k < |s| ==> lo <= f(s[k])
    ensures |s| * lo <= Sum(f, s)
  {
    if s != [] {
      SumLowerBound(f, s[..|s| - 1], lo);
    }
  }

  /** A sum of terms no larger than `hi` is at most `|s| * hi`. */
  lemma {:induction false} SumUpperBound<T>(f: T -> int, s: seq<T>, hi: int)
    requires forall k :: 0 <= k < |s| ==> f(s[k]) <= hi
    ensures Sum(f, s) <= |s| * hi
  {
    if s != [] {
      SumUpperBound(f, s[..|s| - 1], hi);
    }
  }
}
