/** `Array.prototype.filter` and `map` over lists, with the facts the application's list
    pipelines rely on: a filter keeps an order-preserving subsequence, it is the only
    subsequence holding every kept element, and kept plus rejected elements add up. */
module Seqs {

  /** `s.filter(p)`: the elements of `s` that satisfy `p`, in their original order. */
  function Filter<T>(p: T -> bool, s: seq<T>): (r: seq<T>)
    ensures |r| <= |s|
    ensures forall i :: 0 <= i < |r| ==> p(r[i]) && r[i] in s
    ensures forall i :: 0 <= i < |s| && p(s[i]) ==> s[i] in r
  {
    if s == [] then [] else (if p(s[0]) then [s[0]] else []) + Filter(p, s[1..])
  }

  /** The elements of `s` that fail `p`, in their original order. */
  function Reject<T>(p: T -> bool, s: seq<T>): (r: seq<T>)
    ensures |r| <= |s|
    ensures forall i :: 0 <= i < |r| ==> !p(r[i])
    ensures forall i :: 0 <= i < |s| && !p(s[i]) ==> s[i] in r
  {
    if s == [] then [] else (if p(s[0]) then [] else [s[0]]) + Reject(p, s[1..])
  }

  /** `s.map(f)` */
  function Map<A, B>(f: A -> B, s: seq<A>): (r: seq<B>)
    ensures |r| == |s|
    ensures forall i :: 0 <= i < |s| ==> r[i] == f(s[i])
  {
    seq(|s|, i requires 0 <= i < |s| => f(s[i]))
  }

  /** Every element of `s` is kept and rejected by exactly one of Filter and Reject. */
  lemma {:induction false} FilterRejectPartition<T>(p: T -> bool, s: seq<T>)
    ensures |Filter(p, s)| + |Reject(p, s)| == |s|
  {
    if s != [] {
      FilterRejectPartition(p, s[1..]);
    }
  }

  /** A list whose every element satisfies `p` passes through the filter unchanged. */
  lemma {:induction false} FilterKeepsAll<T>(p: T -> bool, s: seq<T>)
    requires forall i :: 0 <= i < |s| ==> p(s[i])
    ensures Filter(p, s) == s
  {
    if s != [] {
      FilterKeepsAll(p, s[1..]);
    }
  }

  /** Filtering twice with the same predicate is filtering once. */
  lemma FilterIdempotent<T>(p: T -> bool, s: seq<T>)
    ensures Filter(p, Filter(p, s)) == Filter(p, s)
    ensures |Reject(p, Filter(p, s))| == 0
  {
    FilterKeepsAll(p, Filter(p, s));
    FilterRejectPartition(p, Filter(p, s));
  }

  /** Filtering a concatenation filters each part. */
  lemma {:induction false} FilterConcat<T>(p: T -> bool, a: seq<T>, b: seq<T>)
    ensures Filter(p, a + b) == Filter(p, a) + Filter(p, b)
  {
    if a == [] {
      assert a + b == b;
    } else {
      assert (a + b)[0] == a[0] && (a + b)[1..] == a[1..] + b;
      FilterConcat(p, a[1..], b);
    }
  }

  /** `r` can be obtained from `s` by deleting elements: it keeps their relative order. */
  ghost predicate IsSubsequence<T>(r: seq<T>, s: seq<T>)
    decreases |s|
  {
    || r == []
    || (s != [] && ((r[0] == s[0] && IsSubsequence(r[1..], s[1..])) || IsSubsequence(r, s[1..])))
  }

  /** The filter result is an order-preserving subsequence of its input. */
  lemma {:induction false} FilterIsSubsequence<T>(p: T -> bool, s: seq<T>)
    ensures IsSubsequence(Filter(p, s), s)
  {
    if s != [] {
      FilterIsSubsequence(p, s[1..]);
      if p(s[0]) {
        var r := Filter(p, s);
        assert r[0] == s[0] && r[1..] == Filter(p, s[1..]);
        assert IsSubsequence(r[1..], s[1..]);
      } else {
        assert Filter(p, s) == Filter(p, s[1..]);
      }
    }
  }

  /** No subsequence made only of elements satisfying `p` is longer than the filter result. */
  lemma {:induction false} SubsequenceNoLongerThanFilter<T>(p: T -> bool, r: seq<T>, s: seq<T>)
    requires IsSubsequence(r, s)
    requires forall i :: 0 <= i < |r| ==> p(r[i])
    ensures |r| <= |Filter(p, s)|
    decreases |s|
  {
    if r != [] {
      if r[0] == s[0] && IsSubsequence(r[1..], s[1..]) {
        SubsequenceNoLongerThanFilter(p, r[1..], s[1..]);
      } else {
        SubsequenceNoLongerThanFilter(p, r, s[1..]);
      }
    }
  }

  /** The filter result is the only subsequence that consists of elements satisfying `p`
      and is as long as the number of such elements: together with FilterIsSubsequence this
      says `Filter(p, s)` is exactly "the elements satisfying `p`, in input order". */
  lemma {:induction false} FilterUnique<T>(p: T -> bool, r: seq<T>, s: seq<T>)
    requires IsSubsequence(r, s)
    requires forall i :: 0 <= i < |r| ==> p(r[i])
    requires |r| == |Filter(p, s)|
    ensures r == Filter(p, s)
    decreases |s|
  {
    if s != [] && r != [] {
      if r[0] == s[0] && IsSubsequence(r[1..], s[1..]) {
        FilterUnique(p, r[1..], s[1..]);
      } else {
        SubsequenceNoLongerThanFilter(p, r, s[1..]);
        FilterUnique(p, r, s[1..]);
      }
    }
  }
  /** Two predicates that agree on every element of `s` keep the same elements. */
  lemma {:induction false} FilterPointwise<T>(p: T -> bool, q: T -> bool, s: seq<T>)
    requires forall i :: 0 <= i < |s| ==> p(s[i]) == q(s[i])
    ensures Filter(p, s) == Filter(q, s)
  {
    if s != [] {
      FilterPointwise(p, q, s[1..]);
    }
  }

  /** The index `Array.prototype.slice` starts or stops at for `i` in a list of length `n`:
      a negative `i` counts from the end, and the result is clamped to `[0, n]`. */
  function SliceIndex(i: int, n: nat): (k: nat)
    ensures k <= n
    ensures 0 <= i <= n ==> k == i
    ensures i < 0 && -i <= n ==> k == n + i
    ensures i < 0 && n < -i ==> k == 0
  {
    if i < 0 then (if n + i < 0 then 0 else n + i) else if i > n then n else i
  }

  /** `s.slice(start, end)`: the elements between the two resolved indices, or none when the
      end does not lie past the start. */
  function Slice<T>(s: seq<T>, start: int, end: int): (r: seq<T>)
    ensures SliceIndex(start, |s|) < SliceIndex(end, |s|) ==> |r| == SliceIndex(end, |s|) - SliceIndex(start, |s|)
    ensures SliceIndex(end, |s|) <= SliceIndex(start, |s|) ==> r == []
    ensures forall i :: 0 <= i < |r| ==> r[i] == s[SliceIndex(start, |s|) + i]
  {
    var from, to := SliceIndex(start, |s|), SliceIndex(end, |s|);
    if from < to then s[from..to] else []
  }

  /** `le` is total: of any two elements, at least one may come first. */
  ghost predicate Total<T(!new)>(le: (T, T) -> bool) {
    forall a, b :: le(a, b) || le(b, a)
  }

  /** Each element may come before the next one. */
  ghost predicate Sorted<T>(le: (T, T) -> bool, s: seq<T>) {
    forall i :: 0 < i < |s| ==> le(s[i - 1], s[i])
  }

  /** Puts `x` in front of the first element it may precede, so that it stays ahead of the
      elements it ties with. */
  function Insert<T>(le: (T, T) -> bool, x: T, ys: seq<T>): (r: seq<T>)
    ensures multiset(r) == multiset(ys) + multiset{x}
    ensures |r| == |ys| + 1
    ensures ys == [] ==> r == [x]
    ensures ys != [] ==> r[0] == x || r[0] == ys[0]
  {
    if ys == [] || le(x, ys[0]) then [x] + ys
    else
      assert ys == [ys[0]] + ys[1..];
      [ys[0]] + Insert(le, x, ys[1..])
  }

  /** `s.sort(compare)`, with `le(a, b)` standing for `compare(a, b) <= 0`: a stable insertion
      sort, one element at a time from the back. */
  function Sort<T>(le: (T, T) -> bool, s: seq<T>): (r: seq<T>)
    ensures multiset(r) == multiset(s)
    ensures |r| == |s|
  {
    if s == [] then []
    else
      assert s == [s[0]] + s[1..];
      Insert(le, s[0], Sort(le, s[1..]))
  }

  /** Inserting into a sorted list keeps it sorted when the order is total. */
  lemma {:induction false} InsertSorted<T(!new)>(le: (T, T) -> bool, x: T, ys: seq<T>)
    requires Total(le)
    requires Sorted(le, ys)
    ensures Sorted(le, Insert(le, x, ys))
  {
    if ys != [] && !le(x, ys[0]) {
      assert le(ys[0], x);
      InsertSorted(le, x, ys[1..]);
    }
  }

  /** Under a total order the sort result is sorted. */
  lemma {:induction false} SortSorted<T(!new)>(le: (T, T) -> bool, s: seq<T>)
    requires Total(le)
    ensures Sorted(le, Sort(le, s))
  {
    if s != [] {
      SortSorted(le, s[1..]);
      InsertSorted(le, s[0], Sort(le, s[1..]));
    }
  }
}
