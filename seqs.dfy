/** Sequence helpers shared by the ledger queries, the analysis metrics and
    the stock filter: JavaScript's `Array.prototype.filter`, `reduce` sums and
    `slice` as they behave on the arrays the dashboard handles. */
module Seqs {

  /** `s.filter(keep)`: the elements of `s` that satisfy `keep`, in order. */
  function Select<T>(s: seq<T>, keep: T -> bool): (r: seq<T>)
    ensures |r| <= |s|
    ensures forall x :: x in r ==> x in s && keep(x)
  {
    if s == [] then []
    else if keep(s[0]) then [s[0]] + Select(s[1..], keep)
    else Select(s[1..], keep)
  }

  /** `a` can be obtained from `b` by deleting elements (order preserved). */
  predicate IsSubsequence<T(==)>(a: seq<T>, b: seq<T>)
    decreases |b|
  {
    a == [] ||
    (b != [] && ((a[0] == b[0] && IsSubsequence(a[1..], b[1..])) || IsSubsequence(a, b[1..])))
  }

  /** Every element of `s` that satisfies `keep` survives the filter. */
  lemma {:induction false} SelectKeepsMatches<T>(s: seq<T>, keep: T -> bool, x: T)
    requires x in s && keep(x)
    ensures x in Select(s, keep)
  {
    if s[0] != x {
      SelectKeepsMatches(s[1..], keep, x);
    }
  }

  /** The filter keeps the order of the elements it retains. */
  lemma {:induction false} SelectIsSubsequence<T>(s: seq<T>, keep: T -> bool)
    ensures IsSubsequence(Select(s, keep), s)
  {
    if s != [] {
      SelectIsSubsequence(s[1..], keep);
    }
  }

  /** A filter keeps every copy of an element it accepts and no copy of one
      it rejects. */
  lemma {:induction false} SelectMultiplicity<T>(s: seq<T>, keep: T -> bool, x: T)
    ensures multiset(Select(s, keep))[x] == if keep(x) then multiset(s)[x] else 0
  {
    if s != [] {
      SelectMultiplicity(s[1..], keep, x);
      assert s == [s[0]] + s[1..];
    }
  }

  /** When `yes` and `no` split every element between them, the two filters'
      lengths add up to the length of the input. */
  lemma {:induction false} SelectPartition<T>(s: seq<T>, yes: T -> bool, no: T -> bool)
    requires forall x :: yes(x) == !no(x)
    ensures |Select(s, yes)| + |Select(s, no)| == |s|
  {
    if s != [] {
      SelectPartition(s[1..], yes, no);
    }
  }

  /** Filtering twice counts the same elements as filtering once by the
      conjunction of the two tests. */
  lemma {:induction false} SelectTwice<T>(s: seq<T>, outer: T -> bool, inner: T -> bool, both: T -> bool)
    requires forall x :: both(x) == (outer(x) && inner(x))
    ensures Select(Select(s, outer), inner) == Select(s, both)
  {
    if s != [] {
      SelectTwice(s[1..], outer, inner, both);
    }
  }

  /** `s.reduce((sum, x) => sum + value(x), 0)`. */
  function SumOf<T>(s: seq<T>, value: T -> real): real
  {
    if s == [] then 0.0 else value(s[0]) + SumOf(s[1..], value)
  }

  /** A sum of terms that are each at most `bound` is at most `|s| * bound`. */
  lemma {:induction false} SumOfAtMost<T>(s: seq<T>, value: T -> real, bound: real)
    requires forall x :: x in s ==> value(x) <= bound
    ensures SumOf(s, value) <= |s| as real * bound
  {
    if s != [] {
      SumOfAtMost(s[1..], value, bound);
    }
  }

  /** A sum of terms that are each at least `bound` is at least `|s| * bound`. */
  lemma {:induction false} SumOfAtLeast<T>(s: seq<T>, value: T -> real, bound: real)
    requires forall x :: x in s ==> bound <= value(x)
    ensures |s| as real * bound <= SumOf(s, value)
  {
    if s != [] {
      SumOfAtLeast(s[1..], value, bound);
    }
  }

  /** JavaScript's relative index for `slice`: negative counts from the end,
      and the result is clamped to `[0, len]`. */
  function RelativeIndex(i: int, len: nat): (r: nat)
    ensures r <= len
    ensures 0 <= i ==> r == if i < len then i else len
  {
    if i < 0 then (if len + i < 0 then 0 else len + i)
    else if i < len then i else len
  }

  /** `s.slice(start, end)` with JavaScript's handling of negative and
      out-of-range bounds. */
  function JsSlice<T>(s: seq<T>, start: int, end: int): (r: seq<T>)
    ensures 0 <= start <= end ==> |r| == if start < |s| then Min(end, |s|) - start else 0
    ensures 0 <= start ==> forall k :: 0 <= k < |r| ==> start + k < |s| && r[k] == s[start + k]
    ensures forall x :: x in r ==> x in s
  {
    var from := RelativeIndex(start, |s|);
    var to := RelativeIndex(end, |s|);
    if from < to then s[from..to] else []
  }

  function Min(a: int, b: int): int
  {
    if a <= b then a else b
  }

  /** A window of length `limit >= 0` never yields more than `limit`
      elements, whatever the sign of `offset`. */
  lemma SliceWindowBounded<T>(s: seq<T>, offset: int, limit: int)
    requires 0 <= limit
    ensures |JsSlice(s, offset, offset + limit)| <= limit
  {
  }
}
