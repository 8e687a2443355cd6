/**
 * Ordering by an integer rank, as done by a MongoDB `$sort` stage and by
 * JavaScript's `Array.prototype.sort` with a numeric comparator.
 *
 * `SortBy` is a stable insertion sort: among elements of equal rank it keeps
 * the input order. Only "ascending by rank" and "a permutation of the input"
 * are claimed about it.
 */
module Sorting {

  /** Ranks are non-decreasing along `s`. */
  predicate SortedBy<T>(s: seq<T>, rank: T -> int)
  {
    forall i, j | 0 <= i < j < |s| :: rank(s[i]) <= rank(s[j])
  }

  /** Inserts `x` before the first element of rank at least `rank(x)`. */
  function Insert<T>(x: T, s: seq<T>, rank: T -> int): (r: seq<T>)
    ensures |r| == |s| + 1
  {
    if s == [] then [x]
    else if rank(x) <= rank(s[0]) then [x] + s
    else [s[0]] + Insert(x, s[1..], rank)
  }

  /** Sorts `xs` ascending by `rank`, by inserting each element into the sorted rest. */
  function SortBy<T>(xs: seq<T>, rank: T -> int): (r: seq<T>)
    ensures |r| == |xs|
  {
    if xs == [] then [] else Insert(xs[0], SortBy(xs[1..], rank), rank)
  }

  lemma {:induction false} InsertPermutes<T>(x: T, s: seq<T>, rank: T -> int)
    ensures multiset(Insert(x, s, rank)) == multiset(s) + multiset{x}
  {
    if s != [] && rank(x) > rank(s[0]) {
      InsertPermutes(x, s[1..], rank);
      assert s == [s[0]] + s[1..];
    }
  }

  /** Every element after the insertion was `x` or came from `s`. */
  lemma {:induction false} InsertElements<T>(x: T, s: seq<T>, rank: T -> int)
    ensures |Insert(x, s, rank)| == |s| + 1
    ensures forall j | 0 <= j < |Insert(x, s, rank)| ::
      Insert(x, s, rank)[j] == x || exists m | 0 <= m < |s| :: s[m] == Insert(x, s, rank)[j]
  {
    if s != [] && rank(x) > rank(s[0]) {
      InsertElements(x, s[1..], rank);
      var t := Insert(x, s, rank);
      forall j | 0 <= j < |t| ensures t[j] == x || exists m | 0 <= m < |s| :: s[m] == t[j] {
        if j > 0 {
          var u := Insert(x, s[1..], rank);
          assert t[j] == u[j - 1];
          if u[j - 1] != x {
            var m :| 0 <= m < |s[1..]| && s[1..][m] == u[j - 1];
            assert s[m + 1] == t[j];
          }
        }
      }
    }
  }

  lemma {:induction false} InsertSorted<T>(x: T, s: seq<T>, rank: T -> int)
    requires SortedBy(s, rank)
    ensures SortedBy(Insert(x, s, rank), rank)
  {
    if s != [] && rank(x) > rank(s[0]) {
      var t := Insert(x, s[1..], rank);
      InsertSorted(x, s[1..], rank);
      InsertElements(x, s[1..], rank);
      forall j | 0 <= j < |t| ensures rank(s[0]) <= rank(t[j]) {
        if t[j] != x {
          var m :| 0 <= m < |s[1..]| && s[1..][m] == t[j];
          assert s[m + 1] == t[j];
        }
      }
    }
  }

  /** The sort's contract: ascending by rank, and a permutation of its input. */
  lemma {:induction false} SortBySpec<T>(xs: seq<T>, rank: T -> int)
    ensures SortedBy(SortBy(xs, rank), rank)
    ensures multiset(SortBy(xs, rank)) == multiset(xs)
    ensures |SortBy(xs, rank)| == |xs|
  {
    if xs != [] {
      SortBySpec(xs[1..], rank);
      InsertPermutes(xs[0], SortBy(xs[1..], rank), rank);
      InsertSorted(xs[0], SortBy(xs[1..], rank), rank);
      assert xs == [xs[0]] + xs[1..];
    }
    assert |multiset(SortBy(xs, rank))| == |multiset(xs)|;
  }

  /** A value found at two positions occurs at least twice. */
  lemma TwoOccurrences<T>(s: seq<T>, i: nat, j: nat)
    requires i < j < |s| && s[i] == s[j]
    ensures multiset(s)[s[i]] >= 2
  {
    assert s == s[..j] + s[j..];
    assert s[i] in s[..j];
    assert s[j] in s[j..];
  }

  /** With pairwise distinct keys, no value occurs twice. */
  lemma {:induction false} DistinctOccursOnce<T, K>(a: seq<T>, key: T -> K, x: T)
    requires forall i, j | 0 <= i < j < |a| :: key(a[i]) != key(a[j])
    ensures multiset(a)[x] <= 1
    decreases |a|
  {
    if a != [] {
      var p := a[..|a| - 1];
      assert a == p + [a[|a| - 1]];
      DistinctOccursOnce(p, key, x);
      if x == a[|a| - 1] {
        assert x !in p;
      }
    }
  }

  /** Reordering keeps keys pairwise distinct. */
  lemma PermutationKeepsDistinct<T, K>(a: seq<T>, b: seq<T>, key: T -> K)
    requires multiset(a) == multiset(b)
    requires forall i, j | 0 <= i < j < |a| :: key(a[i]) != key(a[j])
    ensures forall i, j | 0 <= i < j < |b| :: key(b[i]) != key(b[j])
  {
    forall i, j | 0 <= i < j < |b| ensures key(b[i]) != key(b[j]) {
      if b[i] == b[j] {
        TwoOccurrences(b, i, j);
        DistinctOccursOnce(a, key, b[i]);
      } else {
        assert b[i] in multiset(a) && b[j] in multiset(a);
        var p :| 0 <= p < |a| && a[p] == b[i];
        var q :| 0 <= q < |a| && a[q] == b[j];
      }
    }
  }
}
