/**
 * Grouping and summing, as done by a MongoDB `$group` stage with `$sum`
 * accumulators and by the `filter(...).reduce(+, 0)` idiom of the charts.
 *
 * `Group` accumulates documents one at a time into buckets, the way a
 * `$group` stage folds its input; `SumWhere`, `CountWhere` and `DistinctKeys`
 * are the independent reference definitions it is proved against.
 */
module Aggregation {

  /** One output document of `$group`: the key, two `$sum` accumulators and a `$sum: 1` counter. */
  datatype Bucket<K> = Bucket(key: K, first: int, second: int, count: nat)

  /** Sum of `val` over all elements, left to right. */
  function Total<T>(xs: seq<T>, val: T -> int): int
    decreases |xs|
  {
    if xs == [] then 0 else Total(xs[..|xs| - 1], val) + val(xs[|xs| - 1])
  }

  /** Sum of `val` over the elements whose key is `k`: `xs.filter(x => key(x) === k).reduce((a, x) => a + val(x), 0)`. */
  function SumWhere<T, K(==)>(xs: seq<T>, key: T -> K, k: K, val: T -> int): int
    decreases |xs|
  {
    if xs == [] then 0
    else SumWhere(xs[..|xs| - 1], key, k, val) + (if key(xs[|xs| - 1]) == k then val(xs[|xs| - 1]) else 0)
  }

  /** Number of elements whose key is `k`. */
  function CountWhere<T, K(==)>(xs: seq<T>, key: T -> K, k: K): nat
    decreases |xs|
  {
    if xs == [] then 0
    else CountWhere(xs[..|xs| - 1], key, k) + (if key(xs[|xs| - 1]) == k then 1 else 0)
  }

  /** The distinct keys in order of first appearance: `Array.from(new Set(xs.map(key)))`. */
  function DistinctKeys<T, K(==)>(xs: seq<T>, key: T -> K): seq<K>
    decreases |xs|
  {
    if xs == [] then []
    else
      var d := DistinctKeys(xs[..|xs| - 1], key);
      if key(xs[|xs| - 1]) in d then d else d + [key(xs[|xs| - 1])]
  }

  /** The set of keys that occur in `xs`. */
  function KeySet<T, K>(xs: seq<T>, key: T -> K): set<K>
  {
    set i | 0 <= i < |xs| :: key(xs[i])
  }

  predicate NoDuplicates<K(==)>(ks: seq<K>)
  {
    forall i, j | 0 <= i < j < |ks| :: ks[i] != ks[j]
  }

  function Keys<K>(bs: seq<Bucket<K>>): (ks: seq<K>)
    ensures |ks| == |bs|
  {
    seq(|bs|, i requires 0 <= i < |bs| => bs[i].key)
  }

  function First<K>(b: Bucket<K>): int { b.first }
  function Second<K>(b: Bucket<K>): int { b.second }
  function Count<K>(b: Bucket<K>): int { b.count }

  /** Adds one document (key `k`, values `a`, `b`) to the buckets: the bucket of `k` grows, or a new one is opened. */
  function Accumulate<K(==)>(bs: seq<Bucket<K>>, k: K, a: int, b: int): (r: seq<Bucket<K>>)
    ensures |bs| <= |r| <= |bs| + 1
  {
    if bs == [] then [Bucket(k, a, b, 1)]
    else if bs[0].key == k then [Bucket(k, bs[0].first + a, bs[0].second + b, bs[0].count + 1)] + bs[1..]
    else [bs[0]] + Accumulate(bs[1..], k, a, b)
  }

  /** `{ $group: { _id: key, first: { $sum: f }, second: { $sum: g }, count: { $sum: 1 } } }` over `xs`. */
  function Group<T, K(==)>(xs: seq<T>, key: T -> K, f: T -> int, g: T -> int): (r: seq<Bucket<K>>)
    ensures |r| <= |xs|
    decreases |xs|
  {
    if xs == [] then []
    else
      var x := xs[|xs| - 1];
      Accumulate(Group(xs[..|xs| - 1], key, f, g), key(x), f(x), g(x))
  }

  /** The buckets summarise `xs`: one per distinct key, each holding its key's sums and count. */
  ghost predicate Summarises<T, K>(bs: seq<Bucket<K>>, xs: seq<T>, key: T -> K, f: T -> int, g: T -> int)
  {
    && Keys(bs) == DistinctKeys(xs, key)
    && forall i | 0 <= i < |bs| ::
         && bs[i].first == SumWhere(xs, key, bs[i].key, f)
         && bs[i].second == SumWhere(xs, key, bs[i].key, g)
         && bs[i].count == CountWhere(xs, key, bs[i].key)
  }

  lemma {:induction false} TotalConcat<T>(s: seq<T>, t: seq<T>, val: T -> int)
    ensures Total(s + t, val) == Total(s, val) + Total(t, val)
    decreases |t|
  {
    if t == [] {
      assert s + t == s;
    } else {
      assert (s + t)[..|s + t| - 1] == s + t[..|t| - 1];
      TotalConcat(s, t[..|t| - 1], val);
    }
  }

  /** A key that never occurs contributes nothing. */
  lemma {:induction false} AbsentKey<T, K>(xs: seq<T>, key: T -> K, k: K, val: T -> int)
    requires k !in DistinctKeys(xs, key)
    ensures SumWhere(xs, key, k, val) == 0 && CountWhere(xs, key, k) == 0
    decreases |xs|
  {
    if xs != [] {
      var ys := xs[..|xs| - 1];
      assert k !in DistinctKeys(ys, key);
      AbsentKey(ys, key, k, val);
    }
  }

  /** `DistinctKeys` lists no key twice. */
  lemma {:induction false} DistinctNoDuplicates<T, K>(xs: seq<T>, key: T -> K)
    ensures NoDuplicates(DistinctKeys(xs, key))
    decreases |xs|
  {
    if xs != [] {
      DistinctNoDuplicates(xs[..|xs| - 1], key);
    }
  }

  /** `DistinctKeys` lists exactly the keys that occur. */
  lemma {:induction false} DistinctCovers<T, K>(xs: seq<T>, key: T -> K)
    ensures var d := DistinctKeys(xs, key);
      && (forall i | 0 <= i < |d| :: d[i] in KeySet(xs, key))
      && (forall j | 0 <= j < |xs| :: key(xs[j]) in d)
    decreases |xs|
  {
    if xs != [] {
      var ys, x := xs[..|xs| - 1], xs[|xs| - 1];
      var d, e := DistinctKeys(xs, key), DistinctKeys(ys, key);
      DistinctCovers(ys, key);
      assert key(xs[|xs| - 1]) in KeySet(xs, key);
      forall i | 0 <= i < |e| ensures e[i] in KeySet(xs, key) {
        var j :| 0 <= j < |ys| && key(ys[j]) == e[i];
        assert key(xs[j]) == e[i];
      }
      forall j | 0 <= j < |xs| ensures key(xs[j]) in d {
        if j < |ys| { assert key(ys[j]) in e; assert xs[j] == ys[j]; }
      }
    }
  }

  /**
   * `DistinctKeys` keeps the order of first appearance: the distinct keys of
   * any prefix of `xs` are a prefix of the distinct keys of `xs`, so a key
   * seen earlier is listed earlier.
   */
  lemma {:induction false} DistinctPrefix<T, K>(xs: seq<T>, key: T -> K, m: nat)
    requires m <= |xs|
    ensures var p, d := DistinctKeys(xs[..m], key), DistinctKeys(xs, key);
      |p| <= |d| && d[..|p|] == p
    decreases |xs| - m
  {
    if m < |xs| {
      var ys := xs[..|xs| - 1];
      assert ys[..m] == xs[..m];
      DistinctPrefix(ys, key, m);
    } else {
      assert xs[..m] == xs;
    }
  }

  /** How one document changes the buckets when their keys are distinct. */
  lemma {:induction false} AccumulateShape<K>(bs: seq<Bucket<K>>, k: K, a: int, b: int)
    requires NoDuplicates(Keys(bs))
    ensures var r := Accumulate(bs, k, a, b);
      && (k in Keys(bs) ==>
            && |r| == |bs|
            && forall i | 0 <= i < |bs| ::
                 r[i] == if bs[i].key == k then Bucket(k, bs[i].first + a, bs[i].second + b, bs[i].count + 1) else bs[i])
      && (k !in Keys(bs) ==> r == bs + [Bucket(k, a, b, 1)])
  {
    if bs != [] && bs[0].key != k {
      assert Keys(bs[1..]) == Keys(bs)[1..];
      AccumulateShape(bs[1..], k, a, b);
    } else if bs != [] {
      assert Keys(bs)[0] == k;
      forall i | 1 <= i < |bs| ensures bs[i].key != k {
        assert Keys(bs)[0] == k && Keys(bs)[i] == bs[i].key;
      }
    }
  }

  /** Adding a document changes each accumulator's total by that document's value. */
  lemma {:induction false} AccumulateTotals<K>(bs: seq<Bucket<K>>, k: K, a: int, b: int)
    ensures Total(Accumulate(bs, k, a, b), First) == Total(bs, First) + a
    ensures Total(Accumulate(bs, k, a, b), Second) == Total(bs, Second) + b
    ensures Total(Accumulate(bs, k, a, b), Count) == Total(bs, Count) + 1
  {
    var r := Accumulate(bs, k, a, b);
    if bs == [] {
      assert r[..0] == [];
    } else {
      assert bs == [bs[0]] + bs[1..];
      TotalConcat([bs[0]], bs[1..], First);
      TotalConcat([bs[0]], bs[1..], Second);
      TotalConcat([bs[0]], bs[1..], Count);
      assert [bs[0]][..0] == [];
      assert r == [r[0]] + r[1..];
      TotalConcat([r[0]], r[1..], First);
      TotalConcat([r[0]], r[1..], Second);
      TotalConcat([r[0]], r[1..], Count);
      assert [r[0]][..0] == [];
      if bs[0].key != k {
        AccumulateTotals(bs[1..], k, a, b);
      }
    }
  }

  /**
   * The `$group` contract: one bucket per distinct key, each
   * holding the sums and count over exactly the documents with that key, and
   * the buckets' totals add up to the totals over all documents.
   */
  lemma {:induction false} GroupSpec<T, K>(xs: seq<T>, key: T -> K, f: T -> int, g: T -> int)
    ensures Summarises(Group(xs, key, f, g), xs, key, f, g)
    ensures Total(Group(xs, key, f, g), First) == Total(xs, f)
    ensures Total(Group(xs, key, f, g), Second) == Total(xs, g)
    ensures Total(Group(xs, key, f, g), Count) == |xs|
    decreases |xs|
  {
    if xs != [] {
      var ys, x := xs[..|xs| - 1], xs[|xs| - 1];
      var bs := Group(ys, key, f, g);
      var r := Group(xs, key, f, g);
      GroupSpec(ys, key, f, g);
      DistinctNoDuplicates(ys, key);
      AccumulateShape(bs, key(x), f(x), g(x));
      AccumulateTotals(bs, key(x), f(x), g(x));
      assert r == Accumulate(bs, key(x), f(x), g(x));
      if key(x) in Keys(bs) {
        forall i | 0 <= i < |r|
          ensures r[i].first == SumWhere(xs, key, r[i].key, f)
          ensures r[i].second == SumWhere(xs, key, r[i].key, g)
          ensures r[i].count == CountWhere(xs, key, r[i].key)
        {
          assert r[i].key == bs[i].key;
        }
        assert Keys(r) == Keys(bs);
      } else {
        AbsentKey(ys, key, key(x), f);
        AbsentKey(ys, key, key(x), g);
        forall i | 0 <= i < |r|
          ensures r[i].first == SumWhere(xs, key, r[i].key, f)
          ensures r[i].second == SumWhere(xs, key, r[i].key, g)
          ensures r[i].count == CountWhere(xs, key, r[i].key)
        {
          if i < |bs| {
            assert r[i] == bs[i];
            assert Keys(bs)[i] != key(x);
          }
        }
        assert Keys(r) == Keys(bs) + [key(x)];
      }
    }
  }

  /** Totals of two equally long sequences agree when they agree element by element. */
  lemma {:induction false} TotalPointwise<A, B>(a: seq<A>, fa: A -> int, b: seq<B>, fb: B -> int)
    requires |a| == |b|
    requires forall i | 0 <= i < |a| :: fa(a[i]) == fb(b[i])
    ensures Total(a, fa) == Total(b, fb)
    decreases |a|
  {
    if a != [] {
      TotalPointwise(a[..|a| - 1], fa, b[..|b| - 1], fb);
    }
  }

  /** A key that occurs is counted at least once. */
  lemma {:induction false} CountPositive<T, K>(xs: seq<T>, key: T -> K, j: nat)
    requires j < |xs|
    ensures CountWhere(xs, key, key(xs[j])) > 0
    decreases |xs|
  {
    if j < |xs| - 1 {
      CountPositive(xs[..|xs| - 1], key, j);
    }
  }

  function KeyOf<K>(b: Bucket<K>): K { b.key }

  /** Element-wise equal key projections give equal key sets. */
  lemma KeySetPointwise<A, B, K>(a: seq<A>, ka: A -> K, b: seq<B>, kb: B -> K)
    requires |a| == |b|
    requires forall i | 0 <= i < |a| :: ka(a[i]) == kb(b[i])
    ensures KeySet(a, ka) == KeySet(b, kb)
  {
    forall k | k in KeySet(a, ka) ensures k in KeySet(b, kb) {
      var i :| 0 <= i < |a| && ka(a[i]) == k;
      assert kb(b[i]) == k;
    }
    forall k | k in KeySet(b, kb) ensures k in KeySet(a, ka) {
      var i :| 0 <= i < |b| && kb(b[i]) == k;
      assert ka(a[i]) == k;
    }
  }

  /**
   * Everything a caller needs of `Group`, stated without `DistinctKeys`: the
   * buckets' keys are distinct and are exactly the keys that occur, and every
   * bucket holds the sums and count of the documents with its key.
   */
  lemma GroupFacts<T, K>(xs: seq<T>, key: T -> K, f: T -> int, g: T -> int)
    ensures var r := Group(xs, key, f, g);
      && (forall i, j | 0 <= i < j < |r| :: r[i].key != r[j].key)
      && KeySet(r, KeyOf) == KeySet(xs, key)
      && (forall i | 0 <= i < |r| ::
            && r[i].first == SumWhere(xs, key, r[i].key, f)
            && r[i].second == SumWhere(xs, key, r[i].key, g)
            && r[i].count == CountWhere(xs, key, r[i].key))
      && Total(r, First) == Total(xs, f)
      && Total(r, Second) == Total(xs, g)
      && Total(r, Count) == |xs|
  {
    var r := Group(xs, key, f, g);
    var d := DistinctKeys(xs, key);
    GroupSpec(xs, key, f, g);
    DistinctNoDuplicates(xs, key);
    DistinctCovers(xs, key);
    assert forall i | 0 <= i < |r| :: r[i].key == d[i];
    forall k | k in KeySet(r, KeyOf) ensures k in KeySet(xs, key) {
      var i :| 0 <= i < |r| && KeyOf(r[i]) == k;
      assert d[i] in KeySet(xs, key);
    }
    forall k | k in KeySet(xs, key) ensures k in KeySet(r, KeyOf) {
      var j :| 0 <= j < |xs| && key(xs[j]) == k;
      var i :| 0 <= i < |d| && d[i] == key(xs[j]);
      assert KeyOf(r[i]) == k;
    }
  }
}
