/** The pieces of a pandas `groupby(key)[metric].mean()`: the rows of one
    group, the distinct keys, column totals and exact means. */
module Grouping {
  import opened Rows

  /** The key column, row by row. */
  function Keys<K>(rows: seq<Post>, key: Post -> K): seq<K>
  {
    seq(|rows|, i requires 0 <= i < |rows| => key(rows[i]))
  }

  ghost predicate NoDup<K>(ks: seq<K>)
  {
    forall i, j :: 0 <= i < j < |ks| ==> ks[i] != ks[j]
  }

  lemma {:induction false} NoDupCount<T>(s: seq<T>, x: T)
    requires NoDup(s)
    ensures multiset(s)[x] <= 1
  {
    if |s| > 0 {
      var init, last := s[..|s| - 1], s[|s| - 1];
      assert s == init + [last];
      NoDupCount(init, x);
      assert last !in init;
    }
  }

  /** Having no repeated element survives any permutation. */
  lemma NoDupPermutation<T>(a: seq<T>, b: seq<T>)
    requires NoDup(a) && multiset(a) == multiset(b)
    ensures NoDup(b)
  {
    forall i, j | 0 <= i < j < |b|
      ensures b[i] != b[j]
    {
      if b[i] == b[j] {
        var x := b[i];
        assert b == b[..j] + [x] + b[j + 1..];
        assert x in b[..j];
        assert multiset(b)[x] >= 2;
        NoDupCount(a, x);
      }
    }
  }

  ghost predicate Increasing(s: seq<int>)
  {
    forall i, j :: 0 <= i < j < |s| ==> s[i] < s[j]
  }

  /** The rows of group `k`, in their original order. */
  function Select<K(==)>(rows: seq<Post>, key: Post -> K, k: K): (r: seq<Post>)
    ensures |r| <= |rows|
    ensures forall p :: p in r <==> p in rows && key(p) == k
  {
    if |rows| == 0 then []
    else
      var init, last := rows[..|rows| - 1], rows[|rows| - 1];
      assert rows == init + [last];
      Select(init, key, k) + (if key(last) == k then [last] else [])
  }

  lemma {:induction false} SelectAppend<K>(a: seq<Post>, b: seq<Post>, key: Post -> K, k: K)
    ensures Select(a + b, key, k) == Select(a, key, k) + Select(b, key, k)
  {
    if |b| == 0 {
      assert a + b == a;
    } else {
      var init := b[..|b| - 1];
      assert (a + b)[..|a + b| - 1] == a + init;
      SelectAppend(a, init, key, k);
    }
  }

  /** Removing the row at `i` shrinks its own group by one and no other. */
  lemma SelectRemove<K>(b: seq<Post>, i: nat, key: Post -> K, k: K)
    requires i < |b|
    ensures |Select(b, key, k)| ==
            |Select(b[..i] + b[i + 1..], key, k)| + (if key(b[i]) == k then 1 else 0)
  {
    var b1, z, b2 := b[..i], b[i], b[i + 1..];
    assert b == (b1 + [z]) + b2;
    SelectAppend(b1 + [z], b2, key, k);
    SelectAppend(b1, [z], key, k);
    SelectAppend(b1, b2, key, k);
    assert [z] == [] + [z];
  }

  lemma MultisetRemoveLast<T>(a: seq<T>, b: seq<T>, i: nat)
    requires multiset(a) == multiset(b) && |a| > 0 && i < |b| && b[i] == a[|a| - 1]
    ensures multiset(a[..|a| - 1]) == multiset(b[..i] + b[i + 1..])
  {
    var init, z, rest := a[..|a| - 1], a[|a| - 1], b[..i] + b[i + 1..];
    assert a == init + [z];
    assert b == b[..i] + [z] + b[i + 1..];
    assert multiset(a) == multiset(init) + multiset{z};
    assert multiset(b) == multiset(rest) + multiset{z};
    assert multiset(init) == multiset(a) - multiset{z};
    assert multiset(rest) == multiset(b) - multiset{z};
  }

  /** Group sizes do not depend on the order of the rows. */
  lemma {:induction false} SelectCountPermutation<K>(a: seq<Post>, b: seq<Post>, key: Post -> K, k: K)
    requires multiset(a) == multiset(b)
    ensures |Select(a, key, k)| == |Select(b, key, k)|
    decreases |a|
  {
    if |a| == 0 {
      assert |b| == |multiset(b)| == 0;
    } else {
      var init, z := a[..|a| - 1], a[|a| - 1];
      assert a == init + [z];
      assert z in multiset(b);
      var i :| 0 <= i < |b| && b[i] == z;
      var rest := b[..i] + b[i + 1..];
      MultisetRemoveLast(a, b, i);
      SelectCountPermutation(init, rest, key, k);
      SelectRemove(b, i, key, k);
    }
  }

  /** A key that occurs in the rows has a non-empty group. */
  lemma SelectNonEmpty<K>(rows: seq<Post>, key: Post -> K, k: K)
    requires k in Keys(rows, key)
    ensures |Select(rows, key, k)| > 0
  {
    var i :| 0 <= i < |rows| && Keys(rows, key)[i] == k;
    assert rows[i] in Select(rows, key, k);
  }

  /** Column sum. */
  function Total(rows: seq<Post>, m: Metric): int
  {
    if |rows| == 0 then 0
    else Total(rows[..|rows| - 1], m) + Value(rows[|rows| - 1], m)
  }

  /** Cluster groups, and so their sizes, do not look at `dist_centroid`. */
  lemma {:induction false} SelectIgnoresDist(a: seq<Post>, b: seq<Post>, k: nat)
    requires SameButDist(a, b)
    ensures SameButDist(Select(a, ClusterOf, k), Select(b, ClusterOf, k))
  {
    if |a| > 0 {
      var n := |a| - 1;
      assert a[n].(dist := 0.0).cluster == a[n].cluster;
      assert b[n].(dist := 0.0).cluster == b[n].cluster;
      SelectIgnoresDist(a[..n], b[..n], k);
    }
  }

  lemma ClusterKeysIgnoreDist(a: seq<Post>, b: seq<Post>)
    requires SameButDist(a, b)
    ensures Keys(a, ClusterOf) == Keys(b, ClusterOf)
  {
    forall i | 0 <= i < |a|
      ensures a[i].cluster == b[i].cluster
    {
      assert a[i].(dist := 0.0).cluster == b[i].(dist := 0.0).cluster;
    }
    assert forall i :: 0 <= i < |a| ==> Keys(a, ClusterOf)[i] == Keys(b, ClusterOf)[i];
  }

  /** Nor do column totals. */
  lemma {:induction false} TotalIgnoresDist(a: seq<Post>, b: seq<Post>, m: Metric)
    requires SameButDist(a, b)
    ensures Total(a, m) == Total(b, m)
  {
    if |a| > 0 {
      var n := |a| - 1;
      assert Value(a[n].(dist := 0.0), m) == Value(a[n], m);
      assert Value(b[n].(dist := 0.0), m) == Value(b[n], m);
      TotalIgnoresDist(a[..n], b[..n], m);
    }
  }

  /** Exact arithmetic mean of a column (pandas computes it in float64). */
  function Mean(rows: seq<Post>, m: Metric): real
    requires |rows| > 0
  {
    Total(rows, m) as real / |rows| as real
  }

  /** Mean of column `m` over group `k`. */
  function GroupMean<K(==)>(rows: seq<Post>, key: Post -> K, k: K, m: Metric): real
    requires k in Keys(rows, key)
  {
    SelectNonEmpty(rows, key, k);
    Mean(Select(rows, key, k), m)
  }

  /** The distinct keys in order of first appearance. */
  function Dedup<K(==,!new)>(xs: seq<K>): (r: seq<K>)
    ensures NoDup(r)
    ensures forall y :: y in r <==> y in xs
  {
    if |xs| == 0 then []
    else
      var init, last := xs[..|xs| - 1], xs[|xs| - 1];
      assert xs == init + [last];
      var d := Dedup(init);
      if last in d then d else d + [last]
  }

  function InsertKey(x: nat, s: seq<nat>): (r: seq<nat>)
    requires Increasing(s)
    ensures Increasing(r)
    ensures forall y :: y in r <==> y == x || y in s
  {
    if |s| == 0 || x < s[0] then [x] + s
    else if x == s[0] then s
    else
      assert s == [s[0]] + s[1..];
      var tail := InsertKey(x, s[1..]);
      assert forall i :: 0 <= i < |tail| ==> tail[i] in tail;
      [s[0]] + tail
  }

  /** The distinct keys in ascending order: the index of `groupby(...)`. */
  function SortedKeys(xs: seq<nat>): (r: seq<nat>)
    ensures Increasing(r)
    ensures forall y :: y in r <==> y in xs
  {
    if |xs| == 0 then []
    else
      var init, last := xs[..|xs| - 1], xs[|xs| - 1];
      assert xs == init + [last];
      InsertKey(last, SortedKeys(init))
  }

  /** Sum of the sizes of the groups named in `ks`. */
  function GroupSizes<K(==)>(rows: seq<Post>, key: Post -> K, ks: seq<K>): nat
  {
    if |ks| == 0 then 0
    else |Select(rows, key, ks[0])| + GroupSizes(rows, key, ks[1..])
  }

  lemma {:induction false} GroupSizesStep<K>(init: seq<Post>, z: Post, key: Post -> K, ks: seq<K>)
    requires NoDup(ks)
    ensures GroupSizes(init + [z], key, ks) == GroupSizes(init, key, ks) + (if key(z) in ks then 1 else 0)
  {
    if |ks| > 0 {
      assert (init + [z])[..|init|] == init;
      GroupSizesStep(init, z, key, ks[1..]);
      assert key(z) in ks <==> key(z) == ks[0] || key(z) in ks[1..];
      if key(z) == ks[0] {
        assert key(z) !in ks[1..];
      }
    }
  }

  /** Groups over a duplicate-free list of keys that covers every row
      partition the rows: their sizes add up to the row count. */
  lemma {:induction false} GroupSizesPartition<K>(rows: seq<Post>, key: Post -> K, ks: seq<K>)
    requires NoDup(ks)
    requires forall p :: p in rows ==> key(p) in ks
    ensures GroupSizes(rows, key, ks) == |rows|
  {
    if |rows| == 0 {
      GroupSizesEmpty(key, ks);
    } else {
      var init, z := rows[..|rows| - 1], rows[|rows| - 1];
      assert rows == init + [z];
      GroupSizesPartition(init, key, ks);
      GroupSizesStep(init, z, key, ks);
    }
  }

  lemma {:induction false} GroupSizesEmpty<K>(key: Post -> K, ks: seq<K>)
    ensures GroupSizes([], key, ks) == 0
  {
    if |ks| > 0 {
      GroupSizesEmpty(key, ks[1..]);
    }
  }
}
