/** `top_posts`: the rows sorted by (cluster_label, dist_centroid), then the
    first three rows of each cluster, projected on the columns the views
    show. */
module Exemplars {
  import opened Rows
  import opened Grouping
  import opened Sorting

  /** The columns of `top_posts` (`dist_centroid` is not among them). */
  datatype Exemplar = Exemplar(
    cluster: nat,
    statusId: string,
    statusType: string,
    reactions: int,
    comments: int,
    shares: int)

  /** Rows kept per cluster. */
  const PerCluster: nat := 3

  function Min(a: nat, b: nat): nat { if a <= b then a else b }

  /** `sort_values(["cluster_label", "dist_centroid"])`: lexicographic order. */
  function ByClusterThenDist(a: Post, b: Post): bool
  {
    a.cluster < b.cluster || (a.cluster == b.cluster && a.dist <= b.dist)
  }

  function RankByCentroid(rows: seq<Post>): seq<Post>
  {
    SortBy(rows, ByClusterThenDist)
  }

  /** `groupby("cluster_label").head(n)`: a row is kept while fewer than `n`
      earlier rows share its cluster. */
  function HeadPerCluster(s: seq<Post>, n: nat): seq<Post>
  {
    if |s| == 0 then []
    else
      var init, z := s[..|s| - 1], s[|s| - 1];
      HeadPerCluster(init, n) + (if |Select(init, ClusterOf, z.cluster)| < n then [z] else [])
  }

  /** The rows `head(n)` leaves out. */
  function DroppedPerCluster(s: seq<Post>, n: nat): seq<Post>
  {
    if |s| == 0 then []
    else
      var init, z := s[..|s| - 1], s[|s| - 1];
      DroppedPerCluster(init, n) + (if |Select(init, ClusterOf, z.cluster)| < n then [] else [z])
  }

  /** The exemplar rows, before projection. */
  function SelectExemplars(rows: seq<Post>): seq<Post>
  {
    HeadPerCluster(RankByCentroid(rows), PerCluster)
  }

  function Project(p: Post): Exemplar
  {
    Exemplar(p.cluster, p.statusId, p.statusType, p.reactions, p.comments, p.shares)
  }

  function TopPosts(rows: seq<Post>): seq<Exemplar>
  {
    var sel := SelectExemplars(rows);
    seq(|sel|, i requires 0 <= i < |sel| => Project(sel[i]))
  }

  lemma SelectSingleton<K>(z: Post, key: Post -> K, k: K)
    ensures Select([z], key, k) == if key(z) == k then [z] else []
  {
    assert [z][..0] == [];
  }

  /** Kept and dropped rows split the input. */
  lemma {:induction false} HeadDroppedSplit(s: seq<Post>, n: nat)
    ensures multiset(HeadPerCluster(s, n)) + multiset(DroppedPerCluster(s, n)) == multiset(s)
  {
    if |s| > 0 {
      var init, z := s[..|s| - 1], s[|s| - 1];
      assert s == init + [z];
      HeadDroppedSplit(init, n);
      var h, d := HeadPerCluster(init, n), DroppedPerCluster(init, n);
      if |Select(init, ClusterOf, z.cluster)| < n {
        assert HeadPerCluster(s, n) == h + [z] && DroppedPerCluster(s, n) == d;
      } else {
        assert HeadPerCluster(s, n) == h && DroppedPerCluster(s, n) == d + [z];
      }
      assert multiset(s) == multiset(init) + multiset{z};
    }
  }

  /** head(n) keeps min(n, size) rows of every cluster: at most n, and all of
      a cluster that has no more than n rows. */
  lemma {:induction false} HeadCount(s: seq<Post>, n: nat, c: nat)
    ensures |Select(HeadPerCluster(s, n), ClusterOf, c)| == Min(n, |Select(s, ClusterOf, c)|)
  {
    if |s| > 0 {
      var init, z := s[..|s| - 1], s[|s| - 1];
      var kept := if |Select(init, ClusterOf, z.cluster)| < n then [z] else [];
      var h := HeadPerCluster(init, n);
      HeadCount(init, n, c);
      assert HeadPerCluster(s, n) == h + kept;
      SelectAppend(h, kept, ClusterOf, c);
      SelectSingleton(z, ClusterOf, c);
      if z.cluster == c {
        assert Select(kept, ClusterOf, c) == kept;
        assert Select(s, ClusterOf, c) == Select(init, ClusterOf, c) + [z];
      } else {
        assert Select(kept, ClusterOf, c) == [];
        assert Select(s, ClusterOf, c) == Select(init, ClusterOf, c);
      }
    }
  }

  /** Every kept row comes from the input. */
  lemma {:induction false} HeadMembers(s: seq<Post>, n: nat)
    ensures forall x :: x in HeadPerCluster(s, n) ==> x in s
  {
    HeadDroppedSplit(s, n);
    forall x | x in HeadPerCluster(s, n)
      ensures x in s
    {
      assert x in multiset(HeadPerCluster(s, n));
      assert x in multiset(s);
    }
  }

  /** head(n) keeps the order of a sorted input. */
  lemma {:induction false} HeadSorted(s: seq<Post>, n: nat)
    requires SortedBy(s, ByClusterThenDist)
    ensures SortedBy(HeadPerCluster(s, n), ByClusterThenDist)
  {
    if |s| > 0 {
      var init, z := s[..|s| - 1], s[|s| - 1];
      assert SortedBy(init, ByClusterThenDist);
      HeadSorted(init, n);
      HeadMembers(init, n);
      var h := HeadPerCluster(init, n);
      forall i | 0 <= i < |h|
        ensures ByClusterThenDist(h[i], z)
      {
        assert h[i] in init;
      }
    }
  }

  /** A dropped row's cluster already has at least `n` rows. */
  lemma {:induction false} DroppedMeansFull(s: seq<Post>, n: nat)
    ensures forall y :: y in DroppedPerCluster(s, n) ==> |Select(s, ClusterOf, y.cluster)| >= n
  {
    if |s| > 0 {
      var init, z := s[..|s| - 1], s[|s| - 1];
      DroppedMeansFull(init, n);
      forall c: nat
        ensures |Select(s, ClusterOf, c)| >= |Select(init, ClusterOf, c)|
      {
      }
    }
  }

  /** On a sorted input, within one cluster every kept row is at least as
      close to the centroid as every dropped row. */
  lemma {:induction false} KeptBeforeDropped(s: seq<Post>, n: nat)
    requires SortedBy(s, ByClusterThenDist)
    ensures forall x, y :: x in HeadPerCluster(s, n) && y in DroppedPerCluster(s, n) && x.cluster == y.cluster
              ==> x.dist <= y.dist
  {
    if |s| > 0 {
      var init, z := s[..|s| - 1], s[|s| - 1];
      assert SortedBy(init, ByClusterThenDist);
      KeptBeforeDropped(init, n);
      if |Select(init, ClusterOf, z.cluster)| < n {
        DroppedMeansFull(init, n);
      } else {
        HeadMembers(init, n);
        forall x | x in HeadPerCluster(init, n) && x.cluster == z.cluster
          ensures x.dist <= z.dist
        {
          var i :| 0 <= i < |init| && init[i] == x;
          assert ByClusterThenDist(s[i], s[|s| - 1]);
        }
      }
    }
  }

  // What `top_posts` selects, whatever order the sort leaves equal keys in.

  /** The exemplars are ordered by (cluster, distance). */
  lemma ExemplarsOrdered(rows: seq<Post>)
    ensures SortedBy(SelectExemplars(rows), ByClusterThenDist)
  {
    SortBySorted(rows, ByClusterThenDist);
    HeadSorted(RankByCentroid(rows), PerCluster);
  }

  /** The exemplars are rows of the input; what is left over is exactly what
      head(3) dropped. */
  lemma ExemplarsFromRows(rows: seq<Post>)
    ensures multiset(SelectExemplars(rows)) <= multiset(rows)
    ensures multiset(rows) - multiset(SelectExemplars(rows))
            == multiset(DroppedPerCluster(RankByCentroid(rows), PerCluster))
  {
    HeadDroppedSplit(RankByCentroid(rows), PerCluster);
  }

  /** Every cluster keeps min(3, size) rows: none more than three, each
      observed cluster at least one, a small cluster all of its rows. */
  lemma ExemplarCount(rows: seq<Post>, c: nat)
    ensures |Select(SelectExemplars(rows), ClusterOf, c)| == Min(PerCluster, |Select(rows, ClusterOf, c)|)
  {
    HeadCount(RankByCentroid(rows), PerCluster, c);
    SelectCountPermutation(RankByCentroid(rows), rows, ClusterOf, c);
  }

  /** Within a cluster, no kept row is farther from the centroid than a row
      left out. */
  lemma ExemplarsClosest(rows: seq<Post>)
    ensures forall x, y :: x in SelectExemplars(rows) && y in multiset(rows) - multiset(SelectExemplars(rows))
              ==> (x.cluster == y.cluster ==> x.dist <= y.dist)
  {
    var s := RankByCentroid(rows);
    SortBySorted(rows, ByClusterThenDist);
    ExemplarsFromRows(rows);
    KeptBeforeDropped(s, PerCluster);
    forall x, y | x in SelectExemplars(rows) && y in multiset(rows) - multiset(SelectExemplars(rows))
      ensures x.cluster == y.cluster ==> x.dist <= y.dist
    {
      assert y in DroppedPerCluster(s, PerCluster);
    }
  }

  /** The first exemplar belongs to the smallest cluster id present. */
  lemma FirstExemplarFromLowestCluster(rows: seq<Post>, p: Post)
    requires p in rows
    ensures |TopPosts(rows)| > 0 && TopPosts(rows)[0].cluster <= p.cluster
  {
    var sel := SelectExemplars(rows);
    assert p in Select(rows, ClusterOf, p.cluster);
    ExemplarCount(rows, p.cluster);
    var g := Select(sel, ClusterOf, p.cluster);
    assert g[0] in sel;
    var j :| 0 <= j < |sel| && sel[j] == g[0];
    ExemplarsOrdered(rows);
    assert j == 0 || ByClusterThenDist(sel[0], sel[j]);
  }
}
