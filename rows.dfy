/** The labelled post table that every analytics view works on: one `Post`
    per CSV row, already carrying the cluster label assigned at upload time. */
module Rows {

  /** The exceptions the views can raise (or, for `NoUpload`, the redirect
      to the upload page when the session holds no CSV). */
  datatype PipelineError = ValueError | IndexError | KeyError | NoUpload

  datatype Result<T> = Ok(value: T) | Err(error: PipelineError)

  datatype Option<T> = None | Some(value: T)

  /** Hour of day of `status_published` (the timestamp parse is not modelled). */
  type Hour = h: nat | h < 24

  /** One row of the labelled data frame. `dist` is the `dist_centroid`
      column; it is meaningful once `Frame.AttachDistances` has run. */
  datatype Post = Post(
    statusId: string,
    statusType: string,
    hour: Hour,
    reactions: int,
    likes: int,
    comments: int,
    shares: int,
    cluster: nat,
    dist: real)

  /** The numeric columns that are averaged somewhere. */
  datatype Metric = Reactions | Likes | Comments | Shares

  function Value(p: Post, m: Metric): int
  {
    match m
    case Reactions => p.reactions
    case Likes => p.likes
    case Comments => p.comments
    case Shares => p.shares
  }

  // Group-by keys.
  function ClusterOf(p: Post): nat { p.cluster }
  function TypeOf(p: Post): string { p.statusType }
  function HourOf(p: Post): nat { p.hour }

  /** The distance matrix fits the rows: one matrix row per post, and the
      post's own cluster label indexes into it. */
  predicate DistancesFit(rows: seq<Post>, dists: seq<seq<real>>)
  {
    |dists| == |rows| && forall i :: 0 <= i < |rows| ==> rows[i].cluster < |dists[i]|
  }

  /** `df["dist_centroid"] = dists[range(len(df)), df["cluster_label"]]`:
      each row takes the distance to the centroid of its OWN cluster. */
  function WithDistances(rows: seq<Post>, dists: seq<seq<real>>): (r: seq<Post>)
    requires DistancesFit(rows, dists)
    ensures |r| == |rows|
    ensures forall i :: 0 <= i < |rows| ==> r[i].dist == dists[i][rows[i].cluster]
    ensures forall i :: 0 <= i < |rows| ==> r[i].(dist := 0.0) == rows[i].(dist := 0.0)
  {
    seq(|rows|, i requires 0 <= i < |rows| => rows[i].(dist := dists[i][rows[i].cluster]))
  }

  /** `b` is `a` with possibly other values in the `dist_centroid` column. */
  ghost predicate SameButDist(a: seq<Post>, b: seq<Post>)
  {
    |a| == |b| && forall i :: 0 <= i < |a| ==> a[i].(dist := 0.0) == b[i].(dist := 0.0)
  }

  /** Smallest entry of a non-empty row of distances: the nearest centroid. */
  function MinOf(xs: seq<real>): (m: real)
    requires |xs| > 0
    ensures m in xs
    ensures forall x :: x in xs ==> m <= x
  {
    if |xs| == 1 then xs[0]
    else
      var rest := MinOf(xs[1..]);
      assert xs == [xs[0]] + xs[1..];
      if xs[0] <= rest then xs[0] else rest
  }

  /** The looked-up distance is never below the distance to the nearest
      centroid, and is non-negative whenever the matrix is. */
  lemma OwnDistanceBounds(rows: seq<Post>, dists: seq<seq<real>>, i: nat)
    requires DistancesFit(rows, dists) && i < |rows|
    ensures WithDistances(rows, dists)[i].dist >= MinOf(dists[i])
    ensures (forall x :: x in dists[i] ==> x >= 0.0) ==> WithDistances(rows, dists)[i].dist >= 0.0
  {
    assert dists[i][rows[i].cluster] in dists[i];
  }

  /** The lookup is the assigned centroid, not the nearest one: a row labelled
      1 whose centroid 0 is closer keeps the larger distance. */
  lemma OwnDistanceIsNotNearest()
    ensures var rows := [Post("a", "photo", 0, 0, 0, 0, 0, 1, 0.0)];
            var dists := [[0.5, 2.0]];
            DistancesFit(rows, dists) &&
            WithDistances(rows, dists)[0].dist == 2.0 > MinOf(dists[0])
  {
    var dists := [[0.5, 2.0]];
    assert dists[0][1..] == [2.0];
  }

  /** The data frame `df` of one request. Its only in-place change that the
      model keeps is the added `dist_centroid` column. */
  class Frame {
    var rows: seq<Post>

    constructor (rows: seq<Post>)
      ensures this.rows == rows
    {
      this.rows := rows;
    }

    method AttachDistances(dists: seq<seq<real>>)
      requires DistancesFit(rows, dists)
      modifies this
      ensures rows == WithDistances(old(rows), dists)
    {
      rows := WithDistances(rows, dists);
    }
  }
}
