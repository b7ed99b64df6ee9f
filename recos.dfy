/** `build_recos`: four recommendations, always in the same order, chosen
    from `type_perf`, `hour_perf`, the labelled rows and `top_posts`. Only
    the chosen values are modelled, not the sentences they are put in. */
module Recos {
  import opened Rows
  import opened Grouping
  import opened Sorting
  import opened Kpis
  import opened Exemplars

  datatype Reco =
    | BestType(statusType: string, delta: real)   // most engaging type, lead over the least
    | PeakHours(hours: seq<Hour>)                  // the three busiest hours, ascending
    | TopCluster(cluster: nat)                     // cluster with the highest mean reactions
    | Recycle(statusIds: seq<string>)              // the first three exemplars

  // ------------------------------------------------------- rule 1: best type

  /** `type_perf[0]` minus `type_perf[-1]`: the lead of the first type over
      the last; never negative on a ranking, zero with a single type. */
  function TypeDelta(tp: seq<TypeMean>): (d: real)
    requires |tp| > 0
    ensures SortedBy(tp, ReactionsDesc) ==> d >= 0.0
    ensures |tp| == 1 ==> d == 0.0
  {
    tp[0].reactions - tp[|tp| - 1].reactions
  }

  /** A descending sequence is bounded by its first and last entries. */
  lemma DescendingEnds(tp: seq<TypeMean>, i: nat)
    requires SortedBy(tp, ReactionsDesc) && i < |tp|
    ensures tp[|tp| - 1].reactions <= tp[i].reactions <= tp[0].reactions
  {
    assert i == 0 || ReactionsDesc(tp[0], tp[i]);
    assert i == |tp| - 1 || ReactionsDesc(tp[i], tp[|tp| - 1]);
  }

  /** Where an observed type sits in a ranking. */
  lemma RankingIndex(rows: seq<Post>, tp: seq<TypeMean>, t: string) returns (i: nat)
    requires IsTypeRanking(rows, tp) && t in Keys(rows, TypeOf)
    ensures i < |tp| && tp[i] == TypeRecord(rows, t)
  {
    assert t in TypesOf(tp);
    i :| 0 <= i < |tp| && TypesOf(tp)[i] == t;
  }

  /** The first and last entries of a ranking carry the largest and the
      smallest rounded mean of all observed types. */
  lemma RankingEnds(rows: seq<Post>, tp: seq<TypeMean>, t: string)
    requires IsTypeRanking(rows, tp) && t in Keys(rows, TypeOf)
    ensures |tp| > 0
    ensures tp[|tp| - 1].reactions <= TypeRecord(rows, t).reactions <= tp[0].reactions
  {
    var i := RankingIndex(rows, tp, t);
    DescendingEnds(tp, i);
  }

  /** The reported lead does not depend on how the sort ordered types with
      equal means: any two rankings of the same rows agree on it. */
  lemma DeltaIndependentOfTieOrder(rows: seq<Post>, tp1: seq<TypeMean>, tp2: seq<TypeMean>)
    requires IsTypeRanking(rows, tp1) && IsTypeRanking(rows, tp2) && |tp1| > 0
    ensures |tp2| > 0
    ensures tp1[0].reactions == tp2[0].reactions
    ensures TypeDelta(tp1) == TypeDelta(tp2)
  {
    RankingEnds(rows, tp2, tp1[0].statusType);
    RankingEnds(rows, tp1, tp2[0].statusType);
    RankingEnds(rows, tp2, tp1[|tp1| - 1].statusType);
    RankingEnds(rows, tp1, tp2[|tp2| - 1].statusType);
  }

  // ------------------------------------------------------ rule 2: peak hours

  /** How many of the busiest hours rule 2 recommends. */
  const PeakHourCount: nat := 3

  function HourReactionsDesc(a: HourMean, b: HourMean): bool
  {
    a.reactions >= b.reactions
  }

  function HourAsc(a: Hour, b: Hour): bool
  {
    a <= b
  }

  /** `hp.sort_values("num_reactions", ascending=False).head(3)`. */
  function BusiestHours(hp: seq<HourMean>): seq<HourMean>
  {
    var ranked := SortBy(hp, HourReactionsDesc);
    SortByLength(hp, HourReactionsDesc);
    ranked[..Min(PeakHourCount, |ranked|)]
  }

  function HourColumn(hp: seq<HourMean>): seq<Hour>
  {
    seq(|hp|, i requires 0 <= i < |hp| => hp[i].hour)
  }

  /** `sorted(best_hours)`. */
  function PeakHourList(hp: seq<HourMean>): seq<Hour>
  {
    SortBy(HourColumn(BusiestHours(hp)), HourAsc)
  }

  lemma HourReactionsDescIsPreorder()
    ensures TotalPreorder(HourReactionsDesc)
  {
  }

  /** The busiest entries are min(3, |hp|) entries of `hp`, and each has at
      least the mean reactions of every entry left out. */
  lemma BusiestHoursAreTop(hp: seq<HourMean>)
    ensures |BusiestHours(hp)| == Min(PeakHourCount, |hp|)
    ensures multiset(BusiestHours(hp)) <= multiset(hp)
    ensures forall x, y :: x in BusiestHours(hp) && y in multiset(hp) - multiset(BusiestHours(hp))
              ==> x.reactions >= y.reactions
  {
    var ranked := SortBy(hp, HourReactionsDesc);
    SortByLength(hp, HourReactionsDesc);
    var k := Min(PeakHourCount, |ranked|);
    assert BusiestHours(hp) == ranked[..k];
    PrefixRest(ranked, k);
    HourReactionsDescIsPreorder();
    SortBySorted(hp, HourReactionsDesc);
    SortedSplit(ranked, HourReactionsDesc, k);
    forall x, y | x in ranked[..k] && y in multiset(hp) - multiset(ranked[..k])
      ensures x.reactions >= y.reactions
    {
      assert y in ranked[k..];
      assert HourReactionsDesc(x, y);
    }
  }

  lemma HourAscIsPreorder()
    ensures TotalPreorder(HourAsc)
  {
  }

  /** The hours of a sub-multiset of `hp` are hours of `hp`. */
  lemma ColumnOfSubset(sub: seq<HourMean>, hp: seq<HourMean>)
    requires multiset(sub) <= multiset(hp)
    ensures forall h :: h in HourColumn(sub) ==> h in HourColumn(hp)
  {
    forall h | h in HourColumn(sub)
      ensures h in HourColumn(hp)
    {
      var i :| 0 <= i < |sub| && HourColumn(sub)[i] == h;
      assert sub[i] in multiset(hp);
      var j :| 0 <= j < |hp| && hp[j] == sub[i];
      assert HourColumn(hp)[j] == h;
    }
  }

  /** The recommended hours: as many as the busiest entries, in ascending
      order, exactly the hours of those entries, so hours of `hp`. */
  lemma PeakHoursAscending(hp: seq<HourMean>)
    ensures |PeakHourList(hp)| == Min(PeakHourCount, |hp|)
    ensures forall i, j :: 0 <= i < j < |PeakHourList(hp)| ==> PeakHourList(hp)[i] <= PeakHourList(hp)[j]
    ensures multiset(PeakHourList(hp)) == multiset(HourColumn(BusiestHours(hp)))
    ensures forall h :: h in PeakHourList(hp) ==> h in HourColumn(hp)
  {
    var busy := BusiestHours(hp);
    var col := HourColumn(busy);
    var peak := PeakHourList(hp);
    assert peak == SortBy(col, HourAsc);
    BusiestHoursAreTop(hp);
    SortByLength(col, HourAsc);
    HourAscIsPreorder();
    SortBySorted(col, HourAsc);
    assert forall i, j :: 0 <= i < j < |peak| ==> HourAsc(peak[i], peak[j]);
    SortByMembers(col, HourAsc);
    ColumnOfSubset(busy, hp);
  }

  // ---------------------------------------------------- rule 3: best cluster

  function ClusterReactions(rows: seq<Post>, l: nat): real
    requires l in Keys(rows, ClusterOf)
  {
    GroupMean(rows, ClusterOf, l, Reactions)
  }

  /** `idxmax` over a column of means: the position of the largest value,
      the first such position on ties. */
  function FirstMax(xs: seq<real>): (k: nat)
    requires |xs| > 0
    ensures k < |xs|
    ensures forall i :: 0 <= i < |xs| ==> xs[i] <= xs[k]
    ensures forall i :: 0 <= i < k ==> xs[i] < xs[k]
  {
    if |xs| == 1 then 0
    else
      var k := FirstMax(xs[1..]);
      if xs[0] >= xs[1..][k] then 0 else k + 1
  }

  /** `groupby("cluster_label")["num_reactions"].mean()`, in label order. */
  function ClusterMeans(rows: seq<Post>, ls: seq<nat>): (ms: seq<real>)
    requires forall i :: 0 <= i < |ls| ==> ls[i] in Keys(rows, ClusterOf)
    ensures |ms| == |ls|
    ensures forall i :: 0 <= i < |ls| ==> ms[i] == ClusterReactions(rows, ls[i])
  {
    seq(|ls|, i requires 0 <= i < |ls| => ClusterReactions(rows, ls[i]))
  }

  /** `df.groupby("cluster_label")["num_reactions"].mean().idxmax()`. */
  function BestCluster(rows: seq<Post>): nat
    requires |rows| > 0
  {
    var ls := ClusterLabels(rows);
    assert rows[0].cluster == Keys(rows, ClusterOf)[0];
    assert forall i :: 0 <= i < |ls| ==> ls[i] in ls;
    ls[FirstMax(ClusterMeans(rows, ls))]
  }

  /** The chosen cluster is observed, has the highest mean reactions, and is
      the smallest id among those that tie for it. */
  lemma BestClusterIsFirstMax(rows: seq<Post>, l: nat)
    requires |rows| > 0 && l in Keys(rows, ClusterOf)
    ensures BestCluster(rows) in Keys(rows, ClusterOf)
    ensures ClusterReactions(rows, l) < ClusterReactions(rows, BestCluster(rows))
            || (ClusterReactions(rows, l) == ClusterReactions(rows, BestCluster(rows)) && BestCluster(rows) <= l)
  {
    var ls := ClusterLabels(rows);
    assert forall i :: 0 <= i < |ls| ==> ls[i] in ls;
    var k := FirstMax(ClusterMeans(rows, ls));
    assert l in ls;
    var i :| 0 <= i < |ls| && ls[i] == l;
    assert ls[k] in ls;
    assert i < k || i == k || ls[k] < ls[i];
  }

  /** A cluster's mean reactions do not depend on `dist_centroid`. */
  lemma ClusterReactionsIgnoreDist(a: seq<Post>, b: seq<Post>, l: nat)
    requires SameButDist(a, b) && l in Keys(a, ClusterOf)
    ensures l in Keys(b, ClusterOf) && ClusterReactions(a, l) == ClusterReactions(b, l)
  {
    ClusterKeysIgnoreDist(a, b);
    SelectIgnoresDist(a, b, l);
    TotalIgnoresDist(Select(a, ClusterOf, l), Select(b, ClusterOf, l), Reactions);
  }

  /** The best cluster is the same before and after the distance column is
      attached. */
  lemma BestClusterIgnoresDist(a: seq<Post>, b: seq<Post>)
    requires SameButDist(a, b) && |a| > 0
    ensures |b| > 0 && BestCluster(a) == BestCluster(b)
  {
    ClusterKeysIgnoreDist(a, b);
    var ls := ClusterLabels(a);
    assert forall i :: 0 <= i < |ls| ==> ls[i] in ls;
    forall i | 0 <= i < |ls|
      ensures ClusterMeans(a, ls)[i] == ClusterMeans(b, ls)[i]
    {
      ClusterReactionsIgnoreDist(a, b, ls[i]);
    }
    assert ClusterMeans(a, ls) == ClusterMeans(b, ls);
  }

  // ---------------------------------------------------- rule 4: recycle ids

  /** How many exemplar ids rule 4 recommends. */
  const RecycleCount: nat := 3

  /** `[str(p["status_id"]) for p in top_posts[:3]]`. */
  function RecycleIds(top: seq<Exemplar>): (ids: seq<string>)
    ensures |ids| == Min(RecycleCount, |top|)
    ensures forall i :: 0 <= i < |ids| ==> ids[i] == top[i].statusId
  {
    var head := top[..Min(RecycleCount, |top|)];
    seq(|head|, i requires 0 <= i < |head| => head[i].statusId)
  }

  // ------------------------------------------------------------ build_recos

  /** The four rules in their fixed order, or the exception the first
      failing rule raises: `type_perf[0]` on an empty list (IndexError),
      `sort_values("num_reactions")` on the column-less frame read from an
      empty `hour_perf` (KeyError), `idxmax` over no clusters (ValueError). */
  function Recommendations(rows: seq<Post>, tp: seq<TypeMean>, hp: seq<HourMean>, top: seq<Exemplar>): (r: Result<seq<Reco>>)
    ensures r.Ok? <==> |tp| > 0 && |hp| > 0 && |rows| > 0
    ensures r.Err? ==> r.error == (if |tp| == 0 then IndexError else if |hp| == 0 then KeyError else ValueError)
  {
    if |tp| == 0 then Err(IndexError)
    else if |hp| == 0 then Err(KeyError)
    else if |rows| == 0 then Err(ValueError)
    else Ok([BestType(tp[0].statusType, TypeDelta(tp)), PeakHours(PeakHourList(hp)),
             TopCluster(BestCluster(rows)), Recycle(RecycleIds(top))])
  }

  /** Four recommendations, in the order type, hours, cluster, recycle, each
      carrying its rule's value. */
  lemma RecommendationsInOrder(rows: seq<Post>, tp: seq<TypeMean>, hp: seq<HourMean>, top: seq<Exemplar>)
    requires |tp| > 0 && |hp| > 0 && |rows| > 0
    ensures Recommendations(rows, tp, hp, top).Ok?
    ensures Recommendations(rows, tp, hp, top).value
            == [BestType(tp[0].statusType, TypeDelta(tp)), PeakHours(PeakHourList(hp)),
                TopCluster(BestCluster(rows)), Recycle(RecycleIds(top))]
    ensures var recos := Recommendations(rows, tp, hp, top).value;
            |recos| == 4 && recos[0].BestType? && recos[1].PeakHours? && recos[2].TopCluster? && recos[3].Recycle?
  {
    var a, b := BestType(tp[0].statusType, TypeDelta(tp)), PeakHours(PeakHourList(hp));
    var c, d := TopCluster(BestCluster(rows)), Recycle(RecycleIds(top));
    assert Recommendations(rows, tp, hp, top).value == [a, b, c, d];
  }

  lemma AppendFour<T>(a: T, b: T, c: T, d: T)
    ensures [] + [a] + [b] + [c] + [d] == [a, b, c, d]
  {
  }

  /** `build_recos(df, kpis, type_perf, hour_perf, top_posts)`: appends one
      recommendation per rule. It only reads `df` (no modifies clause);
      `kpis` is accepted and not used, as in the source. */
  method BuildRecos(df: Frame, kpis: Kpis, tp: seq<TypeMean>, hp: seq<HourMean>, top: seq<Exemplar>)
    returns (r: Result<seq<Reco>>)
    ensures r == Recommendations(df.rows, tp, hp, top)
  {
    var recos: seq<Reco> := [];

    if |tp| == 0 {
      return Err(IndexError);
    }
    var first := BestType(tp[0].statusType, TypeDelta(tp));
    recos := recos + [first];

    if |hp| == 0 {
      return Err(KeyError);
    }
    var second := PeakHours(PeakHourList(hp));
    recos := recos + [second];

    if |df.rows| == 0 {
      return Err(ValueError);
    }
    var third := TopCluster(BestCluster(df.rows));
    recos := recos + [third];

    var fourth := Recycle(RecycleIds(top));
    recos := recos + [fourth];
    AppendFour(first, second, third, fourth);
    return Ok(recos);
  }

  /** `build_recos` only reads the cluster and reaction columns of `df`, so
      it gives the same result on a frame with or without `dist_centroid`. */
  lemma RecommendationsIgnoreDistances(rows: seq<Post>, dists: seq<seq<real>>,
                                       tp: seq<TypeMean>, hp: seq<HourMean>, top: seq<Exemplar>)
    requires DistancesFit(rows, dists)
    ensures Recommendations(WithDistances(rows, dists), tp, hp, top) == Recommendations(rows, tp, hp, top)
  {
    var df := WithDistances(rows, dists);
    assert SameButDist(df, rows);
    if |rows| > 0 {
      BestClusterIgnoresDist(df, rows);
    }
  }
}
