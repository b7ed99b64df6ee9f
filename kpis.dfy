/** The aggregates of the dashboard view: global KPIs, per-cluster KPIs,
    reactions per post type (`type_perf`) and per hour (`hour_perf`). */
module Kpis {
  import opened Rows
  import opened Grouping
  import opened Rounding
  import opened Sorting

  datatype Kpis = Kpis(meanLikes: int, meanComments: int, meanShares: int)

  /** `int(df[col].mean())` on a non-empty column: the integer part of the
      mean, so the column total lies between k and k + 1 times the row count
      (mirrored for a negative total). */
  function TruncatedMean(rows: seq<Post>, m: Metric): (k: int)
    requires |rows| > 0
    ensures Total(rows, m) >= 0 ==> k * |rows| <= Total(rows, m) < (k + 1) * |rows|
    ensures Total(rows, m) < 0 ==> (k - 1) * |rows| < Total(rows, m) <= k * |rows|
  {
    TruncationBounds(Total(rows, m), |rows|);
    TruncateTowardZero(Mean(rows, m))
  }

  /** `int(t / n)` pins `t` between consecutive multiples of `n`. */
  lemma TruncationBounds(t: int, n: int)
    requires n > 0
    ensures var k := TruncateTowardZero(t as real / n as real);
            (t >= 0 ==> k * n <= t < (k + 1) * n) && (t < 0 ==> (k - 1) * n < t <= k * n)
  {
    var x := t as real / n as real;
    assert x * n as real == t as real;
    if t >= 0 {
      NonNegativeTruncation(t, n, x);
    } else {
      NegativeTruncation(t, n, x);
    }
  }

  lemma NonNegativeTruncation(t: int, n: int, x: real)
    requires n > 0 && t >= 0 && x * n as real == t as real
    ensures var k := TruncateTowardZero(x); k * n <= t < (k + 1) * n
  {
    ScaleBounds(x, 0.0, n as real);
    BetweenMultiples(t, n, TruncateTowardZero(x), x);
  }

  lemma NegativeTruncation(t: int, n: int, x: real)
    requires n > 0 && t < 0 && x * n as real == t as real
    ensures var k := TruncateTowardZero(x); (k - 1) * n < t <= k * n
  {
    var k := TruncateTowardZero(x);
    ScaleBounds(0.0, x, n as real);
    assert (-x) * n as real == (-t) as real;
    BetweenMultiples(-t, n, -k, -x);
    NegateProducts(k, n);
  }

  lemma NegateProducts(k: int, n: int)
    ensures (-k) * n == -(k * n) && (-k + 1) * n == -((k - 1) * n)
  {
  }

  lemma BetweenMultiples(t: int, n: int, k: int, x: real)
    requires n > 0 && x * n as real == t as real
    requires k as real <= x < k as real + 1.0
    ensures k * n <= t < (k + 1) * n
  {
    ScaleBounds(k as real, x, n as real);
    ScaleBounds(x, k as real + 1.0, n as real);
    CastProduct(k, n);
    CastProduct(k + 1, n);
  }

  lemma CastProduct(a: int, b: int)
    ensures (a * b) as real == a as real * b as real
  {
  }

  lemma ScaleBounds(x: real, y: real, n: real)
    requires n > 0.0
    ensures x <= y ==> x * n <= y * n
    ensures x < y ==> x * n < y * n
  {
  }

  /** Global KPIs. With no rows the mean is NaN and `int()` raises. */
  function GlobalKpis(rows: seq<Post>): (r: Result<Kpis>)
    ensures r.Err? <==> |rows| == 0
    ensures r.Err? ==> r.error == ValueError
  {
    if |rows| == 0 then Err(ValueError)
    else Ok(Kpis(TruncatedMean(rows, Likes), TruncatedMean(rows, Comments), TruncatedMean(rows, Shares)))
  }

  /** likes = [10, 11, 12] gives mean_likes == 11. */
  lemma GlobalKpisExample()
    ensures var p := Post("", "", 0, 0, 0, 0, 0, 0, 0.0);
            GlobalKpis([p.(likes := 10), p.(likes := 11), p.(likes := 12)]).value.meanLikes == 11
  {
    var p := Post("", "", 0, 0, 0, 0, 0, 0, 0.0);
    var rows := [p.(likes := 10), p.(likes := 11), p.(likes := 12)];
    assert rows[..2][..1] == rows[..1] && rows[..1][..0] == [];
    assert Total(rows[..1], Likes) == 10;
    assert Total(rows[..2], Likes) == 21;
    assert Total(rows, Likes) == 33;
  }

  // ---------------------------------------------------------------- clusters

  datatype ClusterKpi = ClusterKpi(cluster: nat, likes: real, comments: real, shares: real)

  /** The observed cluster ids in ascending order. */
  function ClusterLabels(rows: seq<Post>): seq<nat>
  {
    SortedKeys(Keys(rows, ClusterOf))
  }

  function ClusterRecord(rows: seq<Post>, l: nat): ClusterKpi
    requires l in Keys(rows, ClusterOf)
  {
    ClusterKpi(l,
      Round1(GroupMean(rows, ClusterOf, l, Likes)),
      Round1(GroupMean(rows, ClusterOf, l, Comments)),
      Round1(GroupMean(rows, ClusterOf, l, Shares)))
  }

  function LabelsOf(ck: seq<ClusterKpi>): seq<nat>
  {
    seq(|ck|, i requires 0 <= i < |ck| => ck[i].cluster)
  }

  /** `groupby("cluster_label")[[likes, comments, shares]].mean().round(1)`:
      one record per observed cluster id, in ascending id order, carrying the
      rounded means of that cluster's rows. */
  function ClusterKpis(rows: seq<Post>): (r: seq<ClusterKpi>)
    ensures LabelsOf(r) == ClusterLabels(rows)
    ensures forall i, j :: 0 <= i < j < |r| ==> r[i].cluster < r[j].cluster
    ensures forall l :: l in LabelsOf(r) <==> l in Keys(rows, ClusterOf)
    ensures forall i :: 0 <= i < |r| ==>
              r[i].cluster in Keys(rows, ClusterOf) && r[i] == ClusterRecord(rows, r[i].cluster)
  {
    var ls := ClusterLabels(rows);
    assert forall i :: 0 <= i < |ls| ==> ls[i] in ls;
    seq(|ls|, i requires 0 <= i < |ls| && ls[i] in Keys(rows, ClusterOf) => ClusterRecord(rows, ls[i]))
  }

  /** The clusters of `cluster_kpis` partition the rows: their sizes add up
      to the row count. */
  lemma ClusterSizesSumToRowCount(rows: seq<Post>)
    ensures GroupSizes(rows, ClusterOf, LabelsOf(ClusterKpis(rows))) == |rows|
  {
    var ls := ClusterLabels(rows);
    forall p | p in rows
      ensures ClusterOf(p) in ls
    {
      var i :| 0 <= i < |rows| && rows[i] == p;
      assert Keys(rows, ClusterOf)[i] == ClusterOf(p);
    }
    GroupSizesPartition(rows, ClusterOf, ls);
  }

  // ------------------------------------------------------------ status types

  datatype TypeMean = TypeMean(statusType: string, reactions: real)

  function ReactionsDesc(a: TypeMean, b: TypeMean): bool
  {
    a.reactions >= b.reactions
  }

  function TypeRecord(rows: seq<Post>, t: string): TypeMean
    requires t in Keys(rows, TypeOf)
  {
    TypeMean(t, Round1(GroupMean(rows, TypeOf, t, Reactions)))
  }

  function TypesOf(tp: seq<TypeMean>): seq<string>
  {
    seq(|tp|, i requires 0 <= i < |tp| => tp[i].statusType)
  }

  /** The groups of `groupby("status_type")`, before sorting. */
  function TypeGroups(rows: seq<Post>): seq<TypeMean>
  {
    var ts := Dedup(Keys(rows, TypeOf));
    assert forall i :: 0 <= i < |ts| ==> ts[i] in ts;
    seq(|ts|, i requires 0 <= i < |ts| && ts[i] in Keys(rows, TypeOf) => TypeRecord(rows, ts[i]))
  }

  /** `groupby("status_type")["num_reactions"].mean().round(1)
      .sort_values(ascending=False)`. */
  function TypePerf(rows: seq<Post>): seq<TypeMean>
  {
    SortBy(TypeGroups(rows), ReactionsDesc)
  }

  /** What `type_perf` is, whatever order the sort leaves equal means in:
      each observed type exactly once, with its rounded mean reactions, in
      non-increasing order of that mean. */
  ghost predicate IsTypeRanking(rows: seq<Post>, tp: seq<TypeMean>)
  {
    && (forall i :: 0 <= i < |tp| ==>
          tp[i].statusType in Keys(rows, TypeOf) && tp[i] == TypeRecord(rows, tp[i].statusType))
    && (forall t :: t in Keys(rows, TypeOf) ==> t in TypesOf(tp))
    && (forall i, j :: 0 <= i < j < |tp| ==> tp[i].statusType != tp[j].statusType)
    && SortedBy(tp, ReactionsDesc)
  }

  /** Before sorting: one record per observed type, no type twice. */
  lemma TypeGroupsWellFormed(rows: seq<Post>)
    ensures NoDup(TypeGroups(rows))
    ensures forall g :: g in TypeGroups(rows) ==>
              g.statusType in Keys(rows, TypeOf) && g == TypeRecord(rows, g.statusType)
    ensures forall t :: t in Keys(rows, TypeOf) ==> exists g :: g in TypeGroups(rows) && g.statusType == t
  {
    var groups, ts := TypeGroups(rows), Dedup(Keys(rows, TypeOf));
    forall i, j | 0 <= i < j < |groups|
      ensures groups[i] != groups[j]
    {
      assert groups[i].statusType == ts[i] && groups[j].statusType == ts[j];
    }
    forall t | t in Keys(rows, TypeOf)
      ensures exists g :: g in groups && g.statusType == t
    {
      var j :| 0 <= j < |ts| && ts[j] == t;
      assert groups[j] in groups;
    }
  }

  lemma TypePerfRecords(rows: seq<Post>)
    ensures forall g :: g in TypePerf(rows) ==>
              g.statusType in Keys(rows, TypeOf) && g == TypeRecord(rows, g.statusType)
  {
    TypeGroupsWellFormed(rows);
    SortByMembers(TypeGroups(rows), ReactionsDesc);
  }

  lemma TypePerfCovers(rows: seq<Post>)
    ensures forall t :: t in Keys(rows, TypeOf) ==> t in TypesOf(TypePerf(rows))
  {
    var tp := TypePerf(rows);
    TypeGroupsWellFormed(rows);
    SortByMembers(TypeGroups(rows), ReactionsDesc);
    forall t | t in Keys(rows, TypeOf)
      ensures t in TypesOf(tp)
    {
      var g :| g in TypeGroups(rows) && g.statusType == t;
      var i :| 0 <= i < |tp| && tp[i] == g;
      assert TypesOf(tp)[i] == t;
    }
  }

  lemma TypePerfDistinct(rows: seq<Post>)
    ensures forall i, j :: 0 <= i < j < |TypePerf(rows)| ==>
              TypePerf(rows)[i].statusType != TypePerf(rows)[j].statusType
  {
    var tp := TypePerf(rows);
    TypeGroupsWellFormed(rows);
    NoDupPermutation(TypeGroups(rows), tp);
    TypePerfRecords(rows);
    forall i, j | 0 <= i < j < |tp|
      ensures tp[i].statusType != tp[j].statusType
    {
      assert tp[i] in tp && tp[j] in tp;
    }
  }

  lemma TypePerfIsRanking(rows: seq<Post>)
    ensures IsTypeRanking(rows, TypePerf(rows))
  {
    var tp := TypePerf(rows);
    TypePerfRecords(rows);
    assert forall i :: 0 <= i < |tp| ==> tp[i] in tp;
    TypePerfCovers(rows);
    TypePerfDistinct(rows);
    SortBySorted(TypeGroups(rows), ReactionsDesc);
  }

  // ------------------------------------------------------------------ hours

  datatype HourMean = HourMean(hour: Hour, reactions: real)

  function HourRecord(rows: seq<Post>, h: Hour): HourMean
    requires h in Keys(rows, HourOf)
  {
    HourMean(h, Round1(GroupMean(rows, HourOf, h, Reactions)))
  }

  function HoursOf(hp: seq<HourMean>): seq<nat>
  {
    seq(|hp|, i requires 0 <= i < |hp| => hp[i].hour)
  }

  /** What `hour_perf` is: one entry per hour present in the rows, in
      strictly ascending hour order, each carrying the rounded mean reactions
      of that hour's rows. */
  ghost predicate IsHourTable(rows: seq<Post>, hp: seq<HourMean>)
  {
    && (forall i, j :: 0 <= i < j < |hp| ==> hp[i].hour < hp[j].hour)
    && (forall h :: h in HoursOf(hp) <==> h in Keys(rows, HourOf))
    && (forall i :: 0 <= i < |hp| ==>
          hp[i].hour in Keys(rows, HourOf) && hp[i] == HourRecord(rows, hp[i].hour))
  }

  /** The observed hours, ascending; every one is an hour of the day. */
  lemma ObservedHours(rows: seq<Post>)
    ensures var hs := SortedKeys(Keys(rows, HourOf));
            forall i :: 0 <= i < |hs| ==> hs[i] in Keys(rows, HourOf) && hs[i] < 24
  {
    var hs := SortedKeys(Keys(rows, HourOf));
    forall i | 0 <= i < |hs|
      ensures hs[i] in Keys(rows, HourOf) && hs[i] < 24
    {
      assert hs[i] in hs;
      var j :| 0 <= j < |rows| && Keys(rows, HourOf)[j] == hs[i];
      assert Keys(rows, HourOf)[j] == HourOf(rows[j]) == rows[j].hour;
    }
  }

  /** One record per hour of `hs`, in the same order. */
  function HourRecords(rows: seq<Post>, hs: seq<nat>): (r: seq<HourMean>)
    requires forall i :: 0 <= i < |hs| ==> hs[i] in Keys(rows, HourOf) && hs[i] < 24
    ensures |r| == |hs|
    ensures forall i :: 0 <= i < |r| ==> r[i].hour == hs[i] && r[i] == HourRecord(rows, hs[i])
  {
    seq(|hs|, i requires 0 <= i < |hs| => HourRecord(rows, hs[i] as Hour))
  }

  lemma HourRecordsTable(rows: seq<Post>, hs: seq<nat>, r: seq<HourMean>)
    requires Increasing(hs) && forall h :: h in hs <==> h in Keys(rows, HourOf)
    requires forall i :: 0 <= i < |hs| ==> hs[i] in Keys(rows, HourOf) && hs[i] < 24
    requires r == HourRecords(rows, hs)
    ensures IsHourTable(rows, r)
  {
    assert forall i :: 0 <= i < |hs| ==> HoursOf(r)[i] == hs[i];
    assert HoursOf(r) == hs;
  }

  /** `groupby("hour")["num_reactions"].mean().round(1)`. */
  function HourPerf(rows: seq<Post>): (r: seq<HourMean>)
    ensures IsHourTable(rows, r)
  {
    var hs := SortedKeys(Keys(rows, HourOf));
    ObservedHours(rows);
    var r := HourRecords(rows, hs);
    HourRecordsTable(rows, hs, r);
    r
  }
}
