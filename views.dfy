/** The two views that run the analytics: `dashboard`, which computes every
    aggregate from the uploaded rows and caches part of it in the session,
    and `generate_pdf`, which rebuilds the report from the session. */
module Views {
  import opened Rows
  import opened Grouping
  import opened Sorting
  import opened Kpis
  import opened Exemplars
  import opened Recos

  /** What `dashboard` stores for the PDF report: `kpis`, `cluster_kpis` and
      `top_posts_cache`, always written together. */
  datatype Cache = Cache(kpis: Kpis, clusterKpis: seq<ClusterKpi>, topPosts: seq<Exemplar>)

  /** The values `dashboard` hands to its template (the scatter data and the
      preview rows are not modelled). */
  datatype Report = Report(
    kpis: Kpis,
    clusterKpis: seq<ClusterKpi>,
    typePerf: seq<TypeMean>,
    hourPerf: seq<HourMean>,
    topPosts: seq<Exemplar>,
    recos: seq<Reco>,
    clusters: seq<nat>)

  /** The values `generate_pdf` hands to its template. */
  datatype PdfReport = PdfReport(
    kpis: Kpis,
    clusterKpis: seq<ClusterKpi>,
    typePerf: seq<TypeMean>,
    topPosts: seq<Exemplar>,
    recos: seq<Reco>)

  /** The user's session: the labelled CSV once uploaded, and the cache the
      dashboard leaves for the PDF report. */
  class Session {
    var csv: Option<seq<Post>>
    var cache: Option<Cache>

    constructor ()
      ensures csv == None && cache == None
    {
      csv := None;
      cache := None;
    }

    /** `upload_csv` on a valid form: stores the labelled rows. An earlier
        cache is left in place. */
    method Upload(rows: seq<Post>)
      modifies this
      ensures csv == Some(rows) && cache == old(cache)
    {
      csv := Some(rows);
    }
  }

  /** What `dashboard` computes from the stored rows and the matrix of
      distances to every centroid, or the exception it raises. */
  function DashboardReport(rows: seq<Post>, dists: seq<seq<real>>): Result<Report>
  {
    match GlobalKpis(rows)
    case Err(e) => Err(e)
    case Ok(kpis) =>
      if !DistancesFit(rows, dists) then Err(IndexError)
      else
        var df := WithDistances(rows, dists);
        var tp, hp, top := TypePerf(rows), HourPerf(rows), TopPosts(df);
        match Recommendations(df, tp, hp, top)
        case Err(e) => Err(e)
        case Ok(recos) => Ok(Report(kpis, ClusterKpis(rows), tp, hp, top, recos, ClusterLabels(df)))
  }

  lemma TypePerfNonEmpty(rows: seq<Post>)
    requires |rows| > 0
    ensures |TypePerf(rows)| > 0
  {
    TypePerfIsRanking(rows);
    assert Keys(rows, TypeOf)[0] in Keys(rows, TypeOf);
  }

  lemma HourPerfNonEmpty(rows: seq<Post>)
    requires |rows| > 0
    ensures |HourPerf(rows)| > 0
  {
    assert Keys(rows, HourOf)[0] in Keys(rows, HourOf);
  }

  /** The dashboard fails exactly on an empty upload (ValueError from the
      mean of an empty column) or on a distance matrix that does not fit the
      labels (IndexError); otherwise it shows four recommendations and a
      ranking of the post types. */
  lemma DashboardOutcome(rows: seq<Post>, dists: seq<seq<real>>)
    ensures DashboardReport(rows, dists).Ok? <==> |rows| > 0 && DistancesFit(rows, dists)
    ensures |rows| == 0 ==> DashboardReport(rows, dists) == Err(ValueError)
    ensures |rows| > 0 && !DistancesFit(rows, dists) ==> DashboardReport(rows, dists) == Err(IndexError)
    ensures DashboardReport(rows, dists).Ok? ==>
              |DashboardReport(rows, dists).value.recos| == 4
              && IsTypeRanking(rows, DashboardReport(rows, dists).value.typePerf)
  {
    if |rows| > 0 {
      TypePerfNonEmpty(rows);
      HourPerfNonEmpty(rows);
      TypePerfIsRanking(rows);
      if DistancesFit(rows, dists) {
        var df := WithDistances(rows, dists);
        RecommendationsInOrder(df, TypePerf(rows), HourPerf(rows), TopPosts(df));
      }
    }
  }

  /** The body of `dashboard` once the rows are read from the session:
      the aggregates on a fresh frame, then `dist_centroid` attached in
      place before the exemplars are chosen, then the recommendations. */
  method DashboardOnRows(rows: seq<Post>, dists: seq<seq<real>>) returns (r: Result<Report>)
    ensures r == DashboardReport(rows, dists)
  {
    var df := new Frame(rows);
    var kpis := GlobalKpis(df.rows);
    if kpis.Err? {
      return Err(kpis.error);
    }
    var clusterKpis := ClusterKpis(df.rows);
    var typePerf := TypePerf(df.rows);
    var hourPerf := HourPerf(df.rows);
    if !DistancesFit(df.rows, dists) {
      return Err(IndexError);
    }
    df.AttachDistances(dists);
    var topPosts := TopPosts(df.rows);
    var recos := BuildRecos(df, kpis.value, typePerf, hourPerf, topPosts);
    TypePerfNonEmpty(rows);
    HourPerfNonEmpty(rows);
    assert recos.Ok?;  // the rows are not empty, so no rule fails
    return Ok(Report(kpis.value, clusterKpis, typePerf, hourPerf, topPosts, recos.value, ClusterLabels(df.rows)));
  }

  /** `dashboard`: redirects to the upload page without a CSV; otherwise
      computes the report from the stored rows and, on success only,
      caches the KPIs, the cluster KPIs and the exemplars for the PDF. */
  method Dashboard(s: Session, dists: seq<seq<real>>) returns (r: Result<Report>)
    modifies s
    ensures s.csv == old(s.csv)
    ensures s.csv.None? ==> r == Err(NoUpload)
    ensures s.csv.Some? ==> r == DashboardReport(s.csv.value, dists)
    ensures r.Ok? ==> s.cache == Some(Cache(r.value.kpis, r.value.clusterKpis, r.value.topPosts))
    ensures r.Err? ==> s.cache == old(s.cache)
  {
    if s.csv.None? {
      return Err(NoUpload);
    }
    r := DashboardOnRows(s.csv.value, dists);
    if r.Ok? {
      s.cache := Some(Cache(r.value.kpis, r.value.clusterKpis, r.value.topPosts));
    }
  }

  /** What `generate_pdf` produces from the session, or the exception it
      raises: a missing cache is a KeyError on the session lookup. */
  function PdfOutcome(csv: Option<seq<Post>>, cache: Option<Cache>): Result<PdfReport>
  {
    if csv.None? then Err(NoUpload)
    else if cache.None? then Err(KeyError)
    else
      var rows, c := csv.value, cache.value;
      var tp := TypePerf(rows);
      match Recommendations(rows, tp, HourPerf(rows), c.topPosts)
      case Err(e) => Err(e)
      case Ok(recos) => Ok(PdfReport(c.kpis, c.clusterKpis, tp, c.topPosts, recos))
  }

  /** `generate_pdf`: reads the session only. */
  method GeneratePdf(s: Session) returns (r: Result<PdfReport>)
    ensures r == PdfOutcome(s.csv, s.cache)
  {
    if s.csv.None? {
      return Err(NoUpload);
    }
    if s.cache.None? {
      return Err(KeyError);
    }
    var df := new Frame(s.csv.value);
    var cache := s.cache.value;
    var typePerf := TypePerf(df.rows);
    var hourPerf := HourPerf(df.rows);
    var recos := BuildRecos(df, cache.kpis, typePerf, hourPerf, cache.topPosts);
    if recos.Err? {
      return Err(recos.error);
    }
    return Ok(PdfReport(cache.kpis, cache.clusterKpis, typePerf, cache.topPosts, recos.value));
  }

  /** With rows and a fitting distance matrix the dashboard succeeds. */
  lemma DashboardSucceeds(rows: seq<Post>, dists: seq<seq<real>>)
    requires |rows| > 0 && DistancesFit(rows, dists)
    ensures DashboardReport(rows, dists).Ok?
  {
    TypePerfNonEmpty(rows);
    HourPerfNonEmpty(rows);
  }

  /** What a successful dashboard caches is enough for the PDF to repeat it. */
  lemma PdfFromCache(rows: seq<Post>, dists: seq<seq<real>>)
    requires DashboardReport(rows, dists).Ok?
    ensures var d := DashboardReport(rows, dists).value;
            var p := PdfOutcome(Some(rows), Some(Cache(d.kpis, d.clusterKpis, d.topPosts)));
            p.Ok? && p.value.kpis == d.kpis && p.value.clusterKpis == d.clusterKpis
            && p.value.typePerf == d.typePerf && p.value.topPosts == d.topPosts
            && p.value.recos == d.recos
  {
    var d := DashboardReport(rows, dists).value;
    RecommendationsIgnoreDistances(rows, dists, TypePerf(rows), HourPerf(rows), d.topPosts);
  }

  /** The PDF built from what a successful dashboard cached repeats the
      dashboard: same KPIs, same type ranking, same exemplars and the same
      four recommendations, although it recomputes them on the rows without
      `dist_centroid`. */
  lemma PdfRepeatsDashboard(rows: seq<Post>, dists: seq<seq<real>>)
    requires |rows| > 0 && DistancesFit(rows, dists)
    ensures DashboardReport(rows, dists).Ok?
    ensures var d := DashboardReport(rows, dists).value;
            var p := PdfOutcome(Some(rows), Some(Cache(d.kpis, d.clusterKpis, d.topPosts)));
            p.Ok? && p.value.kpis == d.kpis && p.value.clusterKpis == d.clusterKpis
            && p.value.typePerf == d.typePerf && p.value.topPosts == d.topPosts
            && p.value.recos == d.recos
  {
    DashboardSucceeds(rows, dists);
    PdfFromCache(rows, dists);
  }
}
