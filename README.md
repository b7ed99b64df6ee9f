# Post-clustering analytics, modelled in Dafny

This project models the analytics core of a small Django app. The app
takes a CSV of social-media posts, labels each post with a behavioural
cluster, and builds a dashboard and a PDF report from the labelled rows.
The model covers what those two views compute:

- the global KPIs: mean likes, comments and shares, truncated by `int()`;
- the per-cluster KPIs, rounded to one decimal, in ascending label order;
- `type_perf`: mean reactions per post type, rounded, ranked in descending order;
- `hour_perf`: mean reactions per hour of the day, in ascending hour order;
- the `dist_centroid` column: each row's distance to the centroid of its own cluster, looked up in a distance matrix;
- `top_posts`: rows sorted by (cluster, distance), the first three of each cluster, projected on the shown columns;
- `build_recos`: the four recommendations, in a fixed order:
  - the best post type and its lead over the worst;
  - the three busiest hours, in ascending order;
  - the cluster with the highest mean reactions;
  - the first three exemplar ids;
- the session: the uploaded rows, and the KPIs and exemplars the dashboard caches for the PDF report.

Modules:

- `rows.dfy` (`Rows`): the post record and the error kinds. It also holds
  the distance lookup and `Frame`, the request's data frame. `Frame` is a
  class whose `dist_centroid` column is attached in place.
- `sorting.dfy` (`Sorting`): a sort parameterised by its order. It is
  proved to return a sorted permutation of its input.
- `grouping.dfy` (`Grouping`): group selection, key lists, column totals
  and exact means, which together make up a pandas `groupby(...).mean()`.
- `rounding.dfy` (`Rounding`): `int()` and numpy's half-to-even `.round(1)`.
- `kpis.dfy` (`Kpis`): global KPIs, cluster KPIs, `type_perf` and `hour_perf`.
- `exemplars.dfy` (`Exemplars`): `top_posts`.
- `recos.dfy` (`Recos`): `build_recos`. The method appends to its list
  step by step and is proved equal to a specification function.
- `views.dfy` (`Views`): the session class, `dashboard` and `generate_pdf`.

Means are exact rationals; float64 is not modelled. The source sorts
with pandas' default sort, which is not stable, so the order of equal
keys is not fixed. The model sorts with an insertion sort, but every
contract about a sorted result holds for any order of ties: a ranking
predicate for `type_perf`, a split property for the busiest hours, and
"kept ≤ dropped" for the exemplars.

Behaviour of the code worth knowing when reading the contracts:

- With a single post type, `build_recos` gives a delta of 0 and raises
  nothing; an empty `type_perf` makes `type_perf[0]` raise `IndexError`
  (liveproject/analytics/utils.py:10-11), which aborts the whole view.
- The order of equal keys in the sorts of `type_perf`
  (liveproject/analytics/views.py:52) and of the busiest hours
  (liveproject/analytics/utils.py:19) is left open.
- The delta is the exact difference of the two rounded means;
  `{delta:+.0f}` only formats it for the sentence
  (liveproject/analytics/utils.py:14).

## Model

| member | source | states |
|---|---|---|
| Rows.WithDistances | liveproject/analytics/views.py:69 | row i gets entry [i][label_i] of the distance matrix; every other column is unchanged |
| Rows.OwnDistanceBounds | liveproject/analytics/views.py:68-69 | the looked-up distance is at least the distance to the nearest centroid, and non-negative when the matrix is |
| Rows.OwnDistanceIsNotNearest | liveproject/analytics/views.py:69 | a row labelled 1 that lies nearer centroid 0 keeps the larger distance to its own centroid |
| Rows.Frame.AttachDistances | liveproject/analytics/views.py:69 | the in-place column add leaves the frame equal to the rows with their own-centroid distances |
| Rounding.TruncateTowardZero | liveproject/analytics/views.py:38-40 | `int()` rounds toward zero: floor bounds for a non-negative value, ceiling bounds for a negative one |
| Rounding.RoundHalfEven | liveproject/analytics/views.py:46 | the result is within one half of the input, and an exact half goes to the even integer |
| Rounding.Round1 | liveproject/analytics/views.py:46 | `.round(1)` gives a multiple of one tenth: ten times the result is the half-to-even rounding of ten times the input, so it moves a mean by at most 0.05 |
| Rounding.Round1Monotone | liveproject/analytics/views.py:52 | rounding never swaps the order of two means |
| Rounding.Round1Idempotent | liveproject/analytics/views.py:46 | rounding a rounded value changes nothing |
| Kpis.TruncatedMean | liveproject/analytics/views.py:38-40 | for k = `int(mean)`: k·n ≤ total < (k+1)·n for a non-negative total, and the mirrored bounds for a negative one |
| Kpis.GlobalKpis | liveproject/analytics/views.py:37-41 | fails, with ValueError, exactly when there are no rows |
| Kpis.GlobalKpisExample | liveproject/analytics/views.py:38 | likes 10, 11, 12 give `mean_likes` 11 |
| Kpis.ClusterKpis | liveproject/analytics/views.py:44-47 | one record per observed cluster, strictly ascending by label, each holding that cluster's rounded means |
| Kpis.ClusterSizesSumToRowCount | liveproject/analytics/views.py:44-47 | the clusters of `cluster_kpis` partition the rows: their sizes add up to the row count |
| Kpis.TypeGroupsWellFormed | liveproject/analytics/views.py:50-52 | before sorting: one record per observed type, no type twice, each with its rounded mean |
| Kpis.TypePerfRecords | liveproject/analytics/views.py:50-54 | every entry of `type_perf` is an observed type with its rounded mean |
| Kpis.TypePerfCovers | liveproject/analytics/views.py:50-54 | every observed type appears in `type_perf` |
| Kpis.TypePerfDistinct | liveproject/analytics/views.py:50-54 | no type appears twice in `type_perf` |
| Kpis.TypePerf | liveproject/analytics/views.py:50-54 | the type means sorted in descending order; `Kpis.TypePerfIsRanking` proves it is a ranking of every observed type |
| Kpis.TypePerfIsRanking | liveproject/analytics/views.py:50-54 | `type_perf` lists every observed type exactly once with its rounded mean, in non-increasing order of that mean |
| Kpis.HourPerf | liveproject/analytics/views.py:57-61 | one entry per observed hour, hours strictly ascending, each with its rounded mean reactions (the records are built by the helper `Kpis.HourRecords`) |
| Exemplars.HeadPerCluster | liveproject/analytics/views.py:73 | `head(n)` per cluster; `Exemplars.HeadCount` proves each cluster keeps min(n, size) rows, `Exemplars.HeadDroppedSplit` that kept and dropped rows split the input |
| Exemplars.TopPosts | liveproject/analytics/views.py:71-77 | the exemplars projected on the shown columns; `Exemplars.ExemplarsOrdered`, `ExemplarCount`, `ExemplarsClosest` and `FirstExemplarFromLowestCluster` state what they are |
| Exemplars.ExemplarsOrdered | liveproject/analytics/views.py:71-73 | `top_posts` is ordered by (cluster, distance) |
| Exemplars.ExemplarsFromRows | liveproject/analytics/views.py:71-77 | the exemplars are input rows, and the rows left over are exactly those `head(3)` dropped |
| Exemplars.ExemplarCount | liveproject/analytics/views.py:72-73 | each cluster keeps min(3, size) rows: never more than 3, a cluster of at most 3 rows in full |
| Exemplars.ExemplarsClosest | liveproject/analytics/views.py:72-73 | within a cluster, every kept row is at most as far from the centroid as every dropped row |
| Exemplars.FirstExemplarFromLowestCluster | liveproject/analytics/views.py:71-73 | with at least one row, `top_posts` is non-empty and starts with the smallest cluster label present |
| Recos.TypeDelta | liveproject/analytics/utils.py:11 | the delta is never negative on a descending ranking, and is 0 with a single type |
| Recos.RankingEnds | liveproject/analytics/utils.py:10-11 | the first and last entries of a ranking bound every observed type's mean |
| Recos.DeltaIndependentOfTieOrder | liveproject/analytics/utils.py:10-11 | any two rankings of the same rows give the same top mean and the same delta |
| Recos.BusiestHours | liveproject/analytics/utils.py:19-20 | the first min(3, \|hour_perf\|) entries by descending mean reactions; `Recos.BusiestHoursAreTop` proves they are the top entries |
| Recos.BusiestHoursAreTop | liveproject/analytics/utils.py:19-20 | min(3, \|hour_perf\|) entries of `hour_perf` are chosen, each with mean reactions ≥ every entry left out |
| Recos.PeakHourList | liveproject/analytics/utils.py:21 | the busiest hours re-sorted ascending; `Recos.PeakHoursAscending` proves it |
| Recos.PeakHoursAscending | liveproject/analytics/utils.py:19-21 | the recommended hours are the chosen entries' hours, in ascending order, all hours of `hour_perf` |
| Recos.FirstMax | liveproject/analytics/utils.py:25-26 | `idxmax`: the position of the largest mean, with every earlier position strictly smaller |
| Recos.BestCluster | liveproject/analytics/utils.py:25-26 | `idxmax` over the cluster means; `Recos.BestClusterIsFirstMax` proves it is the first cluster with the highest mean |
| Recos.BestClusterIsFirstMax | liveproject/analytics/utils.py:25-26 | the chosen cluster is observed and has the highest mean reactions; among ties it has the smallest label (the means are listed by the helper `Recos.ClusterMeans`, the position found by `Recos.FirstMax`) |
| Recos.BestClusterIgnoresDist | liveproject/analytics/utils.py:25-26 | the best cluster is the same with and without the distance column |
| Recos.RecycleIds | liveproject/analytics/utils.py:31 | the ids are the `status_id`s of the first min(3, \|top_posts\|) exemplars, in order |
| Recos.Recommendations | liveproject/analytics/utils.py:3-34 | succeeds exactly when there is a type, an hour and a row; otherwise IndexError (no types), KeyError (no hours) or ValueError (no rows), in that priority |
| Recos.RecommendationsInOrder | liveproject/analytics/utils.py:7-34 | with a type, an hour and a row there are exactly four recommendations, in the order type, hours, cluster, recycle, each carrying the value of its rule (`TypeDelta`, `PeakHourList`, `BestCluster`, `RecycleIds`), so the rule lemmas apply to the output |
| Recos.RecommendationsIgnoreDistances | liveproject/analytics/utils.py:3-34 | `build_recos` gives the same result on the frame with or without `dist_centroid` |
| Recos.BuildRecos | liveproject/analytics/utils.py:3-34 | the list built by successive appends equals the four rules' values; the method has no modifies clause, so its inputs are left as they were |
| Views.Session.Upload | liveproject/analytics/views.py:16-23 | stores the labelled rows in the session and leaves an earlier cache in place |
| Views.DashboardReport | liveproject/analytics/views.py:36-80 | the report or exception of `dashboard`; `Views.DashboardOutcome` states when it fails and what it holds |
| Views.TypePerfNonEmpty | liveproject/analytics/views.py:50-54 | with at least one row `type_perf` is not empty |
| Views.HourPerfNonEmpty | liveproject/analytics/views.py:57-61 | with at least one row `hour_perf` is not empty |
| Views.DashboardOutcome | liveproject/analytics/views.py:36-80 | the dashboard fails exactly on an empty upload (ValueError) or a distance matrix that does not fit the labels (IndexError); otherwise it gives four recommendations and a type ranking |
| Views.DashboardOnRows | liveproject/analytics/views.py:36-80 | the steps on a fresh frame, with `dist_centroid` attached in place before the exemplars, give the dashboard's report or its exception |
| Views.Dashboard | liveproject/analytics/views.py:30-102 | redirects without an upload; otherwise returns the report computed from the stored rows; caches the KPIs, cluster KPIs and exemplars only on success |
| Views.PdfOutcome | liveproject/analytics/views.py:121-137 | the PDF report or exception of `generate_pdf`; `Views.PdfRepeatsDashboard` proves it repeats a successful dashboard |
| Views.GeneratePdf | liveproject/analytics/views.py:117-137 | redirects without an upload; fails with KeyError without a cache; otherwise recomputes `type_perf` and `hour_perf` and rebuilds the recommendations from the cached exemplars |
| Views.PdfRepeatsDashboard | liveproject/analytics/views.py:121-137 | with rows and a fitting distance matrix the dashboard succeeds, and the PDF built from its cache repeats its KPIs, type ranking, exemplars and recommendations |

## Left out

- `services.py` is not part of this model. It loads the model bundle once under a lock (file I/O and concurrency). It also predicts clusters through sklearn's scaler, PCA and k-means (foreign numerics). Cluster labels are inputs.
- The Euclidean distance matrix comes from sklearn, so it is an input. Only the lookup of each row's own-centroid distance is modelled.
- Parsing `status_published` into an hour is not modelled. Each row carries its hour, 0..23.
- JSON and session serialisation are assumed lossless. This covers `to_json`/`read_json` of the CSV, the `json.dumps` cache, and the `hour_perf` JSON handed to `build_recos`. `hour_perf` is passed as a sequence of records.
- The three cached session keys are one `Cache` value. They are always written together, and a missing one raises the same KeyError.
- Some plumbing is not modelled: HTTP handling, forms, redirects (modelled only as the `NoUpload` outcome), templates, weasyprint, `download_csv` and URL routing.
- The recommendation sentences, emoji and number formatting are not modelled. Only the values the sentences carry are.
- `scatter_json` and `preview` are presentation data and are not modelled.
- Floating point is not modelled. Means are exact rationals, so float64 rounding of a mean before `.round(1)` or `int()` is not captured.
- pandas groups `status_type` in string order before the descending sort. The model groups in first-appearance order. That order is not visible after the sort, except in how ties are ordered, which every contract leaves open.
- The model's sorts are stable; pandas' default sort is not. No contract depends on the order of equal keys.
- A group mean over an empty group (NaN) cannot arise: every group comes from an observed key.
- Upload validation and `predict_clusters` failures are not modelled.
