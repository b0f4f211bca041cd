# foil-lab track analysis, modelled in Dafny

This project models the track-analysis core of foil-lab, a tool that analyses
GPS tracks of wing-foil and sailing sessions. It states and proves properties
of that model. The pipeline it covers:

- **Point metrics.** Per-point bearing, distance and elapsed time.
- **Segment detection.** Stretches of consistent bearing become `Segment`
  records, filtered by minimum distance and duration.
- **Filters and validators.** Filters by speed, by time window and by
  latitude/longitude box, plus the data and parameter validators.
- **Wind annotation.** Angle to wind, upwind/downwind and port/starboard tack.
- **Iterative wind estimation.** Tacks are reclassified on every pass, and the
  two tacks' median best-pointing angles are balanced.
- **Supporting pieces.** The user-guided candidate search, the estimator
  factory and the `TrackAnalysisResult` summary of the service layer.

Pandas frames are modelled as `Frames.Frame<R>`: a set of column names and a
sequence of typed rows. The model branches on column presence wherever the
source checks for a column. Where a missing column only makes the source raise a
KeyError, the VMG summaries return that KeyError, and the other members require
the columns they read (see "## Left out"). Times are integer seconds. Degrees are `real`, and Python's float
`% 360` is `PyNum.Mod360`, a floor remainder.

Some code cannot be modelled, so it becomes parameters of the model:

- trigonometry and geodesy: `calculate_bearing`, geopy distance, `cos`;
- `np.std`;
- the suspicious-segment detector;
- the VMG helpers of `core.metrics_advanced`.

Contracts hold for all such parameters. Where a property needs a bound (for
example |cos| ≤ 1, std ≥ 0), the lemma says so in its `requires`.

One module per source file:

| file | module | source |
|---|---|---|
| pynum.dfy, seqs.dfy, frames.dfy, wrappers.dfy | PyNum, Seqs, Frames, Wrappers | Python/pandas/numpy semantics the core relies on |
| constants.dfy | Constants | backend/core/constants.py, backend/config/settings.py |
| segment.dfy | SegmentModel | backend/core/models/segment.py |
| calculations.dfy | Calculations | backend/core/calculations.py (angles, VMG, quality, averages) |
| metrics.dfy | Metrics | backend/core/calculations.py, `calculate_track_metrics` |
| validation.dfy | Validation | backend/core/validation.py |
| filtering.dfy | Filtering | backend/core/filtering.py |
| detector.dfy | Detector | backend/core/segments/detector.py |
| wind_algorithms.dfy | WindAlgorithms | backend/core/wind/algorithms.py |
| wind_factory.dfy | WindFactory | backend/core/wind/factory.py |
| track_analysis.dfy | TrackAnalysis | backend/services/track_analysis_service.py |

Code written as loops is modelled as methods with loop invariants. Each method
is proved equal to a specification function, and the properties are lemmas
about those functions. This covers:

- `calculate_point_metrics`, `detect_angle_changes`, `build_segments` and
  `filter_valid_segments`;
- the VMG loops and the metrics loop;
- `dataframe_to_segments`;
- the iteration loop and the candidate loops;
- the opposite-pair loop;
- `get_available_methods`.

`TrackAnalysisResult` is a class. Its constructor arguments are immutable
fields. Its summary attributes are mutable fields, set by
`CalculateSummaryMetrics`.

Where the documentation and the code disagree, the model follows the code:

- **Confidence.** The iterative estimator's "high" confidence needs the two
  tack angles within 20 degrees (`MEDIUM_CONFIDENCE_TACK_DIFF_DEGREES`), not
  10. "Medium" needs them within 30 (`MAX_TACK_DIFF_FOR_ADJUSTMENT_DEGREES`),
  not 20. `HIGH_CONFIDENCE_TACK_DIFF_DEGREES` is unused.
- **Upwind** is a strict `< 90`.
- **Tack** is assigned to every row, upwind or not.
- **Convergence** is the plain `|new - current| < 1.0`, with no wrap-around.
- **Stretch anchor.** Each detected stretch is anchored at the bearing of its
  first point. There is no running mean.
- **Speed filter.** It acts on whole segments.
- **Unknown method names.** `create_estimator` falls back to the iterative
  estimator instead of raising `ValueError` as its docstring claims.
- **User-guided failure.** `user_guided_wind_estimation` returns
  `(None, best_score)` below the quality threshold, not the `(None, 0)` its
  docstring promises.

## Model

| member | source | states |
|---|---|---|
| PyNum.Mod360 | backend/core/calculations.py:74-75 | Python's float `% 360` lands in [0, 360) |
| PyNum.Trunc | backend/core/wind/algorithms.py:52 | `int(x)` truncates toward zero: within 1 below a non-negative x, within 1 above a negative one |
| PyNum.Mod360Shift | backend/core/calculations.py:74-75 | adding whole turns does not change `x % 360` |
| PyNum.Mod360Idempotent | backend/core/validation.py:149 | normalising an already normalised angle changes nothing |
| PyNum.Lower | backend/core/wind/factory.py:173 | ASCII lower-casing: same length, each ASCII capital lowered in place; agrees with `str.lower` wherever the result is compared with an ASCII literal |
| Seqs.NSmallest | backend/core/wind/algorithms.py:53 | `nsmallest(k)` returns min(k, n) rows sorted by key, drawn from the input's multiset |
| Seqs.NSmallestKeepsSmallest | backend/core/wind/algorithms.py:53 | no dropped row has a smaller key than any kept row |
| Seqs.ArgMin | backend/services/track_analysis_service.py:106 | `idxmin` yields the first index of least key |
| Seqs.FilterArgMinFirst | backend/services/track_analysis_service.py:102-108 | `idxmin` on a masked frame names the first least-key row of the mask in the original frame |
| Seqs.ArgMax | backend/core/wind/algorithms.py:429 | `max(..., key=)` yields the first pair of greatest key |
| Seqs.SortedDistinct | backend/core/wind/algorithms.py:419 | `sorted(list(set(xs)))` is strictly increasing and has exactly the members of xs |
| Seqs.WeightedAverage | backend/core/calculations.py:219 | `np.average` with weights fails exactly when the weights sum to zero |
| Seqs.WeightedAverageBetween | backend/core/calculations.py:453 | a weighted average with non-negative weights of positive sum lies within the values' bounds |
| Seqs.MedianBetween | backend/core/wind/algorithms.py:241-242 | `np.median` lies between the minimum and maximum value |
| Seqs.MeanBetweenMinMax | backend/core/segments/detector.py:326-331 | `np.mean` lies between `min` and `max` |
| Frames.EmptyFrame | backend/core/models/segment.py:90 | `pd.DataFrame()` is empty, with no rows and no columns |
| Frames.PySlice | backend/core/filtering.py:134 | `iloc[a:b]` clamps its bounds, equals `s[a..b]` on in-range bounds, and every element is the input's at the shifted index |
| SegmentModel.NewSegment | backend/core/models/segment.py:14-42 | a freshly built segment stores the given fields and leaves angle, tack, direction and quality None |
| SegmentModel.ToDict | backend/core/models/segment.py:44-60 | `to_dict` has exactly the 13 segment columns as keys |
| SegmentModel.ToDictInjective | backend/core/models/segment.py:44-60 | the dictionary loses nothing: equal dictionaries come from equal segments |
| SegmentModel.SegmentsToDataframe | backend/core/models/segment.py:79-93 | the frame is empty iff there are no segments, has one row per segment in order, and has the 13 columns otherwise |
| SegmentModel.MissingRequired | backend/core/models/segment.py:110-118 | the KeyError `row[...]` raises: none iff every required column is present, else a missing required column |
| SegmentModel.DataframeToSegments | backend/core/models/segment.py:96-125 | the row loop computes the frame-to-segments conversion (KeyError on a missing required column) |
| SegmentModel.RoundTrip | backend/core/models/segment.py:79-125 | `dataframe_to_segments(segments_to_dataframe(s)) == s` for every list of segments |
| SegmentModel.EmptyFrameToSegments | backend/core/models/segment.py:106-125 | a frame without rows gives no segments, whatever its columns |
| SegmentModel.AbsentOptionalIsNone | backend/core/models/segment.py:119-122 | `row.get` of an absent optional column gives None in every segment; required fields are copied |
| SegmentModel.AvgSpeedMs | backend/core/models/segment.py:62-66 | `avg_speed_ms` times 1.94384 gives back the speed in knots |
| SegmentModel.DistanceKm | backend/core/models/segment.py:68-71 | `distance_km` times 1000 is the distance in metres |
| SegmentModel.DurationMinutes | backend/core/models/segment.py:73-76 | `duration_minutes` times 60 is the duration in seconds |
| Calculations.AngleToWind | backend/core/calculations.py:56-88 | the angle to wind is in [0, 180] |
| Calculations.AngleToWindSymmetric | backend/core/calculations.py:74-81 | swapping bearing and wind does not change the angle |
| Calculations.AngleToWindZeroIff | backend/core/calculations.py:74-81 | the angle is zero exactly when bearing and wind agree modulo 360 |
| Calculations.AngleToWindPeriodic | backend/core/calculations.py:74-75 | whole turns added to either argument do not change the angle |
| Calculations.TackAngle | backend/core/calculations.py:165-176 | on port the angle is the clockwise offset `(bearing - wind) % 360`, on starboard its complement to 360 |
| Calculations.AngleBisector | backend/core/calculations.py:91-109 | the bisector is in [0, 360) |
| Calculations.AngleBisectorSymmetric | backend/core/wind/algorithms.py:110-117 | the bisector is symmetric in its arguments |
| Calculations.AngleBisectorEquidistant | backend/core/calculations.py:102-109 | for two compass angles the bisector is equally far from both |
| Calculations.ConversionsInverse | backend/core/calculations.py:116-133 | m/s↔knots and m↔km conversions are mutual inverses over the reals |
| Calculations.KnotsMonotone | backend/core/calculations.py:116-123 | the knots conversion preserves order, so thresholds mean the same in either unit |
| Calculations.AnalyzeWindAngles | backend/core/calculations.py:140-162 | same rows in the same order, the old columns plus angle, direction and tack; each row annotated from its bearing (direction Upwind iff angle < 90, tack by `determine_tack`) |
| Calculations.AnalyzeRecomputes | backend/core/calculations.py:147-162 | re-annotating against another wind discards the previous annotation |
| Calculations.VmgBetween | backend/core/calculations.py:183-194 | with |cos| ≤ 1 the VMG is between 0 and the boat speed |
| Calculations.VmgOfSegments | backend/core/calculations.py:207-222 | the loop returns (0.0, []) on empty input; a KeyError for a missing `avg_speed_knots`, then `angle_to_wind`, then `distance` column; else one VMG per row and their distance-weighted average (failing exactly when the distances sum to zero) |
| Calculations.CalculateVmgUpwind | backend/core/calculations.py:197-222 | `calculate_vmg_upwind` is that summary |
| Calculations.CalculateVmgDownwind | backend/core/calculations.py:225-252 | `calculate_vmg_downwind` is the same summary |
| Calculations.VmgAverageBounded | backend/core/calculations.py:217-220 | the average VMG lies between 0 and the fastest segment's speed |
| Calculations.SegmentQualityScores | backend/core/calculations.py:372-397 | empty series for an empty frame, else one score per row |
| Calculations.QualityScoreInUnit | backend/core/calculations.py:386-395 | with non-negative inputs each score is in [0, 1] (weights 0.5 + 0.3 + 0.2) |
| Calculations.QualityScoreOfBest | backend/core/calculations.py:386-395 | a row that is longest, fastest and longest-lasting scores exactly 1 |
| Calculations.AverageAngleFromSegments | backend/core/calculations.py:404-487 | empty input gives all None and zero counts; otherwise the counts are the tacks' sizes, a tack has an average iff it has rows, the combined angle follows both/either rule, bearings are port then starboard |
| Calculations.CombineTacksBetween | backend/core/calculations.py:467-468 | the combined average lies between the two tack averages |
| Calculations.TackAverageWithinAngles | backend/core/calculations.py:446-454 | a tack's distance-weighted average angle lies within that tack's angles |
| Metrics.Legs | backend/core/calculations.py:285-307 | one leg per consecutive point pair, in order, none for fewer than two points |
| Metrics.EarliestTime | backend/core/calculations.py:270-271 | `time.min()`: none iff no time, else a present timestamp below all others |
| Metrics.LatestTime | backend/core/calculations.py:270-272 | `time.max()`: none iff no time, else a present timestamp above all others |
| Metrics.TimeSpanOrdered | backend/core/calculations.py:270-282 | the track's duration is never negative and its start and end bracket every timestamp |
| Metrics.CalculateTrackMetrics | backend/core/calculations.py:259-365 | the loop computes the metrics as written: every timed leg's duration is collected, only positive-duration legs give a speed, and the two lists are zipped by position |
| Metrics.TimedDurationsAligned | backend/core/calculations.py:300-307 | when no timed leg has a zero or negative duration, the durations collected are exactly those paired with the speeds |
| Metrics.AsWrittenAgreesOnIncreasingTimes | backend/core/calculations.py:259-365 | on a track whose timestamps strictly increase, the metrics as written equal the corrected metrics |
| Metrics.SpeedDurationsParallel | backend/core/calculations.py:300-307 | there is exactly one duration per speed, and no more speeds than timed legs |
| Metrics.ActiveDistanceIsLegDistance | backend/core/calculations.py:319-326 | with aligned pairs, sum(speed × duration) over active legs is their distance, and sum(duration) their time |
| Metrics.WeightedSpeedIsDistanceOverTime | backend/core/calculations.py:323-341 | the active distance and duration are the active legs', and the weighted average speed is their distance over their time, in knots |
| Metrics.NoActiveSpeedNoActiveLeg | backend/core/calculations.py:346-352 | no active speed means no active distance or time |
| Metrics.AverageSpeedAtLeastThreshold | backend/core/calculations.py:320-334 | the mean of the active speeds is at least the threshold, both as written and corrected |
| Metrics.DistanceNonNegative | backend/core/calculations.py:308-311 | with non-negative geodesic distances the total distance is non-negative, both as written and corrected |
| Metrics.AsWrittenDiffersOnlyInActiveTime | backend/core/calculations.py:300-365 | the misaligned zip changes only the active distance, the active duration and the weighted speed; every other metric, and whether the active metrics are reported, is the same as written and corrected |
| Metrics.MisalignedZipExample | backend/core/calculations.py:300-326 | as written, a zero-duration leg shifts the zip: the speed 5 m/s is paired with 0 s |
| Metrics.TrackMetricsAsWrittenMisaligned | backend/core/calculations.py:259-365 | as written, a three-point track reports 0 km active where 0.05 km was sailed |
| Validation.ValidateGpxDataframe | backend/core/validation.py:22-69 | rejects None and empty frames with their own errors; an accepted frame is returned unchanged |
| Validation.GpxValidIff | backend/core/validation.py:36-69 | accepted iff present, non-empty, with latitude and longitude columns, coordinates in range and at least 2 rows |
| Validation.ValidateSegmentsDataframe | backend/core/validation.py:72-120 | None rejected, empty accepted, accepted frames unchanged |
| Validation.SegmentsValidIff | backend/core/validation.py:86-110 | accepted iff present and, unless empty, the three critical columns exist and no distance or duration is negative and every bearing is in [0, 360] |
| Validation.ValidateWindDirection | backend/core/validation.py:123-152 | None, NaN and ±inf are rejected; a finite number is normalised with `% 360` into [0, 360) |
| Validation.ValidateWindIdempotent | backend/core/validation.py:149 | validating a normalised direction returns it unchanged |
| Validation.ValidateWindPeriodic | backend/core/validation.py:149 | directions whole turns apart normalise to the same value |
| Validation.CheckParameter | backend/core/validation.py:175-193 | a parameter passes iff it is absent or in its range, else an out-of-range error naming it |
| Validation.ValidateParameterRanges | backend/core/validation.py:155-193 | no error iff every supplied parameter is in range (0 < tolerance ≤ 180, distance ≤ 10000, duration ≤ 3600, speed ≤ 200, threshold ≤ 90); the tolerance is reported first |
| Validation.Suffix | backend/core/validation.py:216 | `Path.suffix` of the path's name: empty, or a dot followed by dot-free text |
| Validation.BaseName | backend/core/validation.py:216 | `Path.name`: the last component that is neither empty nor ".", so it has no '/' and is never "." |
| Validation.BaseNameAfterSlash | backend/core/validation.py:216 | a name without '/' other than "" and "." is the name of any path ending in "/" and that name |
| Validation.TrailingSeparatorIgnored | backend/core/validation.py:216 | a trailing "/" or "/." changes neither the name nor the suffix |
| Validation.ValidateFileUpload | backend/core/validation.py:196-220 | passes iff a file is given, its size (if any) is at most 10 MiB and its name (if any) has lower-cased suffix `.gpx` |
| Validation.UploadAcceptsGpxExtension | backend/core/validation.py:215-218 | `dir/stem.ext` is accepted iff ext is gpx in any case, whatever the directory |
| Validation.UploadRejectsDotName | backend/core/validation.py:215-218 | a hidden name like `.gpx`, or ".", has no suffix and is rejected |
| Validation.SafeDataframeOperation | backend/core/validation.py:223-264 | true iff present, not empty when rows are needed, enough rows and every required column |
| Validation.ValidateAndCleanSegments | backend/core/validation.py:267-306 | None and empty pass through; otherwise same columns and exactly the rows meeting the cleaning conditions |
| Validation.CleanKeepsOrder | backend/core/validation.py:284-301 | cleaned rows keep their order |
| Validation.CleanIdempotent | backend/core/validation.py:267-306 | cleaning twice is cleaning once |
| Validation.CleanedPassesValidation | backend/core/validation.py:72-120 | a cleaned frame with the critical columns passes `validate_segments_dataframe` |
| Filtering.FilterSegmentsByTime | backend/core/filtering.py:22-76 | columns kept; unchanged when empty or without time data; otherwise exactly the overlapping rows, in order |
| Filtering.TimeFilterKeepsExactly | backend/core/filtering.py:59-72 | a row is kept iff it ends at or after the start (or has no end) and starts at or before the end (or has no start) |
| Filtering.TimeFilterSubseq | backend/core/filtering.py:64-72 | the time filter yields an order-preserving subsequence |
| Filtering.TimeFilterWithoutBounds | backend/core/filtering.py:59-72 | with neither bound nothing is dropped |
| Filtering.BoxOf | backend/core/filtering.py:119-126 | a missing axis is the whole globe; swapped bounds are put in order |
| Filtering.FilterSegmentsBySpatialBounds | backend/core/filtering.py:79-152 | columns kept; unchanged when empty, without bounds or without index/coordinate columns |
| Filtering.SpatialFilterKeepsExactly | backend/core/filtering.py:128-147 | a segment is kept iff some point of `track.iloc[start:end + 1]` lies in the closed box |
| Filtering.EmptySliceDropped | backend/core/filtering.py:136-137 | a segment selecting no track point is dropped |
| Filtering.SpatialFilterSwapInvariant | backend/core/filtering.py:123-126 | swapped min/max bounds give the same result |
| Filtering.SpatialFilterSubseq | backend/core/filtering.py:146-147 | the spatial filter yields an order-preserving subsequence |
| Filtering.ApplyFilters | backend/core/filtering.py:155-201 | empty in, empty out; columns kept |
| Filtering.ApplyFiltersComposes | backend/core/filtering.py:186-194 | `apply_filters` is the spatial filter after the time filter; skipping either for absent bounds is the same as running it |
| Filtering.ApplyFiltersSubseq | backend/core/filtering.py:155-201 | the filtered rows are an order-preserving subsequence |
| Filtering.ValidateFilterParams | backend/core/filtering.py:204-243 | no message iff time is ordered and each box axis is in range and ordered; the time message comes first |
| Filtering.ValidateFilterParamsOrder | backend/core/filtering.py:228-233 | an axis's range check is reported before its order check |
| Filtering.ValidBoundsNeedNoSwap | backend/core/filtering.py:119-126 | bounds that pass validation are the box the filter uses, unswapped |
| Detector.CalculatePointMetrics | backend/core/segments/detector.py:25-81 | same rows; for two or more points each row gets the bearing and distance to the next point and the time since the previous one, the last repeating its predecessor |
| Detector.LegMetrics | backend/core/segments/detector.py:51-67 | the loop computes each leg's bearing, distance and elapsed time |
| Detector.WrapDiffIsAngle | backend/core/segments/detector.py:109-112 | the detector's wrap-around difference is the angle between the directions, in [0, 180] |
| Detector.DetectAngleChanges | backend/core/segments/detector.py:84-127 | the loop returns the scan `Stretches`: no stretch for fewer than 2 rows; else the stretches tile the track from 0, each within tolerance of its first bearing and ended only where the tolerance is exceeded, with a final single-point stretch dropped |
| Detector.StretchesDetected | backend/core/segments/detector.py:84-127 | for two or more rows the scan gives such a tiling |
| Detector.DetectedIff | backend/core/segments/detector.py:84-127 | for two or more rows, a list of stretches is such a tiling iff it is the scan's result, so the tiling is unique |
| Detector.CloseStretch | backend/core/segments/detector.py:114-120 | closing a consistent, maximal stretch keeps the tiling, consistency and maximality |
| Detector.BuiltSegments | backend/core/segments/detector.py:146-191 | at most one segment per stretch |
| Detector.BuildSegments | backend/core/segments/detector.py:130-194 | KeyError iff there is no time column and some stretch is buildable, else one segment per buildable stretch in order |
| Detector.BuiltExactly | backend/core/segments/detector.py:146-191 | a segment is built iff it is the segment of some buildable stretch |
| Detector.BuiltFromStretches | backend/core/segments/detector.py:146-191 | every built segment is the segment of a buildable stretch |
| Detector.SegmentOfStretchFields | backend/core/segments/detector.py:151-189 | a built segment's index range, point count `end - start + 1`, first-row bearing, summed distance, end times, and speed (distance / duration in knots, or 0) |
| Detector.DetectedBuildable | backend/core/segments/detector.py:147-154 | a detected stretch is built iff it has more than one point |
| Detector.FilterValidSegments | backend/core/segments/detector.py:197-225 | the loop keeps exactly the segments meeting both minimums, in order |
| Detector.FilterValidExactly | backend/core/segments/detector.py:216-219 | x is kept iff x is a segment with distance ≥ min and duration ≥ min; the result is a subsequence |
| Detector.FindConsistentAngleStretches | backend/core/segments/detector.py:228-299 | the method returns `StretchSegments` of its inputs: validation, point metrics, stretch detection, building, the minimum filter and cleaning, in that order |
| Detector.StretchSegments | backend/core/segments/detector.py:228-299 | a result is the empty frame or carries the segment columns |
| Detector.StretchSegmentsFailsIff | backend/core/segments/detector.py:228-299 | KeyError 'time' iff the inputs pass validation, the track has no time column and some detected stretch has more than one point |
| Detector.StretchSegmentsExactly | backend/core/segments/detector.py:228-299 | a segment is returned iff it is the segment of a buildable detected stretch that meets both minimums and the cleaning conditions; the result keeps the build order |
| Detector.ValidSegmentsFrameExactly | backend/core/segments/detector.py:286-299 | after the minimum filter and cleaning, a segment remains iff it meets both minimums and the cleaning conditions, in order |
| Detector.StretchSegmentsSound | backend/core/segments/detector.py:228-299 | every returned segment is a detected, valid, clean stretch segment |
| Detector.CleanedAreDetected | backend/core/segments/detector.py:286-299 | every segment that survives the minimums and cleaning is a detected stretch segment |
| Detector.AnalyzeSegmentDistribution | backend/core/segments/detector.py:302-333 | `{}` iff there are no segments, else the count is the number of segments |
| Detector.DistributionMeansInRange | backend/core/segments/detector.py:326-331 | each mean lies in its (min, max) range |
| Detector.DistributionTotals | backend/core/segments/detector.py:324-327 | totals are count × mean, in km and minutes |
| Detector.DistributionRangeTight | backend/core/segments/detector.py:329 | the distance range bounds every segment and its max is attained |
| WindAlgorithms.GetBestPointingSegments | backend/core/wind/algorithms.py:47-53 | all rows when n ≤ min_count, else min(n, max(min_count, int(n × fraction))) rows drawn from the input |
| WindAlgorithms.BestPointingTightest | backend/core/wind/algorithms.py:53 | every kept row's angle is at most every dropped row's |
| WindAlgorithms.BestCountAtLeastThree | backend/core/wind/algorithms.py:47-53 | with min_count 3, at least three rows are kept iff the tack has at least three |
| WindAlgorithms.TackBalanceRange | backend/core/wind/algorithms.py:75-78 | tack balance is 0 when a tack is missing, else in (0, 1], and 1 iff the counts are equal |
| WindAlgorithms.UpDownBalanceRange | backend/core/wind/algorithms.py:81 | the upwind/downwind balance is in [0, 1] |
| WindAlgorithms.SpreadScoreRange | backend/core/wind/algorithms.py:84-89 | the normalised spread is in [0, 1] |
| WindAlgorithms.WindScoreBounds | backend/core/wind/algorithms.py:92-96 | the score lies between 0 and the sum of the weights |
| WindAlgorithms.DefaultWindScoreInUnit | backend/core/wind/algorithms.py:56-96 | with the default weights the score is in [0, 1] |
| WindAlgorithms.UsableUpwindExactly | backend/core/wind/algorithms.py:183-204 | the rows a pass uses are exactly the annotated rows that are upwind, not flagged and long enough |
| WindAlgorithms.UsableUpwindSubseq | backend/core/wind/algorithms.py:183-204 | those rows keep the track order |
| WindAlgorithms.UsableAngle | backend/core/wind/algorithms.py:186 | a usable row's angle is in [0, 90) |
| WindAlgorithms.MedianOfUsableTack | backend/core/wind/algorithms.py:232-242 | a tack's median best angle is in [0, 90) |
| WindAlgorithms.BalancedPassBounds | backend/core/wind/algorithms.py:256-260 | both medians are in [0, 90), a pass turns the wind by less than 45°, and the new wind is in [0, 360) |
| WindAlgorithms.EstimateWindDirectionIterative | backend/core/wind/algorithms.py:120-361 | the method computes the iterative estimate |
| WindAlgorithms.IterateWinds | backend/core/wind/algorithms.py:178-290 | the loop computes the iteration function |
| WindAlgorithms.PreviousAnnotationIgnored | backend/core/wind/algorithms.py:169-183 | estimating from already annotated segments gives the same estimate: nothing carries over |
| WindAlgorithms.IterateFailsIff | backend/core/wind/algorithms.py:208-227 | the loop fails iff a pass is allowed and the first one lacks three usable rows or a tack |
| WindAlgorithms.FallbackIff | backend/core/wind/algorithms.py:153-166 | the result is the user-provided fallback (initial wind, low, zero counts) iff there are no segments or the first pass fails |
| WindAlgorithms.EstimateDirectionRange | backend/core/wind/algorithms.py:260 | the direction is the initial wind or in [0, 360) |
| WindAlgorithms.ConvergedPassEnds | backend/core/wind/algorithms.py:277-280 | a move below 1° ends the loop on the new wind |
| WindAlgorithms.OscillationAverages | backend/core/wind/algorithms.py:283-286 | a return to within 1° of the previous wind ends the loop on the average |
| WindAlgorithms.LaterPassesYieldWind | backend/core/wind/algorithms.py:210-227 | once a pass has succeeded the loop always settles on a wind |
| WindAlgorithms.IterateRange | backend/core/wind/algorithms.py:178-290 | the loop settles on its start wind or on a compass angle |
| WindAlgorithms.NoIterations | backend/core/wind/algorithms.py:178-293 | with no pass allowed the final analysis runs against the initial wind |
| WindAlgorithms.SinglePass | backend/core/wind/algorithms.py:178-293 | one pass: the fallback if it fails, else the final analysis against its new wind |
| WindAlgorithms.FinalEstimateShape | backend/core/wind/algorithms.py:293-361 | an angle exists iff its count is positive, angles are in [0, 90), counts are best-attempt counts |
| WindAlgorithms.FinalConfidenceRule | backend/core/wind/algorithms.py:329-341 | "high" iff both angles, diff < 20, ≥ 3 per tack and > 500 m; "medium" needs diff < 30; diff < 30 is never "low" |
| WindAlgorithms.EstimateWindDirectionWeighted | backend/core/wind/algorithms.py:364-385 | the weighted estimator is the iterative one with one pass |
| WindAlgorithms.GridOffsets | backend/core/wind/algorithms.py:405-408 | `linspace(-30, 30, 7)` is -30, -20, …, 30 |
| WindAlgorithms.UserGuidedWindEstimation | backend/core/wind/algorithms.py:388-437 | the method computes the user-guided choice |
| WindAlgorithms.GenerateCandidates | backend/core/wind/algorithms.py:411-419 | the candidate loop computes the sorted distinct shifted offsets |
| WindAlgorithms.ScoreCandidates | backend/core/wind/algorithms.py:422-425 | one (wind, score) pair per candidate, in order |
| WindAlgorithms.ChooseBestSpec | backend/core/wind/algorithms.py:429-437 | a wind is kept iff the best score > 0.4; the score is the maximum; the wind is the first candidate with it |
| WindAlgorithms.CandidateWindsShape | backend/core/wind/algorithms.py:405-419 | candidates are strictly increasing, in [0, 360), and exactly the user's wind shifted by one of the 13 offsets |
| WindAlgorithms.CandidateWindsIncludeUser | backend/core/wind/algorithms.py:408-411 | the user's wind and the range ends ±30 are always candidates |
| WindAlgorithms.UserGuidedChoice | backend/core/wind/algorithms.py:422-437 | the result is (best, score) iff score > 0.4, else (None, score); no candidate scores higher; the best is the first of that score |
| WindAlgorithms.CircularDiffRange | backend/core/wind/algorithms.py:483-484 | the circular difference is in [0, 180] and symmetric |
| WindAlgorithms.MostOppositePair | backend/core/wind/algorithms.py:474-488 | (0, 0, -1) with fewer than two clusters, else the first top pair of greatest circular difference, which is in [0, 180] |
| WindFactory.ParamsToDict | backend/core/wind/factory.py:28-35 | `to_dict` has exactly the four parameter keys |
| WindFactory.ParamsToDictInjective | backend/core/wind/factory.py:28-35 | equal dictionaries come from equal parameter records |
| WindFactory.Key | backend/core/wind/factory.py:154-157 | every estimator is registered under its key |
| WindFactory.EstimatorKeysExact | backend/core/wind/factory.py:154-157 | the registry has exactly the two keys |
| WindFactory.Estimate | backend/core/wind/factory.py:85-140 | the method computes each estimator's forwarding; the direction is the initial wind or in [0, 360) |
| WindFactory.EstimateWithRange | backend/core/wind/factory.py:85-140 | either estimator returns the initial wind or a compass angle |
| WindFactory.NoParamsMeansDefaults | backend/core/wind/factory.py:20-131 | `params=None` is the same as the defaults |
| WindFactory.WeightedIsSinglePass | backend/core/wind/factory.py:135-140 | Weighted forwards only threshold and distance: it is Iterative with 1 pass and fraction 0.4 |
| WindFactory.CreateEstimatorChoice | backend/core/wind/factory.py:173-179 | Weighted iff the lower-cased name is "weighted", Iterative otherwise |
| WindFactory.CreateEstimatorIgnoresCase | backend/core/wind/factory.py:173 | names equal up to case give the same estimator |
| WindFactory.CreateFromKey | backend/core/wind/factory.py:154-179 | each key creates its own estimator |
| WindFactory.CreateUpperCase | backend/core/wind/factory.py:173-179 | "WEIGHTED" gives Weighted and "Iterative" gives Iterative |
| WindFactory.GetDefaultMethod | backend/core/wind/factory.py:190-193 | the default is a registered key |
| WindFactory.DefaultIsIterative | backend/core/wind/factory.py:190-193 | the default creates the iterative estimator |
| WindFactory.SummaryParts | backend/core/wind/factory.py:187 | an entry is the name, ": ", then the description |
| WindFactory.GetAvailableMethods | backend/core/wind/factory.py:181-188 | exactly the registry keys, each mapped to its summary |
| WindFactory.Summaries | backend/core/wind/factory.py:185-187 | the loop maps exactly the visited keys to their summaries |
| WindFactory.EstimateWindDirectionFactory | backend/core/wind/factory.py:196-215 | the chosen estimator's estimate |
| WindFactory.FactoryDefaults | backend/core/wind/factory.py:20-215 | the defaults run Iterative with threshold 20, distance 50, 5 passes and fraction 0.4 |
| WindFactory.UnknownMethodFallsBack | backend/core/wind/factory.py:176-177 | an unknown name behaves like "iterative" and never raises |
| TrackAnalysis.DirectionSubsetsExactly | backend/services/track_analysis_service.py:67-68 | the upwind subset has exactly the upwind rows, the downwind subset exactly the downwind rows, and they are disjoint |
| TrackAnalysis.DirectionSubsetsOrdered | backend/services/track_analysis_service.py:67-68 | both subsets keep the order |
| TrackAnalysis.BestOfTackIsFirstMinimum | backend/services/track_analysis_service.py:101-113 | a tack's best angle is that of its first least-angle upwind row, and the speed is that row's; none iff the tack has no angle |
| TrackAnalysis.MaxSpeedAtLeastMean | backend/services/track_analysis_service.py:117-118 | max speed ≥ mean speed, and every speed is ≤ the max |
| TrackAnalysis.TotalDistanceNonNegative | backend/services/track_analysis_service.py:116 | non-negative distances give a non-negative total |
| TrackAnalysis.SummaryOfMeans | backend/services/track_analysis_service.py:51-119 | each summary attribute is the metric its segments define; empty segments give the empty summary |
| TrackAnalysis.EmptySummary | backend/services/track_analysis_service.py:53-64 | empty segments give empty subsets, no VMG or best angles, and zero totals |
| TrackAnalysis.AnnotatedSummaryAngles | backend/services/track_analysis_service.py:106-119 | on annotated segments the best and mean upwind angles are in [0, 90) |
| TrackAnalysis.TrackAnalysisResult.constructor | backend/services/track_analysis_service.py:30-49 | stores the arguments and then the summary of the segments; it needs the tack and angle columns once there is an upwind row, and `avg_speed_knots` once an upwind row has a tack |
| TrackAnalysis.TrackAnalysisResult.CalculateSummaryMetrics | backend/services/track_analysis_service.py:51-119 | afterwards the attributes hold the summary of the stored segments; it needs the columns the constructor needs |
| TrackAnalysis.TrackAnalysisResult.StoreVmg | backend/services/track_analysis_service.py:73-93 | `vmg_upwind` and its ids alias the session VMG pair |
| TrackAnalysis.SpeedFilterExactly | backend/services/track_analysis_service.py:180-181 | the speed filter keeps exactly the segments at or above the minimum, in order |
| TrackAnalysis.FilterStageKeepsFastDetected | backend/services/track_analysis_service.py:180-194 | the survivors are a subsequence of the detected segments, each at least as fast as the minimum |
| TrackAnalysis.WindStageFallback | backend/services/track_analysis_service.py:196-207 | confidence "None" iff no segments survive, then the wind is the initial one and the segments empty |
| TrackAnalysis.WindStageEstimate | backend/services/track_analysis_service.py:210-230 | otherwise the wind is the 5-pass iterative estimate, segments re-annotated against it with `sailing_type` |
| TrackAnalysis.AnalyzeTrackData | backend/services/track_analysis_service.py:122-247 | fails exactly when the detector (`StretchSegments`) fails, with its error; otherwise the result holds the detector's segments run through the filter and wind stages, and their summary |
| TrackAnalysis.AnalysedSegmentsAreDetected | backend/services/track_analysis_service.py:160-230 | every analysed segment is a detected stretch segment at least as fast as the minimum speed, re-annotated against the refined wind |
| TrackAnalysis.FilterDetected | backend/services/track_analysis_service.py:180-194 | computes the filter stage |
| TrackAnalysis.EstimateAndStore | backend/services/track_analysis_service.py:196-243 | builds the result of the wind stage, summarised |
| TrackAnalysis.AnnotatedSummarisable | backend/services/track_analysis_service.py:102-113 | segments with tack, angle and speed columns have every column the summary reads |
| TrackAnalysis.GetAnalysisParametersFromSession | backend/services/track_analysis_service.py:345-360 | exactly the five keys, each the session's value if present else its default |
| TrackAnalysis.SessionDefaultsInRange | backend/services/track_analysis_service.py:355-360 | the defaults pass the detector's parameter checks |
| TrackAnalysis.SessionParametersStable | backend/services/track_analysis_service.py:355-360 | reading parameters back from the result gives the same parameters |

## Left out

- Logging, the `iteration_history` list, and the warnings in both validators (NaN coordinates, speeds over 100 knots): they only log.
- KMeans in `bearing_cluster_analysis`: only the opposite-pair loop over given cluster centres is modelled. The choice of the (at most three) most populous clusters is not modelled either: WindAlgorithms.MostOppositePair takes those clusters as its `top` parameter.
- Trigonometry, geodesy, `np.std`, `detect_suspicious_segments` and the VMG helpers of `core.metrics_advanced` are parameters, because their code is not part of this model or is floating-point. `detect_suspicious_segments` becomes a per-row flag, so a row's flag cannot depend on the other rows of the frame.
- PyNum.Lower: ASCII only. Python also lowers non-ASCII letters, and can lengthen a string ("İ" becomes two code points). No call site compares the result with a text that this changes: the comparisons are with "weighted", "iterative" and ".gpx".
- WindAlgorithms.UserGuidedWindEstimation: the user's wind is a whole degree, so Python's `round` (with its tie rule) is not modelled.
- Floating-point rounding, and NaN beyond the explicit `isnan`/`isinf` checks, are not modelled. An `idxmin` over a tack with no angles is None rather than NaN. A `None` time stands for pandas NaT. Where the source would append a NaN duration for a NaT time (calculations.py:300, detector.py:63 and :163), the model skips the value, so NaN durations are not modelled.
- TrackAnalysis.SummaryOf: on empty segments the source leaves `best_*_speed`, the segment-id lists and `avg_upwind_angle` unset. The model gives them their empty values.
- Column preconditions: the KeyError the source raises on a frame without a column it reads becomes a `requires` naming that column. This applies in Calculations.AnalyzeWindAngles, Calculations.SegmentQualityScores, Calculations.AverageAngleFromSegments, Detector.DetectAngleChanges, Detector.BuildSegments (bearing, distance and duration; the time column is branched on), TrackAnalysis.WindStage, WindAlgorithms.UserGuidedWindEstimation, WindAlgorithms.ScoreCandidates and WindAlgorithms.ScoreCandidate. Every frame the pipeline builds has those columns.
- TrackAnalysis.TrackAnalysisResult.constructor: the KeyError on a missing `tack` or `angle_to_wind` column once there is an upwind row, and on a missing `avg_speed_knots` column once an upwind row has a tack, becomes its `requires Summarisable`.
- TrackAnalysis.TrackAnalysisResult.CalculateSummaryMetrics: the same KeyErrors become its `requires Summarisable`.
- The metadata dictionary holds strings only.
- `analyze_track_file` and `load_gpx_file` are file I/O. `create_gear_item_from_analysis` uses uuid and cos.
- The HTTP layer, `gpx.py`, the scripts and `wind_service.py` are not part of this model.
- The `WindEstimator` abstract class is a datatype with two constructors, and `name`/`description` are functions on it.
- The `.str.lower()` comparison of the direction column is an equality on the direction datatype.
- `calculate_angle_bisector` appears in both calculations.py and algorithms.py; one definition models both.
- The "Raises ValueError" of the `create_estimator` docstring: the code never raises.
- The "(None, 0)" of the `user_guided_wind_estimation` docstring: the code returns the best score with None.

## Findings

| source | as written | input that shows it | evidently intended | confidence | as-written member | corrected member |
|---|---|---|---|---|---|---|
| backend/core/calculations.py:300-326 | `segment_durations` gets every timed leg but `speeds_m_per_s` only legs with duration > 0, and the two are zipped by position | points at t = 0, 0, 10 s with 5 m and 50 m legs: the single speed 5 m/s is paired with 0 s, so active distance is 0 km instead of 0.05 km | each speed paired with its own leg's duration | not executed | Metrics.TrackMetricsAsWrittenMisaligned | Metrics.WeightedSpeedIsDistanceOverTime |

`Metrics.CalculateTrackMetrics` computes the metrics as written (`TrackMetricsAsWritten`). `TrackMetricsOf` is the corrected definition, and the lemmas about the metrics are stated on it. `Metrics.AsWrittenAgreesOnIncreasingTimes` shows the two agree whenever the timestamps strictly increase.
