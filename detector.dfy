/** Segment detection (backend/core/segments/detector.py): per-point metrics,
    a one-pass split of the track into stretches of consistent bearing, one
    `Segment` per stretch, and the distance/duration minimums. Bearing and
    distance between two fixes are parameters (the geodesy is not modelled). */
module Detector {
  import opened Wrappers
  import opened PyNum
  import opened Seqs
  import opened Frames
  import opened SegmentModel
  import Calculations
  import Validation
  import C = Constants

  /** A track point with the three metric columns `calculate_point_metrics` adds. */
  datatype MetricPoint = MetricPoint(point: TrackPoint, bearing: real, distanceM: real, durationSec: real)

  // ---------------------------------------------------------------------
  // calculate_point_metrics

  /** Seconds from point j - 1 to point j, or 0 for the first point and for untimed points. */
  function ElapsedBefore(df: Frame<TrackPoint>, j: nat): real
    requires j < |df.rows|
  {
    if j > 0 && TimeCol in df.columns && df.rows[j].time.Some? && df.rows[j - 1].time.Some?
    then (df.rows[j].time.value - df.rows[j - 1].time.value) as real
    else 0.0
  }

  /** Row i of the metrics frame: the bearing and distance from point i to point
      i + 1 and the seconds elapsed since point i - 1; the last point repeats the
      values of the one before it. */
  function MetricRow(df: Frame<TrackPoint>, i: nat,
                     bearingOf: (TrackPoint, TrackPoint) -> real, distanceOf: (TrackPoint, TrackPoint) -> real): MetricPoint
    requires 2 <= |df.rows| && i < |df.rows|
  {
    var j := if i < |df.rows| - 1 then i else |df.rows| - 2;
    MetricPoint(df.rows[i], bearingOf(df.rows[j], df.rows[j + 1]), distanceOf(df.rows[j], df.rows[j + 1]), ElapsedBefore(df, j))
  }

  /** `calculate_point_metrics`: a copy of the track with bearing, distance_m and
      duration_sec per point; fewer than two points give an unchanged copy. */
  method CalculatePointMetrics(df: Frame<TrackPoint>, bearingOf: (TrackPoint, TrackPoint) -> real,
                               distanceOf: (TrackPoint, TrackPoint) -> real) returns (r: Frame<MetricPoint>)
    ensures |r.rows| == |df.rows|
    ensures forall i :: 0 <= i < |r.rows| ==> r.rows[i].point == df.rows[i]
    ensures |df.rows| < 2 ==> r.columns == df.columns
    ensures |df.rows| >= 2 ==> r.columns == df.columns + {BearingCol, DistanceMCol, DurationSecCol}
    ensures |df.rows| >= 2 ==> forall i :: 0 <= i < |r.rows| ==> r.rows[i] == MetricRow(df, i, bearingOf, distanceOf)
  {
    var n := |df.rows|;
    if n < 2 {
      var copy: seq<MetricPoint> := [];
      for i := 0 to n
        invariant |copy| == i && forall k :: 0 <= k < i ==> copy[k].point == df.rows[k]
      {
        copy := copy + [MetricPoint(df.rows[i], 0.0, 0.0, 0.0)];
      }
      return Frame(df.columns, copy);
    }
    var bearings, distances, durations := LegMetrics(df, bearingOf, distanceOf);
    bearings := bearings + [bearings[n - 2]];
    distances := distances + [distances[n - 2]];
    durations := durations + [durations[n - 2]];
    var rows: seq<MetricPoint> := [];
    for i := 0 to n
      invariant |rows| == i
      invariant forall k :: 0 <= k < i ==> rows[k] == MetricRow(df, k, bearingOf, distanceOf)
    {
      rows := rows + [MetricPoint(df.rows[i], bearings[i], distances[i], durations[i])];
    }
    return Frame(df.columns + {BearingCol, DistanceMCol, DurationSecCol}, rows);
  }

  /** The loop over consecutive point pairs of `calculate_point_metrics`. */
  method LegMetrics(df: Frame<TrackPoint>, bearingOf: (TrackPoint, TrackPoint) -> real,
                    distanceOf: (TrackPoint, TrackPoint) -> real) returns (bearings: seq<real>, distances: seq<real>, durations: seq<real>)
    requires |df.rows| >= 2
    ensures |bearings| == |distances| == |durations| == |df.rows| - 1
    ensures forall k :: 0 <= k < |df.rows| - 1 ==>
        && bearings[k] == bearingOf(df.rows[k], df.rows[k + 1])
        && distances[k] == distanceOf(df.rows[k], df.rows[k + 1])
        && durations[k] == ElapsedBefore(df, k)
  {
    var n := |df.rows|;
    bearings, distances, durations := [], [], [];
    for i := 0 to n - 1
      invariant |bearings| == |distances| == |durations| == i
      invariant forall k :: 0 <= k < i ==>
        && bearings[k] == bearingOf(df.rows[k], df.rows[k + 1])
        && distances[k] == distanceOf(df.rows[k], df.rows[k + 1])
        && durations[k] == ElapsedBefore(df, k)
    {
      bearings := bearings + [bearingOf(df.rows[i], df.rows[i + 1])];
      distances := distances + [distanceOf(df.rows[i], df.rows[i + 1])];
      if i > 0 && TimeCol in df.columns && df.rows[i].time.Some? && df.rows[i - 1].time.Some? {
        durations := durations + [(df.rows[i].time.value - df.rows[i - 1].time.value) as real];
      } else {
        durations := durations + [0.0];
      }
    }
  }

  // ---------------------------------------------------------------------
  // detect_angle_changes

  /** The wrap-around difference `detect_angle_changes` compares with the tolerance. */
  function WrapDiff(anchor: real, bearing: real): real
  {
    Min(Mod360(bearing - anchor), Mod360(anchor - bearing))
  }

  /** The detector's difference is the angle between the two directions: the
      same quantity as `angle_to_wind`, so it lies in [0, 180]. */
  lemma WrapDiffIsAngle(anchor: real, bearing: real)
    ensures WrapDiff(anchor, bearing) == Calculations.AngleToWind(bearing, anchor)
    ensures 0.0 <= WrapDiff(anchor, bearing) <= 180.0
  {
    Calculations.AngleToWindOfOffset(bearing, anchor);
    assert anchor - bearing == -(bearing - anchor);
    Mod360Negate(bearing - anchor);
  }

  /** Point k keeps the bearing of the stretch anchored at `start`. */
  predicate Within(rows: seq<MetricPoint>, start: nat, k: nat, tolerance: real)
    requires start < |rows| && k < |rows|
  {
    WrapDiff(rows[start].bearing, rows[k].bearing) <= tolerance
  }

  /** The stretches tile the track from index 0: each starts right after the
      previous one ends, and each lies inside the track. */
  predicate Tiled(stretches: seq<(int, int)>, n: nat)
  {
    && (|stretches| > 0 ==> stretches[0].0 == 0)
    && (forall j :: 0 <= j < |stretches| ==> 0 <= stretches[j].0 <= stretches[j].1 < n)
    && (forall j :: 0 <= j < |stretches| - 1 ==> stretches[j + 1].0 == stretches[j].1 + 1)
  }

  /** Every point of a stretch after its first is within tolerance of the first point's bearing. */
  predicate Consistent(rows: seq<MetricPoint>, stretches: seq<(int, int)>, tolerance: real)
    requires Tiled(stretches, |rows|)
  {
    forall j, k :: 0 <= j < |stretches| && stretches[j].0 < k <= stretches[j].1 ==> Within(rows, stretches[j].0, k, tolerance)
  }

  /** A stretch that does not reach the end of the track ends because the next
      point exceeds the tolerance from its anchor. */
  predicate Maximal(rows: seq<MetricPoint>, stretches: seq<(int, int)>, tolerance: real)
    requires Tiled(stretches, |rows|)
  {
    forall j :: 0 <= j < |stretches| && stretches[j].1 + 1 < |rows| ==> !Within(rows, stretches[j].0, stretches[j].1 + 1, tolerance)
  }

  /** What `detect_angle_changes` promises for a track of two or more points. */
  predicate Detected(rows: seq<MetricPoint>, stretches: seq<(int, int)>, tolerance: real)
  {
    && Tiled(stretches, |rows|)
    && Consistent(rows, stretches, tolerance)
    && Maximal(rows, stretches, tolerance)
    && |stretches| > 0
    && (stretches[|stretches| - 1].1 == |rows| - 1 || stretches[|stretches| - 1].1 == |rows| - 2)
    && stretches[|stretches| - 1].0 < |rows| - 1
  }

  /** The scan of `detect_angle_changes` from point i on, given the stretches closed so
      far and the open stretch anchored at `start`. */
  function ScanFrom(rows: seq<MetricPoint>, tolerance: real, closed: seq<(int, int)>, start: nat, i: nat)
    : seq<(int, int)>
    requires start < i <= |rows|
    decreases |rows| - i
  {
    if i == |rows| then
      if start < |rows| - 1 then closed + [(start, |rows| - 1)] else closed
    else if WrapDiff(rows[start].bearing, rows[i].bearing) > tolerance then
      ScanFrom(rows, tolerance, closed + [(start, i - 1)], i, i + 1)
    else ScanFrom(rows, tolerance, closed, start, i + 1)
  }

  /** The stretches `detect_angle_changes` reports for the metric rows. */
  function Stretches(rows: seq<MetricPoint>, tolerance: real): seq<(int, int)>
  {
    if |rows| < 2 then [] else ScanFrom(rows, tolerance, [], 0, 1)
  }

  /** `detect_angle_changes`: the (start, end) stretches of consistent bearing;
      for two or more points they tile the track, except that a last point which
      starts a fresh stretch on its own is dropped. */
  method DetectAngleChanges(df: Frame<MetricPoint>, tolerance: real) returns (stretches: seq<(int, int)>)
    requires |df.rows| >= 2 ==> BearingCol in df.columns
    ensures stretches == Stretches(df.rows, tolerance)
    ensures |df.rows| < 2 ==> stretches == []
    ensures |df.rows| >= 2 ==> Detected(df.rows, stretches, tolerance)
  {
    var rows := df.rows;
    var n := |rows|;
    if n < 2 {
      return [];
    }
    stretches := [];
    var currentStart := 0;
    var currentBearing := rows[0].bearing;
    for i := 1 to n
      invariant 0 <= currentStart < i
      invariant currentBearing == rows[currentStart].bearing
      invariant ScanFrom(rows, tolerance, stretches, currentStart, i) == Stretches(rows, tolerance)
    {
      var pointBearing := rows[i].bearing;
      var angleDiff := Min(Mod360(pointBearing - currentBearing), Mod360(currentBearing - pointBearing));
      if angleDiff > tolerance {
        stretches := stretches + [(currentStart, i - 1)];
        currentStart := i;
        currentBearing := pointBearing;
      }
    }
    if currentStart < n - 1 {
      stretches := stretches + [(currentStart, n - 1)];
    }
    StretchesDetected(rows, tolerance);
  }

  /** The scan keeps the three properties of the stretches, so what it reports is a
      detection of the track. */
  lemma {:induction false} ScanDetected(rows: seq<MetricPoint>, tolerance: real, closed: seq<(int, int)>,
                                        start: nat, i: nat)
    requires |rows| >= 2 && Scanning(rows, closed, start, i, tolerance)
    ensures Detected(rows, ScanFrom(rows, tolerance, closed, start, i), tolerance)
    decreases |rows| - i
  {
    if i == |rows| {
      FinishStretches(rows, closed, start, tolerance);
    } else if WrapDiff(rows[start].bearing, rows[i].bearing) > tolerance {
      CloseStretch(rows, closed, start, i - 1, tolerance);
      ScanDetected(rows, tolerance, closed + [(start, i - 1)], i, i + 1);
    } else {
      ExtendStretch(rows, closed, start, i, tolerance);
      ScanDetected(rows, tolerance, closed, start, i + 1);
    }
  }

  /** The reported stretches of a track of two or more points tile it, keep the
      bearing within the tolerance, and end only where it is exceeded. */
  lemma StretchesDetected(rows: seq<MetricPoint>, tolerance: real)
    requires |rows| >= 2
    ensures Detected(rows, Stretches(rows, tolerance), tolerance)
  {
    ScanDetected(rows, tolerance, [], 0, 1);
  }

  /** Inside a stretch whose later points are all within the tolerance of its anchor, the
      scan only extends it. */
  lemma {:induction false} ScanExtends(rows: seq<MetricPoint>, tolerance: real, closed: seq<(int, int)>,
                                       a: nat, e: nat, k: nat)
    requires a < k <= e + 1 <= |rows|
    requires forall m :: a < m <= e ==> Within(rows, a, m, tolerance)
    ensures ScanFrom(rows, tolerance, closed, a, k) == ScanFrom(rows, tolerance, closed, a, e + 1)
    decreases e + 1 - k
  {
    if k <= e {
      assert Within(rows, a, k, tolerance);
      ScanExtends(rows, tolerance, closed, a, e, k + 1);
    }
  }

  /** Started on stretch j of a detection, the scan reports that detection. */
  lemma {:induction false} ScanFollows(rows: seq<MetricPoint>, stretches: seq<(int, int)>, tolerance: real, j: nat)
    requires Detected(rows, stretches, tolerance) && j < |stretches|
    ensures stretches[j].0 < stretches[j].0 + 1 <= |rows|
    ensures ScanFrom(rows, tolerance, stretches[..j], stretches[j].0, stretches[j].0 + 1) == stretches
    decreases |stretches| - j
  {
    var a, e := stretches[j].0, stretches[j].1;
    ScanExtends(rows, tolerance, stretches[..j], a, e, a + 1);
    if j + 1 < |stretches| {
      assert stretches[j + 1].0 == e + 1;
      assert !Within(rows, a, e + 1, tolerance);
      assert stretches[..j] + [(a, e)] == stretches[..j + 1];
      ScanFollows(rows, stretches, tolerance, j + 1);
    } else if e == |rows| - 1 {
      assert stretches[..j] + [(a, e)] == stretches;
    } else {
      assert !Within(rows, a, e + 1, tolerance);
      assert stretches[..j] + [(a, e)] == stretches;
    }
  }

  /** A track of two or more points has exactly one detection: the stretches the scan
      reports. */
  lemma DetectedIff(rows: seq<MetricPoint>, stretches: seq<(int, int)>, tolerance: real)
    requires |rows| >= 2
    ensures Detected(rows, stretches, tolerance) <==> stretches == Stretches(rows, tolerance)
  {
    StretchesDetected(rows, tolerance);
    if Detected(rows, stretches, tolerance) {
      ScanFollows(rows, stretches, tolerance, 0);
      assert stretches[..0] == [];
    }
  }

  /** The state of the scan before point i: closed stretches with their
      properties, and the open stretch from `start` consistent so far. */
  predicate Scanning(rows: seq<MetricPoint>, stretches: seq<(int, int)>, start: nat, i: nat, tolerance: real)
  {
    && start < i <= |rows|
    && Tiled(stretches, |rows|)
    && Consistent(rows, stretches, tolerance)
    && Maximal(rows, stretches, tolerance)
    && (|stretches| == 0 ==> start == 0)
    && (|stretches| > 0 ==> stretches[|stretches| - 1].1 + 1 == start)
    && forall k :: start < k < i ==> Within(rows, start, k, tolerance)
  }

  lemma ExtendStretch(rows: seq<MetricPoint>, stretches: seq<(int, int)>, start: nat, i: nat, tolerance: real)
    requires Scanning(rows, stretches, start, i, tolerance) && i < |rows|
    requires Within(rows, start, i, tolerance)
    ensures Scanning(rows, stretches, start, i + 1, tolerance)
  {
  }

  lemma FinishStretches(rows: seq<MetricPoint>, stretches: seq<(int, int)>, start: nat, tolerance: real)
    requires |rows| >= 2 && Scanning(rows, stretches, start, |rows|, tolerance)
    ensures start < |rows| - 1 ==> Detected(rows, stretches + [(start, |rows| - 1)], tolerance)
    ensures start >= |rows| - 1 ==> Detected(rows, stretches, tolerance)
  {
    if start < |rows| - 1 {
      CloseStretch(rows, stretches, start, |rows| - 1, tolerance);
      var s := stretches + [(start, |rows| - 1)];
      assert s[|s| - 1].1 == |rows| - 1;
    } else {
      assert |stretches| > 0;
      assert stretches[|stretches| - 1].1 == |rows| - 2;
    }
  }

  /** Appending a stretch that starts where the last one ended, is consistent
      and ends only where the tolerance is exceeded keeps the three properties. */
  lemma CloseStretch(rows: seq<MetricPoint>, stretches: seq<(int, int)>, start: nat, end: nat, tolerance: real)
    requires Tiled(stretches, |rows|) && Consistent(rows, stretches, tolerance) && Maximal(rows, stretches, tolerance)
    requires |stretches| == 0 ==> start == 0
    requires |stretches| > 0 ==> stretches[|stretches| - 1].1 + 1 == start
    requires start <= end < |rows|
    requires forall k :: start < k <= end ==> Within(rows, start, k, tolerance)
    requires end + 1 < |rows| ==> !Within(rows, start, end + 1, tolerance)
    ensures var s := stretches + [(start, end)];
      Tiled(s, |rows|) && Consistent(rows, s, tolerance) && Maximal(rows, s, tolerance)
    ensures end + 1 < |rows| ==> Scanning(rows, stretches + [(start, end)], end + 1, end + 2, tolerance)
  {
    var s := stretches + [(start, end)];
    assert forall j :: 0 <= j < |stretches| ==> s[j] == stretches[j];
    assert Tiled(s, |rows|);
  }

  // ---------------------------------------------------------------------
  // build_segments

  function RowDistance(p: MetricPoint): real
  {
    p.distanceM
  }

  function RowDuration(p: MetricPoint): real
  {
    p.durationSec
  }

  /** The rows of a stretch: `df.iloc[start:end + 1]`. */
  function StretchRows(rows: seq<MetricPoint>, st: (int, int)): seq<MetricPoint>
  {
    PySlice(rows, st.0, st.1 + 1)
  }

  /** A stretch `build_segments` turns into a segment: start before end and at least two rows. */
  predicate Buildable(rows: seq<MetricPoint>, st: (int, int))
  {
    st.0 < st.1 && |StretchRows(rows, st)| >= 2
  }

  /** The segment built from one stretch: summed distance, the time between its
      first and last row (or the summed per-point durations when either is
      untimed), the average speed in knots, and the first row's bearing. */
  function SegmentOfStretch(rows: seq<MetricPoint>, st: (int, int)): Segment
    requires Buildable(rows, st)
  {
    var d := StretchRows(rows, st);
    var distance := Sum(d, RowDistance);
    var startTime := d[0].point.time;
    var endTime := d[|d| - 1].point.time;
    var duration := if startTime.Some? && endTime.Some? then (endTime.value - startTime.value) as real else Sum(d, RowDuration);
    var speed := if duration > 0.0 then distance / duration * C.MetersPerSecondToKnots else 0.0;
    NewSegment(startTime, endTime, st.0, st.1, d[0].bearing, distance, duration, speed, |d|)
  }

  /** The segments of the buildable stretches, in stretch order. */
  function BuiltSegments(rows: seq<MetricPoint>, stretches: seq<(int, int)>): (r: seq<Segment>)
    ensures |r| <= |stretches|
  {
    if stretches == [] then []
    else
      var last := stretches[|stretches| - 1];
      BuiltSegments(rows, stretches[..|stretches| - 1]) + (if Buildable(rows, last) then [SegmentOfStretch(rows, last)] else [])
  }

  /** `build_segments`; reading the first row's `time` raises KeyError when the frame has no time column. */
  method BuildSegments(df: Frame<MetricPoint>, stretches: seq<(int, int)>) returns (r: Result<seq<Segment>>)
    requires {BearingCol, DistanceMCol, DurationSecCol} <= df.columns
    ensures r.Failure? <==> TimeCol !in df.columns && exists j :: 0 <= j < |stretches| && Buildable(df.rows, stretches[j])
    ensures r.Failure? ==> r.error == "KeyError: 'time'"
    ensures r.Success? ==> r.value == BuiltSegments(df.rows, stretches)
  {
    var segments: seq<Segment> := [];
    for j := 0 to |stretches|
      invariant segments == BuiltSegments(df.rows, stretches[..j])
      invariant TimeCol !in df.columns ==> forall k :: 0 <= k < j ==> !Buildable(df.rows, stretches[k])
    {
      assert stretches[..j + 1][..j] == stretches[..j];
      var st := stretches[j];
      if st.0 >= st.1 {
        assert !Buildable(df.rows, st);
        continue;
      }
      var stretchData := PySlice(df.rows, st.0, st.1 + 1);
      if |stretchData| < 2 {
        assert !Buildable(df.rows, st);
        continue;
      }
      assert Buildable(df.rows, st);
      if TimeCol !in df.columns {
        return Failure("KeyError: 'time'");
      }
      segments := segments + [SegmentOfStretch(df.rows, st)];
    }
    assert stretches[..|stretches|] == stretches;
    return Success(segments);
  }

  /** Each built segment comes from a buildable stretch, in order. */
  lemma {:induction false} BuiltFromStretches(rows: seq<MetricPoint>, stretches: seq<(int, int)>, k: nat)
    requires k < |BuiltSegments(rows, stretches)|
    ensures exists j :: 0 <= j < |stretches| && Buildable(rows, stretches[j])
                        && BuiltSegments(rows, stretches)[k] == SegmentOfStretch(rows, stretches[j])
    decreases |stretches|
  {
    var init := stretches[..|stretches| - 1];
    var last := stretches[|stretches| - 1];
    if k < |BuiltSegments(rows, init)| {
      BuiltFromStretches(rows, init, k);
      var j :| 0 <= j < |init| && Buildable(rows, init[j]) && BuiltSegments(rows, init)[k] == SegmentOfStretch(rows, init[j]);
      assert stretches[j] == init[j];
    } else {
      assert BuiltSegments(rows, stretches)[k] == SegmentOfStretch(rows, last);
    }
  }

  /** A segment built from an in-range stretch covers its points: it starts and
      ends at the stretch, has end - start + 1 points, the first point's bearing
      and the summed distance of exactly those points; its speed converts back to
      distance over duration. */
  lemma SegmentOfStretchFields(rows: seq<MetricPoint>, st: (int, int))
    requires 0 <= st.0 < st.1 < |rows|
    ensures Buildable(rows, st)
    ensures var s := SegmentOfStretch(rows, st);
      && s.startIdx == st.0 && s.endIdx == st.1
      && s.pointCount == st.1 - st.0 + 1
      && s.bearing == rows[st.0].bearing
      && s.distance == Sum(rows[st.0..st.1 + 1], RowDistance)
      && s.startTime == rows[st.0].point.time && s.endTime == rows[st.1].point.time
      && (s.duration > 0.0 ==> AvgSpeedMs(s) * s.duration == s.distance)
      && (s.duration <= 0.0 ==> s.avgSpeedKnots == 0.0)
      && s.angleToWind.None? && s.tack.None? && s.direction.None? && s.qualityScore.None?
  {
    assert StretchRows(rows, st) == rows[st.0..st.1 + 1];
    var s := SegmentOfStretch(rows, st);
    if s.duration > 0.0 {
      SpeedRoundTrip(s.distance, s.duration);
    }
  }

  lemma SpeedRoundTrip(distance: real, duration: real)
    requires duration > 0.0
    ensures distance / duration * C.MetersPerSecondToKnots * (1.0 / 1.94384) * duration == distance
  {
    var v := distance / duration;
    assert v * C.MetersPerSecondToKnots * (1.0 / 1.94384) == v;
    assert v * duration == distance;
  }

  /** A detected stretch is buildable exactly when it has more than one point. */
  lemma DetectedBuildable(rows: seq<MetricPoint>, stretches: seq<(int, int)>, tolerance: real, j: nat)
    requires Detected(rows, stretches, tolerance) && j < |stretches|
    ensures Buildable(rows, stretches[j]) <==> stretches[j].0 < stretches[j].1
  {
    var st := stretches[j];
    assert 0 <= st.0 <= st.1 < |rows|;
    assert StretchRows(rows, st) == rows[st.0..st.1 + 1];
  }

  // ---------------------------------------------------------------------
  // filter_valid_segments

  predicate MeetsMinimums(s: Segment, minDistance: real, minDuration: real)
  {
    s.distance >= minDistance && s.duration >= minDuration
  }

  function Minimums(minDistance: real, minDuration: real): Segment -> bool
  {
    s => MeetsMinimums(s, minDistance, minDuration)
  }

  /** `filter_valid_segments`: the segments meeting both minimums, in their original order. */
  method FilterValidSegments(segments: seq<Segment>, minDistance: real, minDuration: real) returns (valid: seq<Segment>)
    ensures valid == Filter(segments, Minimums(minDistance, minDuration))
  {
    valid := [];
    for i := 0 to |segments|
      invariant valid == Filter(segments[..i], Minimums(minDistance, minDuration))
    {
      assert segments[..i + 1] == segments[..i] + [segments[i]];
      FilterSnoc(segments[..i], segments[i], Minimums(minDistance, minDuration));
      if segments[i].distance >= minDistance && segments[i].duration >= minDuration {
        valid := valid + [segments[i]];
      }
    }
    assert segments[..|segments|] == segments;
  }

  /** The minimums filter keeps exactly the segments meeting both minimums, in order. */
  lemma FilterValidExactly(segments: seq<Segment>, minDistance: real, minDuration: real, x: Segment)
    ensures x in Filter(segments, Minimums(minDistance, minDuration)) <==> x in segments && MeetsMinimums(x, minDistance, minDuration)
    ensures Subseq(Filter(segments, Minimums(minDistance, minDuration)), segments)
  {
    FilterMember(segments, Minimums(minDistance, minDuration), x);
    FilterSubseq(segments, Minimums(minDistance, minDuration));
  }

  // ---------------------------------------------------------------------
  // find_consistent_angle_stretches

  /** A segment of a detected stretch: inside the metrics rows, with one point
      per index, the first point's bearing, and every later point within the
      tolerance of that bearing. */
  predicate StretchSegment(rows: seq<MetricPoint>, tolerance: real, s: Segment)
  {
    && 0 <= s.startIdx < s.endIdx < |rows|
    && s.pointCount == s.endIdx - s.startIdx + 1
    && s.bearing == rows[s.startIdx].bearing
    && forall k :: s.startIdx < k <= s.endIdx ==> Within(rows, s.startIdx, k, tolerance)
  }

  lemma BuiltSegmentOfDetected(rows: seq<MetricPoint>, stretches: seq<(int, int)>, tolerance: real, k: nat)
    requires Detected(rows, stretches, tolerance) && k < |BuiltSegments(rows, stretches)|
    ensures StretchSegment(rows, tolerance, BuiltSegments(rows, stretches)[k])
  {
    BuiltFromStretches(rows, stretches, k);
    var j :| 0 <= j < |stretches| && Buildable(rows, stretches[j])
             && BuiltSegments(rows, stretches)[k] == SegmentOfStretch(rows, stretches[j]);
    DetectedBuildable(rows, stretches, tolerance, j);
    SegmentOfStretchFields(rows, stretches[j]);
  }

  /** What `find_consistent_angle_stretches` promises of each segment it returns, in
      terms of the track: a detected stretch of the metrics rows that meets both
      minimums and survives cleaning. */
  predicate DetectedSegment(df: Frame<TrackPoint>, bearingOf: (TrackPoint, TrackPoint) -> real,
                            distanceOf: (TrackPoint, TrackPoint) -> real,
                            tolerance: real, minDistance: real, minDuration: real, s: Segment)
  {
    && |df.rows| >= 2
    && 0 <= s.startIdx < s.endIdx < |df.rows|
    && s.pointCount == s.endIdx - s.startIdx + 1
    && s.bearing == MetricRow(df, s.startIdx, bearingOf, distanceOf).bearing
    && (forall k :: s.startIdx < k <= s.endIdx ==> WrapDiff(s.bearing, MetricRow(df, k, bearingOf, distanceOf).bearing) <= tolerance)
    && MeetsMinimums(s, minDistance, minDuration)
    && Validation.CleanRow(SegmentColumns, s)
  }

  /** The rows `calculate_point_metrics` gives a track of two or more points. */
  function MetricRows(df: Frame<TrackPoint>, bearingOf: (TrackPoint, TrackPoint) -> real,
                      distanceOf: (TrackPoint, TrackPoint) -> real): (r: seq<MetricPoint>)
    requires |df.rows| >= 2
    ensures |r| == |df.rows| && forall i :: 0 <= i < |r| ==> r[i] == MetricRow(df, i, bearingOf, distanceOf)
  {
    seq(|df.rows|, i requires 0 <= i < |df.rows| => MetricRow(df, i, bearingOf, distanceOf))
  }

  /** The inputs `find_consistent_angle_stretches` turns away with `pd.DataFrame()`:
      an invalid track, a parameter out of range, or fewer than two points. */
  predicate Rejected(df: Frame<TrackPoint>, tolerance: real, minDuration: real, minDistance: real)
  {
    || Validation.ValidateGpxDataframe(Some(df)).Invalid?
    || Validation.ValidateParameterRanges(Some(tolerance), Some(minDistance), Some(minDuration), None, None).Some?
    || |df.rows| < 2
  }

  /** What `find_consistent_angle_stretches` returns: `pd.DataFrame()` for a rejected
      track; otherwise the segments of the detected stretches, the KeyError of
      `build_segments` for an untimed track with a buildable stretch, `pd.DataFrame()`
      when no segment is built or none meets the minimums, and else the frame of the
      valid segments after cleaning. */
  function StretchSegments(df: Frame<TrackPoint>, tolerance: real, minDuration: real, minDistance: real,
                           bearingOf: (TrackPoint, TrackPoint) -> real,
                           distanceOf: (TrackPoint, TrackPoint) -> real): (r: Result<Frame<Segment>>)
    ensures r.Success? ==> r.value == EmptyFrame() || r.value.columns == SegmentColumns
  {
    if Rejected(df, tolerance, minDuration, minDistance) then Success(EmptyFrame())
    else
      var rows := MetricRows(df, bearingOf, distanceOf);
      var stretches := Stretches(rows, tolerance);
      if TimeCol !in df.columns && exists j :: 0 <= j < |stretches| && Buildable(rows, stretches[j]) then
        Failure("KeyError: 'time'")
      else Success(ValidSegmentsFrame(BuiltSegments(rows, stretches), minDistance, minDuration))
  }

  /** The last steps of `find_consistent_angle_stretches` on the built segments:
      `pd.DataFrame()` when there are none or none meets the minimums, else the frame of
      the valid ones after cleaning. */
  function ValidSegmentsFrame(segments: seq<Segment>, minDistance: real, minDuration: real): Frame<Segment>
  {
    var valid := Filter(segments, Minimums(minDistance, minDuration));
    if segments == [] || valid == [] then EmptyFrame()
    else Validation.ValidateAndCleanSegments(Some(SegmentsToDataframe(valid))).value
  }

  /** `find_consistent_angle_stretches`: validation, point metrics, stretch
      detection, building, the minimums filter, conversion to a frame and
      cleaning, in that order. */
  method FindConsistentAngleStretches(df: Frame<TrackPoint>, tolerance: real, minDuration: real, minDistance: real,
                                      bearingOf: (TrackPoint, TrackPoint) -> real,
                                      distanceOf: (TrackPoint, TrackPoint) -> real) returns (r: Result<Frame<Segment>>)
    ensures r == StretchSegments(df, tolerance, minDuration, minDistance, bearingOf, distanceOf)
  {
    if Rejected(df, tolerance, minDuration, minDistance) {
      return Success(EmptyFrame());
    }
    var metrics := CalculatePointMetrics(df, bearingOf, distanceOf);
    ghost var rows := MetricRows(df, bearingOf, distanceOf);
    assert metrics.rows == rows;
    assert TimeCol in metrics.columns <==> TimeCol in df.columns;
    var stretches := DetectAngleChanges(metrics, tolerance);
    // a track of two or more points always has a stretch, so the source's test for
    // an empty stretch list cannot fire
    assert stretches == Stretches(rows, tolerance);
    StretchSegmentsOfStretches(df, tolerance, minDuration, minDistance, bearingOf, distanceOf, rows, stretches);
    var built := BuildSegments(metrics, stretches);
    if built.Failure? {
      return Failure(built.error);
    }
    var segments := built.value;
    assert segments == BuiltSegments(rows, stretches);
    if segments == [] {
      return Success(EmptyFrame());
    }
    var valid := FilterValidSegments(segments, minDistance, minDuration);
    if valid == [] {
      assert ValidSegmentsFrame(segments, minDistance, minDuration) == EmptyFrame();
      return Success(EmptyFrame());
    }
    var frame := SegmentsToDataframe(valid);
    var cleaned := Validation.ValidateAndCleanSegments(Some(frame)).value;
    return Success(cleaned);
  }

  /** The detector's result for an accepted track, in terms of its point rows and stretches. */
  lemma StretchSegmentsOfStretches(df: Frame<TrackPoint>, tolerance: real, minDuration: real, minDistance: real,
                                   bearingOf: (TrackPoint, TrackPoint) -> real,
                                   distanceOf: (TrackPoint, TrackPoint) -> real,
                                   rows: seq<MetricPoint>, stretches: seq<(int, int)>)
    requires !Rejected(df, tolerance, minDuration, minDistance)
    requires rows == MetricRows(df, bearingOf, distanceOf) && stretches == Stretches(rows, tolerance)
    ensures StretchSegments(df, tolerance, minDuration, minDistance, bearingOf, distanceOf) ==
      if TimeCol !in df.columns && exists j :: 0 <= j < |stretches| && Buildable(rows, stretches[j])
      then Failure("KeyError: 'time'")
      else Success(ValidSegmentsFrame(BuiltSegments(rows, stretches), minDistance, minDuration))
  {
  }

  /** The detector fails exactly on an accepted track without a time column that has a
      stretch of two or more points. */
  lemma StretchSegmentsFailsIff(df: Frame<TrackPoint>, tolerance: real, minDuration: real, minDistance: real,
                                bearingOf: (TrackPoint, TrackPoint) -> real,
                                distanceOf: (TrackPoint, TrackPoint) -> real)
    ensures StretchSegments(df, tolerance, minDuration, minDistance, bearingOf, distanceOf).Failure? <==>
      && !Rejected(df, tolerance, minDuration, minDistance)
      && TimeCol !in df.columns
      && exists j :: 0 <= j < |Stretches(MetricRows(df, bearingOf, distanceOf), tolerance)| &&
           Stretches(MetricRows(df, bearingOf, distanceOf), tolerance)[j].0 <
           Stretches(MetricRows(df, bearingOf, distanceOf), tolerance)[j].1
  {
    if !Rejected(df, tolerance, minDuration, minDistance) {
      var rows := MetricRows(df, bearingOf, distanceOf);
      var stretches := Stretches(rows, tolerance);
      StretchesDetected(rows, tolerance);
      forall j | 0 <= j < |stretches|
        ensures Buildable(rows, stretches[j]) <==> stretches[j].0 < stretches[j].1
      {
        DetectedBuildable(rows, stretches, tolerance, j);
      }
    }
  }

  /** The final frame holds exactly the segments that meet both minimums and pass
      cleaning, in their order. */
  lemma ValidSegmentsFrameExactly(segments: seq<Segment>, minDistance: real, minDuration: real, s: Segment)
    ensures s in ValidSegmentsFrame(segments, minDistance, minDuration).rows <==>
              s in segments && MeetsMinimums(s, minDistance, minDuration) && Validation.CleanRow(SegmentColumns, s)
    ensures Subseq(ValidSegmentsFrame(segments, minDistance, minDuration).rows, segments)
  {
    var valid := Filter(segments, Minimums(minDistance, minDuration));
    FilterValidExactly(segments, minDistance, minDuration, s);
    if segments != [] && valid != [] {
      var frame := SegmentsToDataframe(valid);
      Validation.CleanKeepsOrder(frame);
      SubseqTrans(ValidSegmentsFrame(segments, minDistance, minDuration).rows, valid, segments);
    }
  }

  /** The frame an accepted track yields is the final frame of its built segments. */
  lemma StretchSegmentsValue(df: Frame<TrackPoint>, tolerance: real, minDuration: real, minDistance: real,
                             bearingOf: (TrackPoint, TrackPoint) -> real,
                             distanceOf: (TrackPoint, TrackPoint) -> real)
    requires !Rejected(df, tolerance, minDuration, minDistance)
    requires StretchSegments(df, tolerance, minDuration, minDistance, bearingOf, distanceOf).Success?
    ensures var rows := MetricRows(df, bearingOf, distanceOf);
            StretchSegments(df, tolerance, minDuration, minDistance, bearingOf, distanceOf).value ==
              ValidSegmentsFrame(BuiltSegments(rows, Stretches(rows, tolerance)), minDistance, minDuration)
  {
  }

  /** The segments an accepted track yields are exactly the segments of its detected
      stretches of two or more points that meet both minimums and pass cleaning, in
      stretch order. */
  lemma StretchSegmentsExactly(df: Frame<TrackPoint>, tolerance: real, minDuration: real, minDistance: real,
                               bearingOf: (TrackPoint, TrackPoint) -> real,
                               distanceOf: (TrackPoint, TrackPoint) -> real, s: Segment)
    requires !Rejected(df, tolerance, minDuration, minDistance)
    requires StretchSegments(df, tolerance, minDuration, minDistance, bearingOf, distanceOf).Success?
    ensures var rows := MetricRows(df, bearingOf, distanceOf);
            var stretches := Stretches(rows, tolerance);
            var r := StretchSegments(df, tolerance, minDuration, minDistance, bearingOf, distanceOf).value;
            && (s in r.rows <==>
                  && (exists j :: 0 <= j < |stretches| && Buildable(rows, stretches[j])
                                  && s == SegmentOfStretch(rows, stretches[j]))
                  && MeetsMinimums(s, minDistance, minDuration)
                  && Validation.CleanRow(SegmentColumns, s))
            && Subseq(r.rows, BuiltSegments(rows, stretches))
  {
    var rows := MetricRows(df, bearingOf, distanceOf);
    var stretches := Stretches(rows, tolerance);
    StretchSegmentsValue(df, tolerance, minDuration, minDistance, bearingOf, distanceOf);
    BuiltExactly(rows, stretches, s);
    ValidSegmentsFrameExactly(BuiltSegments(rows, stretches), minDistance, minDuration, s);
  }

  /** Every segment an accepted track yields is a detected stretch of its own metric rows
      that meets both minimums and passes cleaning. */
  lemma StretchSegmentsSound(df: Frame<TrackPoint>, tolerance: real, minDuration: real, minDistance: real,
                             bearingOf: (TrackPoint, TrackPoint) -> real,
                             distanceOf: (TrackPoint, TrackPoint) -> real)
    requires StretchSegments(df, tolerance, minDuration, minDistance, bearingOf, distanceOf).Success?
    ensures forall s :: s in StretchSegments(df, tolerance, minDuration, minDistance, bearingOf, distanceOf).value.rows ==>
              DetectedSegment(df, bearingOf, distanceOf, tolerance, minDistance, minDuration, s)
  {
    if !Rejected(df, tolerance, minDuration, minDistance) {
      var rows := MetricRows(df, bearingOf, distanceOf);
      var stretches := Stretches(rows, tolerance);
      var segments := BuiltSegments(rows, stretches);
      var valid := Filter(segments, Minimums(minDistance, minDuration));
      var kept := StretchSegments(df, tolerance, minDuration, minDistance, bearingOf, distanceOf).value.rows;
      StretchSegmentsValue(df, tolerance, minDuration, minDistance, bearingOf, distanceOf);
      StretchesDetected(rows, tolerance);
      forall x | x in kept
        ensures x in valid && Validation.CleanRow(SegmentColumns, x)
      {
        ValidSegmentsFrameExactly(segments, minDistance, minDuration, x);
        FilterValidExactly(segments, minDistance, minDuration, x);
      }
      CleanedAreDetected(df, bearingOf, distanceOf, tolerance, minDistance, minDuration, rows, stretches, kept);
    }
  }

  /** A segment is built exactly when it is the segment of a buildable stretch. */
  lemma BuiltExactly(rows: seq<MetricPoint>, stretches: seq<(int, int)>, s: Segment)
    ensures s in BuiltSegments(rows, stretches) <==>
      exists j :: 0 <= j < |stretches| && Buildable(rows, stretches[j]) && s == SegmentOfStretch(rows, stretches[j])
  {
    var segments := BuiltSegments(rows, stretches);
    if s in segments {
      var k :| 0 <= k < |segments| && segments[k] == s;
      BuiltFromStretches(rows, stretches, k);
    }
    if exists j :: 0 <= j < |stretches| && Buildable(rows, stretches[j]) && s == SegmentOfStretch(rows, stretches[j]) {
      var j :| 0 <= j < |stretches| && Buildable(rows, stretches[j]) && s == SegmentOfStretch(rows, stretches[j]);
      BuiltOfStretch(rows, stretches, j);
    }
  }

  /** The segment of every buildable stretch is built. */
  lemma {:induction false} BuiltOfStretch(rows: seq<MetricPoint>, stretches: seq<(int, int)>, j: nat)
    requires j < |stretches| && Buildable(rows, stretches[j])
    ensures SegmentOfStretch(rows, stretches[j]) in BuiltSegments(rows, stretches)
    decreases |stretches|
  {
    var init := stretches[..|stretches| - 1];
    if j < |stretches| - 1 {
      assert init[j] == stretches[j];
      BuiltOfStretch(rows, init, j);
    }
  }

  lemma CleanedAreDetected(df: Frame<TrackPoint>, bearingOf: (TrackPoint, TrackPoint) -> real,
                           distanceOf: (TrackPoint, TrackPoint) -> real,
                           tolerance: real, minDistance: real, minDuration: real,
                           rows: seq<MetricPoint>, stretches: seq<(int, int)>, kept: seq<Segment>)
    requires |df.rows| >= 2 && |rows| == |df.rows|
    requires forall i :: 0 <= i < |rows| ==> rows[i] == MetricRow(df, i, bearingOf, distanceOf)
    requires Detected(rows, stretches, tolerance)
    requires forall s :: s in kept ==>
      s in Filter(BuiltSegments(rows, stretches), Minimums(minDistance, minDuration)) && Validation.CleanRow(SegmentColumns, s)
    ensures forall s :: s in kept ==> DetectedSegment(df, bearingOf, distanceOf, tolerance, minDistance, minDuration, s)
  {
    var segments := BuiltSegments(rows, stretches);
    forall s | s in kept
      ensures DetectedSegment(df, bearingOf, distanceOf, tolerance, minDistance, minDuration, s)
    {
      FilterValidExactly(segments, minDistance, minDuration, s);
      var k :| 0 <= k < |segments| && segments[k] == s;
      BuiltSegmentOfDetected(rows, stretches, tolerance, k);
      StretchIsDetected(df, bearingOf, distanceOf, tolerance, minDistance, minDuration, rows, s);
    }
  }

  lemma StretchIsDetected(df: Frame<TrackPoint>, bearingOf: (TrackPoint, TrackPoint) -> real,
                          distanceOf: (TrackPoint, TrackPoint) -> real,
                          tolerance: real, minDistance: real, minDuration: real,
                          rows: seq<MetricPoint>, s: Segment)
    requires |df.rows| >= 2 && |rows| == |df.rows|
    requires forall i :: 0 <= i < |rows| ==> rows[i] == MetricRow(df, i, bearingOf, distanceOf)
    requires StretchSegment(rows, tolerance, s)
    requires MeetsMinimums(s, minDistance, minDuration) && Validation.CleanRow(SegmentColumns, s)
    ensures DetectedSegment(df, bearingOf, distanceOf, tolerance, minDistance, minDuration, s)
  {
    forall k | s.startIdx < k <= s.endIdx
      ensures WrapDiff(s.bearing, MetricRow(df, k, bearingOf, distanceOf).bearing) <= tolerance
    {
      assert Within(rows, s.startIdx, k, tolerance);
      assert rows[k] == MetricRow(df, k, bearingOf, distanceOf);
    }
    assert rows[s.startIdx] == MetricRow(df, s.startIdx, bearingOf, distanceOf);
  }

  // ---------------------------------------------------------------------
  // analyze_segment_distribution

  datatype Distribution = Distribution(
    count: nat,
    totalDistanceKm: real,
    totalDurationMinutes: real,
    avgSegmentDistanceM: real,
    avgSegmentDurationS: real,
    avgSpeedKnots: real,
    distanceRange: (real, real),
    durationRange: (real, real),
    speedRange: (real, real))

  /** `analyze_segment_distribution`: None for `{}` (no segments), else count,
      totals, means and (min, max) ranges of distance, duration and speed. */
  function AnalyzeSegmentDistribution(segments: seq<Segment>): (r: Option<Distribution>)
    ensures r.None? <==> segments == []
    ensures r.Some? ==> r.value.count == |segments|
  {
    if segments == [] then None
    else
      var distances := MapReal(segments, Calculations.SegDistance);
      var durations := MapReal(segments, Calculations.SegDuration);
      var speeds := MapReal(segments, Calculations.SegSpeed);
      Some(Distribution(|segments|, SumReals(distances) / 1000.0, SumReals(durations) / 60.0,
                        Mean(distances), Mean(durations), Mean(speeds),
                        (MinOf(distances), MaxOf(distances)), (MinOf(durations), MaxOf(durations)),
                        (MinOf(speeds), MaxOf(speeds))))
  }

  /** Each mean lies in its (min, max) range. */
  lemma DistributionMeansInRange(segments: seq<Segment>)
    requires segments != []
    ensures var d := AnalyzeSegmentDistribution(segments).value;
      && d.distanceRange.0 <= d.avgSegmentDistanceM <= d.distanceRange.1
      && d.durationRange.0 <= d.avgSegmentDurationS <= d.durationRange.1
      && d.speedRange.0 <= d.avgSpeedKnots <= d.speedRange.1
  {
    MeanBetweenMinMax(MapReal(segments, Calculations.SegDistance));
    MeanBetweenMinMax(MapReal(segments, Calculations.SegDuration));
    MeanBetweenMinMax(MapReal(segments, Calculations.SegSpeed));
  }

  /** The totals are count times mean, in kilometres and minutes. */
  lemma DistributionTotals(segments: seq<Segment>)
    requires segments != []
    ensures var d := AnalyzeSegmentDistribution(segments).value;
      && d.totalDistanceKm * 1000.0 == d.avgSegmentDistanceM * |segments| as real
      && d.totalDurationMinutes * 60.0 == d.avgSegmentDurationS * |segments| as real
  {
    var distances := MapReal(segments, Calculations.SegDistance);
    var durations := MapReal(segments, Calculations.SegDuration);
    var d := AnalyzeSegmentDistribution(segments).value;
    assert d.totalDistanceKm == SumReals(distances) / 1000.0 && d.avgSegmentDistanceM == Mean(distances);
    assert d.totalDurationMinutes == SumReals(durations) / 60.0 && d.avgSegmentDurationS == Mean(durations);
    MeanTimesCount(distances);
    MeanTimesCount(durations);
  }

  lemma MeanTimesCount(s: seq<real>)
    requires s != []
    ensures Mean(s) * |s| as real == SumReals(s)
  {
  }

  /** The distance range bounds every segment and its maximum is some segment's distance. */
  lemma DistributionRangeTight(segments: seq<Segment>)
    requires segments != []
    ensures var d := AnalyzeSegmentDistribution(segments).value;
      && (forall i :: 0 <= i < |segments| ==> d.distanceRange.0 <= segments[i].distance <= d.distanceRange.1)
      && (exists i :: 0 <= i < |segments| && segments[i].distance == d.distanceRange.1)
  {
    var distances := MapReal(segments, Calculations.SegDistance);
    MaxOfIsElement(distances);
    var i :| 0 <= i < |distances| && distances[i] == MaxOf(distances);
    assert segments[i].distance == distances[i];
    forall i | 0 <= i < |segments| ensures MinOf(distances) <= segments[i].distance <= MaxOf(distances) {
      assert distances[i] == segments[i].distance;
    }
  }
}
