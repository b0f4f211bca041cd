/** Circular angle arithmetic, wind annotation of segments, VMG, quality
    scores and per-tack averages (backend/core/calculations.py). */
module Calculations {
  import opened Wrappers
  import opened PyNum
  import opened Seqs
  import opened Frames
  import opened SegmentModel
  import C = Constants

  // ---------------------------------------------------------------------
  // Angles

  /** `angle_to_wind`: the smaller arc between bearing and wind, in degrees. */
  function AngleToWind(bearing: real, wind: real): (r: real)
    ensures 0.0 <= r <= 180.0
  {
    var b := Mod360(bearing);
    var w := Mod360(wind);
    var diff := Abs(b - w);
    Min(diff, C.FullCircle - diff)
  }

  lemma AngleToWindSymmetric(bearing: real, wind: real)
    ensures AngleToWind(bearing, wind) == AngleToWind(wind, bearing)
  {
  }

  /** The angle is zero exactly when bearing and wind are the same direction modulo 360. */
  lemma AngleToWindZeroIff(bearing: real, wind: real)
    ensures AngleToWind(bearing, wind) == 0.0 <==> Mod360(bearing) == Mod360(wind)
  {
  }

  /** Adding whole turns to either argument does not change the angle. */
  lemma AngleToWindPeriodic(bearing: real, wind: real, j: int, k: int)
    ensures AngleToWind(bearing + 360.0 * j as real, wind + 360.0 * k as real) == AngleToWind(bearing, wind)
  {
    Mod360Shift(bearing, j);
    Mod360Shift(wind, k);
  }

  /** `determine_tack`: Port when the bearing lies at most 180 degrees clockwise of the wind. */
  function DetermineTack(bearing: real, wind: real): Tack
  {
    if Mod360(bearing - wind) <= C.WrapBoundary then Port else Starboard
  }

  /** The angle to wind is the clockwise offset of the bearing from the wind on
      port tack, and the counter-clockwise offset on starboard tack. */
  lemma TackAngle(bearing: real, wind: real)
    ensures DetermineTack(bearing, wind) == Port ==> AngleToWind(bearing, wind) == Mod360(bearing - wind)
    ensures DetermineTack(bearing, wind) == Starboard ==> AngleToWind(bearing, wind) == 360.0 - Mod360(bearing - wind)
  {
    Mod360Difference(bearing, wind);
    var b, w := Mod360(bearing), Mod360(wind);
    if b >= w {
      Mod360OfRange(b - w);
    } else {
      Mod360Char(b - w, -1);
    }
  }

  /** The angle to wind depends only on the offset of the bearing from the wind. */
  lemma AngleToWindOfOffset(bearing: real, wind: real)
    ensures AngleToWind(bearing, wind) == Min(Mod360(bearing - wind), 360.0 - Mod360(bearing - wind))
  {
    TackAngle(bearing, wind);
  }

  /** `calculate_angle_bisector` (both copies, calculations.py and wind/algorithms.py). */
  function AngleBisector(angle1: real, angle2: real): (r: real)
    ensures 0.0 <= r < 360.0
  {
    var a1 := if Abs(angle1 - angle2) > C.WrapBoundary && angle1 < angle2 then angle1 + C.FullCircle else angle1;
    var a2 := if Abs(angle1 - angle2) > C.WrapBoundary && !(angle1 < angle2) then angle2 + C.FullCircle else angle2;
    Mod360((a1 + a2) / 2.0)
  }

  lemma AngleBisectorSymmetric(angle1: real, angle2: real)
    ensures AngleBisector(angle1, angle2) == AngleBisector(angle2, angle1)
  {
  }

  lemma AngleBisectorOfSame(angle: real)
    ensures AngleBisector(angle, angle) == Mod360(angle)
  {
  }

  /** For two compass angles, the bisector is equally far from both of them. */
  lemma AngleBisectorEquidistant(angle1: real, angle2: real)
    requires 0.0 <= angle1 < 360.0 && 0.0 <= angle2 < 360.0
    ensures AngleToWind(AngleBisector(angle1, angle2), angle1) == AngleToWind(AngleBisector(angle1, angle2), angle2)
  {
    var wrap := Abs(angle1 - angle2) > 180.0;
    var x := if wrap && angle1 < angle2 then angle1 + 360.0 else angle1;
    var y := if wrap && !(angle1 < angle2) then angle2 + 360.0 else angle2;
    var m := AngleBisector(angle1, angle2);
    var d := (y - x) / 2.0;
    assert -90.0 <= d <= 90.0;
    // m is congruent to (x + y) / 2, and x, y are congruent to angle1, angle2
    OffsetFromMidpoint(x, y, angle1, m, d);
    OffsetFromMidpoint(y, x, angle2, m, -d);
    AngleToWindOfOffset(m, angle1);
    AngleToWindOfOffset(m, angle2);
    SmallOffsetArc(d);
    SmallOffsetArc(-d);
  }

  lemma OffsetFromMidpoint(x: real, y: real, a: real, m: real, d: real)
    requires x == a || x == a + 360.0
    requires m == Mod360((x + y) / 2.0) && d == (y - x) / 2.0
    ensures Mod360(m - a) == Mod360(d)
  {
    Mod360Difference((x + y) / 2.0, x);
    assert (x + y) / 2.0 - x == d;
    Mod360Idempotent((x + y) / 2.0);
    Mod360Difference(m, a);
    if x == a + 360.0 {
      Mod360Shift(a, 1);
    }
    Mod360Difference(m, x);
    Mod360Idempotent(m);
  }

  lemma SmallOffsetArc(d: real)
    requires -90.0 <= d <= 90.0
    ensures Min(Mod360(d), 360.0 - Mod360(d)) == Abs(d)
  {
    if d >= 0.0 {
      Mod360OfRange(d);
    } else {
      Mod360Char(d, -1);
    }
  }

  // ---------------------------------------------------------------------
  // Unit conversions

  function MetersPerSecondToKnots(speedMs: real): real
  {
    speedMs * C.MetersPerSecondToKnots
  }

  function KnotsToMetersPerSecond(speedKnots: real): real
  {
    speedKnots * C.KnotsToMetersPerSecond
  }

  function MetersToKilometers(distanceM: real): real
  {
    distanceM / C.MetersPerKilometer
  }

  function KilometersToMeters(distanceKm: real): real
  {
    distanceKm * C.MetersPerKilometer
  }

  /** Over the reals the two speed conversions undo each other, and so do the two distance conversions. */
  lemma ConversionsInverse(v: real)
    ensures KnotsToMetersPerSecond(MetersPerSecondToKnots(v)) == v
    ensures MetersPerSecondToKnots(KnotsToMetersPerSecond(v)) == v
    ensures KilometersToMeters(MetersToKilometers(v)) == v
    ensures MetersToKilometers(KilometersToMeters(v)) == v
  {
  }

  /** Both speed conversions preserve order, so a threshold in knots selects the same speeds in m/s. */
  lemma KnotsMonotone(a: real, b: real)
    ensures a <= b <==> MetersPerSecondToKnots(a) <= MetersPerSecondToKnots(b)
  {
  }

  // ---------------------------------------------------------------------
  // Wind annotation

  function DirectionOf(angle: real): Direction
  {
    if angle < C.UpwindBoundary then Upwind else Downwind
  }

  /** One row of `analyze_wind_angles`: angle, direction label and tack against the wind. */
  function Annotate(s: Segment, wind: real): Segment
  {
    var angle := AngleToWind(s.bearing, wind);
    s.(angleToWind := Some(angle), direction := Some(DirectionOf(angle)), tack := Some(DetermineTack(s.bearing, wind)))
  }

  /** a is s annotated against the wind: the three wind columns are recomputed
      from the bearing, every other field is s's. */
  predicate AnnotatedFrom(s: Segment, a: Segment, wind: real)
  {
    && a.angleToWind == Some(AngleToWind(s.bearing, wind))
    && a.tack == Some(DetermineTack(s.bearing, wind))
    && a.direction.Some?
    && (a.direction == Some(Upwind) <==> AngleToWind(s.bearing, wind) < 90.0)
    && a.(angleToWind := s.angleToWind, tack := s.tack, direction := s.direction) == s
  }

  /** `analyze_wind_angles`: a copy of the frame with the columns angle_to_wind,
      direction and tack (re)computed for every row. */
  function AnalyzeWindAngles(segments: Frame<Segment>, wind: real): (r: Frame<Segment>)
    requires BearingCol in segments.columns
    ensures r.columns == segments.columns + {AngleToWindCol, DirectionCol, TackCol}
    ensures |r.rows| == |segments.rows|
    ensures forall i :: 0 <= i < |r.rows| ==> AnnotatedFrom(segments.rows[i], r.rows[i], wind)
  {
    Frame(segments.columns + {AngleToWindCol, DirectionCol, TackCol}, AnnotateRows(segments.rows, wind))
  }

  function AnnotateRows(rows: seq<Segment>, wind: real): (r: seq<Segment>)
    ensures |r| == |rows|
    ensures forall i :: 0 <= i < |rows| ==> r[i] == Annotate(rows[i], wind)
  {
    if rows == [] then [] else [Annotate(rows[0], wind)] + AnnotateRows(rows[1..], wind)
  }

  /** Annotating again against another wind discards the previous annotation entirely. */
  lemma AnalyzeRecomputes(segments: Frame<Segment>, wind1: real, wind2: real)
    requires BearingCol in segments.columns
    ensures AnalyzeWindAngles(AnalyzeWindAngles(segments, wind1), wind2) == AnalyzeWindAngles(segments, wind2)
  {
    var a := AnalyzeWindAngles(segments, wind1);
    var l, r := AnalyzeWindAngles(a, wind2), AnalyzeWindAngles(segments, wind2);
    assert l.columns == r.columns;
    assert forall i :: 0 <= i < |l.rows| ==> l.rows[i] == r.rows[i];
  }

  // ---------------------------------------------------------------------
  // VMG

  /** `calculate_vmg`: speed times |cos(angle)|; `cosDeg` is the cosine of an angle in degrees. */
  function Vmg(speed: real, angle: real, cosDeg: real -> real): real
  {
    speed * Abs(cosDeg(angle))
  }

  /** VMG is never negative and never exceeds the boat speed. */
  lemma VmgBetween(speed: real, angle: real, cosDeg: real -> real)
    requires -1.0 <= cosDeg(angle) <= 1.0 && speed >= 0.0
    ensures 0.0 <= Vmg(speed, angle, cosDeg) <= speed
  {
    var c := Abs(cosDeg(angle));
    MulBetween(c, speed, 0.0, 1.0);
    assert Vmg(speed, angle, cosDeg) == c * speed;
  }

  function AngleOf(s: Segment): real
  {
    s.angleToWind.GetOr(0.0)
  }

  function SegDistance(s: Segment): real
  {
    s.distance
  }

  function SegSpeed(s: Segment): real
  {
    s.avgSpeedKnots
  }

  function SegDuration(s: Segment): real
  {
    s.duration
  }

  predicate AllAnnotated(rows: seq<Segment>)
  {
    forall i :: 0 <= i < |rows| ==> rows[i].angleToWind.Some?
  }

  /** The outcome `calculate_vmg_upwind`/`_downwind` promise: (0.0, []) for an empty frame;
      a KeyError for the first column the computation reads that the frame lacks
      (the speed and angle of each row, then the distances); otherwise one VMG per
      row, in order, and their distance-weighted mean (a ZeroDivisionError when the
      distances sum to zero). */
  predicate IsVmgSummary(segments: Frame<Segment>, cosDeg: real -> real, r: Result<(real, seq<real>)>)
  {
    if segments.IsEmpty() then r == Success((0.0, []))
    else if AvgSpeedCol !in segments.columns then r == Failure("KeyError: 'avg_speed_knots'")
    else if AngleToWindCol !in segments.columns then r == Failure("KeyError: 'angle_to_wind'")
    else if DistanceCol !in segments.columns then r == Failure("KeyError: 'distance'")
    else
      var weights := MapReal(segments.rows, SegDistance);
      && (r.Success? ==>
            (&& |r.value.1| == |segments.rows|
             && (forall i :: 0 <= i < |segments.rows| ==>
                  r.value.1[i] == Vmg(segments.rows[i].avgSpeedKnots, AngleOf(segments.rows[i]), cosDeg))
             && WeightedAverage(r.value.1, weights) == Some(r.value.0)))
      && (r.Failure? <==> SumReals(weights) == 0.0)
  }

  method VmgOfSegments(segments: Frame<Segment>, cosDeg: real -> real) returns (r: Result<(real, seq<real>)>)
    requires AngleToWindCol in segments.columns ==> AllAnnotated(segments.rows)
    ensures IsVmgSummary(segments, cosDeg, r)
  {
    if segments.IsEmpty() {
      return Success((0.0, []));
    }
    if AvgSpeedCol !in segments.columns {
      return Failure("KeyError: 'avg_speed_knots'");
    }
    if AngleToWindCol !in segments.columns {
      return Failure("KeyError: 'angle_to_wind'");
    }
    var values: seq<real> := [];
    for i := 0 to |segments.rows|
      invariant |values| == i
      invariant forall k :: 0 <= k < i ==>
        values[k] == Vmg(segments.rows[k].avgSpeedKnots, AngleOf(segments.rows[k]), cosDeg)
    {
      var s := segments.rows[i];
      values := values + [Vmg(s.avgSpeedKnots, s.angleToWind.value, cosDeg)];
    }
    if DistanceCol !in segments.columns {
      return Failure("KeyError: 'distance'");
    }
    var weights := MapReal(segments.rows, SegDistance);
    var avg := WeightedAverage(values, weights);
    if avg.None? {
      return Failure("ZeroDivisionError: Weights sum to zero, can't be normalized");
    }
    return Success((avg.value, values));
  }

  /** `calculate_vmg_upwind`. */
  method CalculateVmgUpwind(segments: Frame<Segment>, cosDeg: real -> real) returns (r: Result<(real, seq<real>)>)
    requires AngleToWindCol in segments.columns ==> AllAnnotated(segments.rows)
    ensures IsVmgSummary(segments, cosDeg, r)
  {
    r := VmgOfSegments(segments, cosDeg);
  }

  /** `calculate_vmg_downwind`: the same computation as upwind. */
  method CalculateVmgDownwind(segments: Frame<Segment>, cosDeg: real -> real) returns (r: Result<(real, seq<real>)>)
    requires AngleToWindCol in segments.columns ==> AllAnnotated(segments.rows)
    ensures IsVmgSummary(segments, cosDeg, r)
  {
    r := VmgOfSegments(segments, cosDeg);
  }

  /** With non-negative speeds and distances and a cosine bounded by 1, the
      average VMG lies between 0 and the fastest segment's speed. */
  lemma VmgAverageBounded(segments: Frame<Segment>, cosDeg: real -> real, r: Result<(real, seq<real>)>, top: real)
    requires IsVmgSummary(segments, cosDeg, r) && r.Success? && !segments.IsEmpty()
    requires forall x :: -1.0 <= cosDeg(x) <= 1.0
    requires forall i :: 0 <= i < |segments.rows| ==>
      0.0 <= segments.rows[i].avgSpeedKnots <= top && segments.rows[i].distance >= 0.0
    ensures 0.0 <= r.value.0 <= top
  {
    var weights := MapReal(segments.rows, SegDistance);
    var v := r.value.1;
    forall i | 0 <= i < |v| ensures 0.0 <= v[i] <= top && weights[i] >= 0.0 {
      var s := segments.rows[i];
      VmgBetween(s.avgSpeedKnots, AngleOf(s), cosDeg);
    }
    assert SumReals(weights) != 0.0;
    SumRealsBounds(weights, 0.0, MaxOf(weights));
    WeightedAverageBetween(v, weights, 0.0, top);
  }

  // ---------------------------------------------------------------------
  // Segment quality

  /** One metric scaled by the column maximum, or 1.0 when that maximum is not positive. */
  function Normalized(x: real, columnMax: real): real
  {
    if columnMax > 0.0 then x / columnMax else 1.0
  }

  function QualityOf(s: Segment, maxDistance: real, maxSpeed: real, maxDuration: real): real
  {
    C.QualityWeightDistance * Normalized(s.distance, maxDistance)
    + C.QualityWeightSpeed * Normalized(s.avgSpeedKnots, maxSpeed)
    + C.QualityWeightDuration * Normalized(s.duration, maxDuration)
  }

  function QualityRows(rows: seq<Segment>, maxDistance: real, maxSpeed: real, maxDuration: real): (r: seq<real>)
    ensures |r| == |rows|
    ensures forall i :: 0 <= i < |rows| ==> r[i] == QualityOf(rows[i], maxDistance, maxSpeed, maxDuration)
  {
    if rows == [] then [] else [QualityOf(rows[0], maxDistance, maxSpeed, maxDuration)] + QualityRows(rows[1..], maxDistance, maxSpeed, maxDuration)
  }

  /** `calculate_segment_quality_score`: an empty series for an empty frame, else one score per row. */
  function SegmentQualityScores(segments: Frame<Segment>): (r: seq<real>)
    requires !segments.IsEmpty() ==> {DistanceCol, AvgSpeedCol, DurationCol} <= segments.columns
    ensures segments.IsEmpty() ==> r == []
    ensures !segments.IsEmpty() ==> |r| == |segments.rows|
  {
    if segments.IsEmpty() then []
    else
      var rows := segments.rows;
      QualityRows(rows, MaxOf(MapReal(rows, SegDistance)), MaxOf(MapReal(rows, SegSpeed)), MaxOf(MapReal(rows, SegDuration)))
  }

  lemma NormalizedInUnit(x: real, columnMax: real)
    requires 0.0 <= x <= columnMax || columnMax <= 0.0
    ensures 0.0 <= Normalized(x, columnMax) <= 1.0
  {
    if columnMax > 0.0 {
      DivBetween(x, columnMax, 0.0, 1.0);
    }
  }

  /** With non-negative distances, speeds and durations every score is in [0, 1]
      (the three weights sum to 1). */
  lemma QualityScoreInUnit(segments: Frame<Segment>, i: nat)
    requires !segments.IsEmpty() && {DistanceCol, AvgSpeedCol, DurationCol} <= segments.columns
    requires i < |segments.rows|
    requires forall k :: 0 <= k < |segments.rows| ==>
      segments.rows[k].distance >= 0.0 && segments.rows[k].avgSpeedKnots >= 0.0 && segments.rows[k].duration >= 0.0
    ensures 0.0 <= SegmentQualityScores(segments)[i] <= 1.0
  {
    var rows := segments.rows;
    var s := rows[i];
    var md, ms, mu := MaxOf(MapReal(rows, SegDistance)), MaxOf(MapReal(rows, SegSpeed)), MaxOf(MapReal(rows, SegDuration));
    assert MapReal(rows, SegDistance)[i] == s.distance;
    assert MapReal(rows, SegSpeed)[i] == s.avgSpeedKnots;
    assert MapReal(rows, SegDuration)[i] == s.duration;
    NormalizedInUnit(s.distance, md);
    NormalizedInUnit(s.avgSpeedKnots, ms);
    NormalizedInUnit(s.duration, mu);
  }

  /** A segment that is the longest, the fastest and the longest-lasting scores exactly 1. */
  lemma QualityScoreOfBest(segments: Frame<Segment>, i: nat)
    requires !segments.IsEmpty() && {DistanceCol, AvgSpeedCol, DurationCol} <= segments.columns
    requires i < |segments.rows|
    requires forall k :: 0 <= k < |segments.rows| ==>
      segments.rows[k].distance <= segments.rows[i].distance
      && segments.rows[k].avgSpeedKnots <= segments.rows[i].avgSpeedKnots
      && segments.rows[k].duration <= segments.rows[i].duration
    ensures SegmentQualityScores(segments)[i] == 1.0
  {
    var rows := segments.rows;
    var s := rows[i];
    MaxOfAttained(MapReal(rows, SegDistance), i);
    MaxOfAttained(MapReal(rows, SegSpeed), i);
    MaxOfAttained(MapReal(rows, SegDuration), i);
    var md, ms, mu := MaxOf(MapReal(rows, SegDistance)), MaxOf(MapReal(rows, SegSpeed)), MaxOf(MapReal(rows, SegDuration));
    assert Normalized(s.distance, md) == 1.0;
    assert Normalized(s.avgSpeedKnots, ms) == 1.0;
    assert Normalized(s.duration, mu) == 1.0;
    assert SegmentQualityScores(segments)[i] == QualityOf(s, md, ms, mu);
  }

  lemma MaxOfAttained(v: seq<real>, i: nat)
    requires i < |v| && forall k :: 0 <= k < |v| ==> v[k] <= v[i]
    ensures MaxOf(v) == v[i]
  {
    MaxOfIsElement(v);
  }

  // ---------------------------------------------------------------------
  // Per-tack average angles

  datatype AverageAngles = AverageAngles(
    averageAngle: Option<real>,
    portAverage: Option<real>,
    starboardAverage: Option<real>,
    selectedBearings: seq<real>,
    portCount: nat,
    starboardCount: nat)

  predicate IsPortRow(s: Segment)
  {
    s.tack == Some(Port)
  }

  predicate IsStarboardRow(s: Segment)
  {
    s.tack == Some(Starboard)
  }

  function SegBearing(s: Segment): real
  {
    s.bearing
  }

  /** The distance-weighted mean angle of one tack's rows: None for no rows, a
      failure when their distances sum to zero. */
  function TackAverage(rows: seq<Segment>): Result<Option<real>>
  {
    if rows == [] then Success(None)
    else
      match WeightedAverage(MapReal(rows, AngleOf), MapReal(rows, SegDistance))
      case None => Failure("ZeroDivisionError: Weights sum to zero, can't be normalized")
      case Some(a) => Success(Some(a))
  }

  function CombineTacks(port: Option<real>, starboard: Option<real>): Option<real>
  {
    if port.Some? && starboard.Some? then Some((port.value + starboard.value) / 2.0)
    else if port.Some? then port
    else starboard
  }

  /** `calculate_average_angle_from_segments`. */
  function AverageAngleFromSegments(segments: Frame<Segment>): (r: Result<AverageAngles>)
    requires !segments.IsEmpty() ==> TackCol in segments.columns
    requires (exists i :: 0 <= i < |segments.rows| && segments.rows[i].tack.Some?) ==>
      {AngleToWindCol, DistanceCol, BearingCol} <= segments.columns
    ensures segments.IsEmpty() ==> r == Success(AverageAngles(None, None, None, [], 0, 0))
    ensures r.Success? && !segments.IsEmpty() ==>
      && r.value.portCount == |Filter(segments.rows, IsPortRow)|
      && r.value.starboardCount == |Filter(segments.rows, IsStarboardRow)|
      && (r.value.portAverage.Some? <==> r.value.portCount > 0)
      && (r.value.starboardAverage.Some? <==> r.value.starboardCount > 0)
      && r.value.averageAngle == CombineTacks(r.value.portAverage, r.value.starboardAverage)
      && r.value.selectedBearings ==
           MapReal(Filter(segments.rows, IsPortRow), SegBearing) + MapReal(Filter(segments.rows, IsStarboardRow), SegBearing)
  {
    if segments.IsEmpty() then Success(AverageAngles(None, None, None, [], 0, 0))
    else
      var port := Filter(segments.rows, IsPortRow);
      var starboard := Filter(segments.rows, IsStarboardRow);
      match (TackAverage(port), TackAverage(starboard))
      case (Failure(e), _) => Failure(e)
      case (_, Failure(e)) => Failure(e)
      case (Success(p), Success(s)) =>
        Success(AverageAngles(CombineTacks(p, s), p, s,
                              MapReal(port, SegBearing) + MapReal(starboard, SegBearing), |port|, |starboard|))
  }

  /** The combined average of two tack averages lies between them. */
  lemma CombineTacksBetween(p: real, s: real)
    ensures Min(p, s) <= CombineTacks(Some(p), Some(s)).value <= Max(p, s)
  {
  }

  /** A tack average with positive total distance lies within that tack's angles. */
  lemma TackAverageWithinAngles(rows: seq<Segment>, lo: real, hi: real)
    requires rows != []
    requires forall i :: 0 <= i < |rows| ==> lo <= AngleOf(rows[i]) <= hi && rows[i].distance >= 0.0
    requires SumReals(MapReal(rows, SegDistance)) > 0.0
    ensures TackAverage(rows).Success? && TackAverage(rows).value.Some?
    ensures lo <= TackAverage(rows).value.value <= hi
  {
    var v, w := MapReal(rows, AngleOf), MapReal(rows, SegDistance);
    forall i | 0 <= i < |v| ensures lo <= v[i] <= hi && w[i] >= 0.0 {
      assert v[i] == AngleOf(rows[i]) && w[i] == SegDistance(rows[i]);
    }
    WeightedAverageBetween(v, w, lo, hi);
    assert TackAverage(rows) == Success(Some(WeightedAverage(v, w).value));
  }
}
