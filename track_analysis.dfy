/** The shared analysis pipeline of backend/services/track_analysis_service.py:
    segment detection, the speed filter, the optional time and box filters, the
    wind estimate, re-annotation against the estimated wind, and the summary
    metrics a `TrackAnalysisResult` derives from its segments. */
module TrackAnalysis {
  import opened Wrappers
  import opened PyNum
  import opened Seqs
  import opened Frames
  import opened SegmentModel
  import Calculations
  import Detector
  import Filtering
  import Validation
  import WindAlgorithms
  import WindFactory
  import C = Constants

  /** The collaborators the pipeline calls but this model does not define: the
      geodesic bearing and distance between two fixes, the suspicious-segment flag
      of the wind estimator, and the two VMG helpers of `core.metrics_advanced`
      (each returns a VMG, if any, and the indices of the segments it used). */
  datatype Collaborators = Collaborators(
    bearingOf: (TrackPoint, TrackPoint) -> real,
    distanceOf: (TrackPoint, TrackPoint) -> real,
    suspicious: WindAlgorithms.Suspicion,
    sessionVmgOf: Frame<Segment> -> (Option<real>, seq<int>),
    bestVmgOf: (Frame<Segment>, real) -> (Option<real>, seq<int>))

  // ---------------------------------------------------------------------
  // Summary metrics

  /** `direction.str.lower() == 'upwind'`; a missing direction compares unequal. */
  predicate IsUpwindSegment(s: Segment)
  {
    s.direction == Some(Upwind)
  }

  predicate IsDownwindSegment(s: Segment)
  {
    s.direction == Some(Downwind)
  }

  /** The rows of one direction, keeping the frame's columns; `pd.DataFrame()` when
      the segments are empty or carry no direction column. */
  function DirectionSubset(segments: Frame<Segment>, d: Direction): (r: Frame<Segment>)
  {
    if segments.IsEmpty() || DirectionCol !in segments.columns then EmptyFrame()
    else segments.WithRows(Filter(segments.rows, (s: Segment) => s.direction == Some(d)))
  }

  function UpwindOf(segments: Frame<Segment>): Frame<Segment>
  {
    DirectionSubset(segments, Upwind)
  }

  function DownwindOf(segments: Frame<Segment>): Frame<Segment>
  {
    DirectionSubset(segments, Downwind)
  }

  /** The upwind subset holds exactly the upwind rows and the downwind subset exactly the
      downwind rows (given a direction column and rows), so no segment is in both. */
  lemma DirectionSubsetsExactly(segments: Frame<Segment>, s: Segment)
    ensures s in UpwindOf(segments).rows <==>
              !segments.IsEmpty() && DirectionCol in segments.columns && s in segments.rows && IsUpwindSegment(s)
    ensures s in DownwindOf(segments).rows <==>
              !segments.IsEmpty() && DirectionCol in segments.columns && s in segments.rows && IsDownwindSegment(s)
    ensures !(s in UpwindOf(segments).rows && s in DownwindOf(segments).rows)
  {
    if !segments.IsEmpty() && DirectionCol in segments.columns {
      FilterMember(segments.rows, (x: Segment) => x.direction == Some(Upwind), s);
      FilterMember(segments.rows, (x: Segment) => x.direction == Some(Downwind), s);
    }
  }

  /** Both subsets keep the order of the segments they come from. */
  lemma DirectionSubsetsOrdered(segments: Frame<Segment>)
    ensures Subseq(UpwindOf(segments).rows, segments.rows)
    ensures Subseq(DownwindOf(segments).rows, segments.rows)
  {
    if !segments.IsEmpty() && DirectionCol in segments.columns {
      FilterSubseq(segments.rows, (x: Segment) => x.direction == Some(Upwind));
      FilterSubseq(segments.rows, (x: Segment) => x.direction == Some(Downwind));
    }
  }

  /** A row of the tack whose angle `idxmin` can compare (NaN angles are skipped). */
  function OnTackWithAngle(tack: Tack): Segment -> bool
  {
    (s: Segment) => s.tack == Some(tack) && s.angleToWind.Some?
  }

  /** `upwind[upwind['tack'] == tack]['angle_to_wind'].idxmin()`: the angle and speed
      of the first segment with the least angle, or None when there is none. */
  function BestOfTack(upwind: seq<Segment>, tack: Tack): Option<(real, real)>
  {
    var rows := Filter(upwind, OnTackWithAngle(tack));
    if rows == [] then None
    else
      var best := rows[ArgMin(rows, Calculations.AngleOf)];
      Some((Calculations.AngleOf(best), best.avgSpeedKnots))
  }

  /** The best angle of a tack is that of the first segment of the tack with the least
      angle, and the best speed is the speed of that same segment; there is none
      exactly when no segment of the tack has an angle. */
  lemma BestOfTackIsFirstMinimum(upwind: seq<Segment>, tack: Tack)
    ensures BestOfTack(upwind, tack).None? <==> forall s :: s in upwind ==> !OnTackWithAngle(tack)(s)
    ensures BestOfTack(upwind, tack).Some? ==>
              exists k :: FirstMin(upwind, OnTackWithAngle(tack), Calculations.AngleOf, k)
                && BestOfTack(upwind, tack).value == (upwind[k].angleToWind.value, upwind[k].avgSpeedKnots)
  {
    var p := OnTackWithAngle(tack);
    var rows := Filter(upwind, p);
    forall s | s in upwind
      ensures s in rows <==> p(s)
    {
      FilterMember(upwind, p, s);
    }
    if rows != [] {
      FilterArgMinFirst(upwind, p, Calculations.AngleOf);
    }
  }

  function BestAngleOf(best: Option<(real, real)>): Option<real>
  {
    if best.None? then None else Some(best.value.0)
  }

  function BestSpeedOf(best: Option<(real, real)>): Option<real>
  {
    if best.None? then None else Some(best.value.1)
  }

  function HasAngle(s: Segment): bool
  {
    s.angleToWind.Some?
  }

  /** `upwind['angle_to_wind'].mean()`: the mean over the angles present; None when
      there are no upwind segments or none has an angle. */
  function AvgUpwindAngleOf(segments: Frame<Segment>): Option<real>
  {
    var up := UpwindOf(segments);
    var angles := MapReal(Filter(up.rows, HasAngle), Calculations.AngleOf);
    if up.IsEmpty() || angles == [] then None else Some(Mean(angles))
  }

  /** `segments['distance'].sum() / 1000`, or 0 without segments or column. */
  function TotalDistanceOf(segments: Frame<Segment>): real
  {
    if segments.IsEmpty() || DistanceCol !in segments.columns then 0.0
    else Sum(segments.rows, Calculations.SegDistance) / 1000.0
  }

  /** `segments['avg_speed_knots'].mean()`, or 0 without segments or column. */
  function AvgSpeedOf(segments: Frame<Segment>): real
  {
    if segments.IsEmpty() || AvgSpeedCol !in segments.columns then 0.0
    else Mean(MapReal(segments.rows, Calculations.SegSpeed))
  }

  /** `segments['avg_speed_knots'].max()`, or 0 without segments or column. */
  function MaxSpeedOf(segments: Frame<Segment>): real
  {
    if segments.IsEmpty() || AvgSpeedCol !in segments.columns then 0.0
    else MaxOf(MapReal(segments.rows, Calculations.SegSpeed))
  }

  /** The fastest segment is at least as fast as the mean, and every segment's speed
      lies at or below the maximum. */
  lemma MaxSpeedAtLeastMean(segments: Frame<Segment>)
    ensures MaxSpeedOf(segments) >= AvgSpeedOf(segments)
    ensures !segments.IsEmpty() && AvgSpeedCol in segments.columns ==>
              forall s :: s in segments.rows ==> s.avgSpeedKnots <= MaxSpeedOf(segments)
  {
    if !segments.IsEmpty() && AvgSpeedCol in segments.columns {
      var speeds := MapReal(segments.rows, Calculations.SegSpeed);
      MeanBetweenMinMax(speeds);
      forall s | s in segments.rows
        ensures s.avgSpeedKnots <= MaxOf(speeds)
      {
        var i :| 0 <= i < |segments.rows| && segments.rows[i] == s;
        assert speeds[i] == s.avgSpeedKnots;
      }
    }
  }

  /** With non-negative segment distances the total distance is non-negative. */
  lemma TotalDistanceNonNegative(segments: Frame<Segment>)
    requires forall s :: s in segments.rows ==> s.distance >= 0.0
    ensures TotalDistanceOf(segments) >= 0.0
  {
    if !segments.IsEmpty() && DistanceCol in segments.columns {
      SumNonNegative(segments.rows, Calculations.SegDistance);
    }
  }

  /** The VMG pair of one helper, or (None, []) without upwind segments. */
  function SessionVmgOf(segments: Frame<Segment>, env: Collaborators): (Option<real>, seq<int>)
  {
    var up := UpwindOf(segments);
    if up.IsEmpty() then (None, []) else env.sessionVmgOf(up)
  }

  function BestVmgOf(segments: Frame<Segment>, fraction: real, env: Collaborators): (Option<real>, seq<int>)
  {
    var up := UpwindOf(segments);
    if up.IsEmpty() then (None, []) else env.bestVmgOf(up, fraction)
  }

  /** What `_calculate_summary_metrics` reads of its segments without a KeyError: the
      tack and angle columns once there is an upwind segment, and the speed column once
      an upwind segment is on a tack (its best segment's speed is read). */
  predicate Summarisable(segments: Frame<Segment>)
  {
    && (!UpwindOf(segments).IsEmpty() ==> TackCol in segments.columns && AngleToWindCol in segments.columns)
    && ((exists s :: s in UpwindOf(segments).rows && s.tack.Some?) ==> AvgSpeedCol in segments.columns)
  }

  /** The values `_calculate_summary_metrics` assigns, one per attribute (the legacy
      `vmg_upwind` pair is a copy of the session VMG pair and is not repeated). */
  datatype SummaryMetrics = SummaryMetrics(
    upwind: Frame<Segment>,
    downwind: Frame<Segment>,
    sessionVmg: (Option<real>, seq<int>),
    bestVmg: (Option<real>, seq<int>),
    bestPort: Option<(real, real)>,
    bestStarboard: Option<(real, real)>,
    totalDistance: real,
    avgSpeed: real,
    maxSpeed: real,
    avgUpwindAngle: Option<real>)

  /** What `_calculate_summary_metrics` computes, branch by branch: the empty summary for
      empty segments; otherwise the direction subsets, the VMG helpers and the best angle of
      each tack only when there is an upwind segment, and the totals. The source leaves the
      segment-id lists, the best speeds and the mean upwind angle unset on empty segments;
      here they take the values of an empty summary. */
  function SummaryOf(segments: Frame<Segment>, fraction: real, env: Collaborators): SummaryMetrics
  {
    if segments.IsEmpty() then
      SummaryMetrics(EmptyFrame(), EmptyFrame(), (None, []), (None, []), None, None, 0.0, 0.0, 0.0, None)
    else
      var upwind := UpwindOf(segments);
      var hasUpwind := !upwind.IsEmpty();
      SummaryMetrics(
        upwind,
        DownwindOf(segments),
        if hasUpwind then env.sessionVmgOf(upwind) else (None, []),
        if hasUpwind then env.bestVmgOf(upwind, fraction) else (None, []),
        if hasUpwind then BestOfTack(upwind.rows, Port) else None,
        if hasUpwind then BestOfTack(upwind.rows, Starboard) else None,
        TotalDistanceOf(segments),
        AvgSpeedOf(segments),
        MaxSpeedOf(segments),
        AvgUpwindAngleOf(segments))
  }

  /** Whatever branch `_calculate_summary_metrics` takes, each metric is the one its
      segments define: the subsets are the direction subsets, the VMG pairs are the helpers'
      on a non-empty upwind subset (None and no ids otherwise), the best angle and speed of a
      tack come from its first least-angle upwind segment, and the totals are over all
      segments; with empty segments every metric is empty or zero. */
  lemma {:induction false} SummaryOfMeans(segments: Frame<Segment>, fraction: real, env: Collaborators)
    ensures var m := SummaryOf(segments, fraction, env);
      && m.upwind == UpwindOf(segments)
      && m.downwind == DownwindOf(segments)
      && m.sessionVmg == SessionVmgOf(segments, env)
      && m.bestVmg == BestVmgOf(segments, fraction, env)
      && m.bestPort == BestOfTack(m.upwind.rows, Port)
      && m.bestStarboard == BestOfTack(m.upwind.rows, Starboard)
      && m.totalDistance == TotalDistanceOf(segments)
      && m.avgSpeed == AvgSpeedOf(segments)
      && m.maxSpeed == MaxSpeedOf(segments)
      && m.avgUpwindAngle == AvgUpwindAngleOf(segments)
    ensures segments.IsEmpty() ==>
              SummaryOf(segments, fraction, env) ==
              SummaryMetrics(EmptyFrame(), EmptyFrame(), (None, []), (None, []), None, None, 0.0, 0.0, 0.0, None)
  {
    UpwindEmptyHasNoRows(segments);
    if segments.IsEmpty() {
      EmptySummary(segments, fraction, env);
    }
  }

  /** The container of one analysis. */
  class TrackAnalysisResult {
    const trackData: Frame<TrackPoint>
    const segments: Frame<Segment>
    const metadata: map<string, string>
    const initialWind: real
    const refinedWind: real
    const windConfidence: string
    const filename: string
    const bestAttemptsFraction: real

    var upwindSegments: Frame<Segment>
    var downwindSegments: Frame<Segment>
    var sessionVmg: Option<real>
    var sessionVmgSegmentIds: seq<int>
    var bestVmg: Option<real>
    var bestVmgSegmentIds: seq<int>
    var vmgUpwind: Option<real>
    var vmgSegmentIds: seq<int>
    var bestPortAngle: Option<real>
    var bestStarboardAngle: Option<real>
    var bestPortSpeed: Option<real>
    var bestStarboardSpeed: Option<real>
    var totalDistance: real
    var avgSpeed: real
    var maxSpeed: real
    var avgUpwindAngle: Option<real>

    /** The derived attributes hold the metrics `m`; the legacy `vmg_upwind` pair repeats
        the session VMG pair. */
    predicate Holds(m: SummaryMetrics)
      reads this
    {
      && upwindSegments == m.upwind && downwindSegments == m.downwind
      && (sessionVmg, sessionVmgSegmentIds) == m.sessionVmg
      && (bestVmg, bestVmgSegmentIds) == m.bestVmg
      && vmgUpwind == sessionVmg && vmgSegmentIds == sessionVmgSegmentIds
      && bestPortAngle == BestAngleOf(m.bestPort) && bestPortSpeed == BestSpeedOf(m.bestPort)
      && bestStarboardAngle == BestAngleOf(m.bestStarboard) && bestStarboardSpeed == BestSpeedOf(m.bestStarboard)
      && totalDistance == m.totalDistance && avgSpeed == m.avgSpeed && maxSpeed == m.maxSpeed
      && avgUpwindAngle == m.avgUpwindAngle
    }

    /** The derived attributes hold the summary of the stored segments. */
    predicate Summarised(env: Collaborators)
      reads this
    {
      Holds(SummaryOf(segments, bestAttemptsFraction, env))
    }

    /** `TrackAnalysisResult.__init__`: stores its arguments, then derives the summary. */
    constructor(trackData: Frame<TrackPoint>, segments: Frame<Segment>, metadata: map<string, string>,
                initialWind: real, refinedWind: real, windConfidence: string, filename: string,
                bestAttemptsFraction: real, env: Collaborators)
      requires Summarisable(segments)
      ensures this.trackData == trackData && this.segments == segments && this.metadata == metadata
      ensures this.initialWind == initialWind && this.refinedWind == refinedWind
      ensures this.windConfidence == windConfidence && this.filename == filename
      ensures this.bestAttemptsFraction == bestAttemptsFraction
      ensures Summarised(env)
    {
      this.trackData := trackData;
      this.segments := segments;
      this.metadata := metadata;
      this.initialWind := initialWind;
      this.refinedWind := refinedWind;
      this.windConfidence := windConfidence;
      this.filename := filename;
      this.bestAttemptsFraction := bestAttemptsFraction;
      new;
      CalculateSummaryMetrics(env);
    }

    /** `_calculate_summary_metrics`: sets the derived attributes one after another. The
        tack and angle columns it reads are required once there is an upwind segment. */
    method CalculateSummaryMetrics(env: Collaborators)
      requires Summarisable(segments)
      modifies this
      ensures Summarised(env)
    {
      Store(SummaryOf(segments, bestAttemptsFraction, env));
    }

    /** Sets the derived attributes to `m`, one group of attributes after another. */
    method Store(m: SummaryMetrics)
      modifies this
      ensures Holds(m)
    {
      StoreSplits(m.upwind, m.downwind);
      StoreVmg(m.sessionVmg, m.bestVmg);
      StoreBestAngles(m.bestPort, m.bestStarboard);
      StoreTotals(m.totalDistance, m.avgSpeed, m.maxSpeed, m.avgUpwindAngle);
    }

    /** Sets the direction subsets. */
    method StoreSplits(upwind: Frame<Segment>, downwind: Frame<Segment>)
      modifies this`upwindSegments, this`downwindSegments
      ensures upwindSegments == upwind && downwindSegments == downwind
    {
      upwindSegments, downwindSegments := upwind, downwind;
    }

    /** Sets the session and best-attempts VMG pairs, and the legacy pair to the session pair. */
    method StoreVmg(session: (Option<real>, seq<int>), best: (Option<real>, seq<int>))
      modifies this`sessionVmg, this`sessionVmgSegmentIds, this`bestVmg, this`bestVmgSegmentIds,
               this`vmgUpwind, this`vmgSegmentIds
      ensures (sessionVmg, sessionVmgSegmentIds) == session && (bestVmg, bestVmgSegmentIds) == best
      ensures vmgUpwind == sessionVmg && vmgSegmentIds == sessionVmgSegmentIds
    {
      sessionVmg, sessionVmgSegmentIds := session.0, session.1;
      bestVmg, bestVmgSegmentIds := best.0, best.1;
      vmgUpwind, vmgSegmentIds := session.0, session.1;
    }

    /** Sets the best angle and its speed of each tack. */
    method StoreBestAngles(port: Option<(real, real)>, starboard: Option<(real, real)>)
      modifies this`bestPortAngle, this`bestPortSpeed, this`bestStarboardAngle, this`bestStarboardSpeed
      ensures bestPortAngle == BestAngleOf(port) && bestPortSpeed == BestSpeedOf(port)
      ensures bestStarboardAngle == BestAngleOf(starboard) && bestStarboardSpeed == BestSpeedOf(starboard)
    {
      bestPortAngle, bestPortSpeed := BestAngleOf(port), BestSpeedOf(port);
      bestStarboardAngle, bestStarboardSpeed := BestAngleOf(starboard), BestSpeedOf(starboard);
    }

    /** Sets the basic metrics. */
    method StoreTotals(total: real, avg: real, max: real, avgAngle: Option<real>)
      modifies this`totalDistance, this`avgSpeed, this`maxSpeed, this`avgUpwindAngle
      ensures totalDistance == total && avgSpeed == avg && maxSpeed == max && avgUpwindAngle == avgAngle
    {
      totalDistance, avgSpeed, maxSpeed, avgUpwindAngle := total, avg, max, avgAngle;
    }
  }

  /** An empty upwind subset has no rows, so neither tack has a best segment. */
  lemma UpwindEmptyHasNoRows(segments: Frame<Segment>)
    ensures UpwindOf(segments).IsEmpty() <==> UpwindOf(segments).rows == []
    ensures UpwindOf(segments).rows == [] ==>
              BestOfTack(UpwindOf(segments).rows, Port).None? && BestOfTack(UpwindOf(segments).rows, Starboard).None?
  {
  }

  /** Empty segments give the empty summary: no subsets, no VMG, no best angles, zero totals. */
  lemma EmptySummary(segments: Frame<Segment>, fraction: real, env: Collaborators)
    requires segments.IsEmpty()
    ensures UpwindOf(segments) == EmptyFrame() && DownwindOf(segments) == EmptyFrame()
    ensures SessionVmgOf(segments, env) == (None, []) && BestVmgOf(segments, fraction, env) == (None, [])
    ensures BestOfTack(UpwindOf(segments).rows, Port).None? && BestOfTack(UpwindOf(segments).rows, Starboard).None?
    ensures TotalDistanceOf(segments) == 0.0 && AvgSpeedOf(segments) == 0.0 && MaxSpeedOf(segments) == 0.0
    ensures AvgUpwindAngleOf(segments).None?
  {
  }

  /** On segments annotated against a wind, every upwind angle the summary reports, the
      best per tack and the mean, lies in [0, 90). */
  lemma AnnotatedSummaryAngles(stretches: Frame<Segment>, wind: real, tack: Tack)
    requires BearingCol in stretches.columns
    ensures var up := UpwindOf(Calculations.AnalyzeWindAngles(stretches, wind)).rows;
            BestOfTack(up, tack).Some? ==> 0.0 <= BestOfTack(up, tack).value.0 < 90.0
    ensures var avg := AvgUpwindAngleOf(Calculations.AnalyzeWindAngles(stretches, wind));
            avg.Some? ==> 0.0 <= avg.value < 90.0
  {
    var segments := Calculations.AnalyzeWindAngles(stretches, wind);
    var up := UpwindOf(segments).rows;
    forall s | s in up
      ensures s.angleToWind.Some? && 0.0 <= s.angleToWind.value < 90.0
    {
      DirectionSubsetsExactly(segments, s);
      var i :| 0 <= i < |segments.rows| && segments.rows[i] == s;
      assert Calculations.AnnotatedFrom(stretches.rows[i], s, wind);
    }
    var best := BestOfTack(up, tack);
    if best.Some? {
      BestOfTackIsFirstMinimum(up, tack);
    }
    var withAngle := Filter(up, HasAngle);
    var angles := MapReal(withAngle, Calculations.AngleOf);
    if angles != [] {
      forall i | 0 <= i < |angles|
        ensures 0.0 <= angles[i] < 90.0
      {
        assert withAngle[i] in up;
      }
      MeanBetweenMinMax(angles);
      MinOfIsElement(angles);
      MaxOfIsElement(angles);
    }
  }

  // ---------------------------------------------------------------------
  // analyze_track_data

  function FastEnough(minSpeed: real): Segment -> bool
  {
    (s: Segment) => s.avgSpeedKnots >= minSpeed
  }

  /** `segments[segments['avg_speed_knots'] >= min_speed]`, applied to non-empty segments only. */
  function SpeedFilter(segments: Frame<Segment>, minSpeed: real): Frame<Segment>
  {
    if segments.IsEmpty() then segments else segments.WithRows(Filter(segments.rows, FastEnough(minSpeed)))
  }

  /** The speed filter tests whole segments: it keeps exactly the segments at least as fast as
      the minimum, in their order, and keeps the columns. */
  lemma SpeedFilterExactly(segments: Frame<Segment>, minSpeed: real, s: Segment)
    requires !segments.IsEmpty()
    ensures s in SpeedFilter(segments, minSpeed).rows <==> s in segments.rows && s.avgSpeedKnots >= minSpeed
    ensures Subseq(SpeedFilter(segments, minSpeed).rows, segments.rows)
    ensures SpeedFilter(segments, minSpeed).columns == segments.columns
  {
    FilterMember(segments.rows, FastEnough(minSpeed), s);
    FilterSubseq(segments.rows, FastEnough(minSpeed));
  }

  /** The filtering steps before the wind estimate: speed, then time and box when any bound is given. */
  function FilterStage(detected: Frame<Segment>, track: Frame<TrackPoint>, minSpeed: real,
                       timeStart: Option<int>, timeEnd: Option<int>,
                       latBounds: Option<(real, real)>, lonBounds: Option<(real, real)>): (r: Frame<Segment>)
  {
    var fast := SpeedFilter(detected, minSpeed);
    if !fast.IsEmpty() && (timeStart.Some? || timeEnd.Some? || latBounds.Some? || lonBounds.Some?) then
      Filtering.ApplyFilters(fast, track, timeStart, timeEnd, latBounds, lonBounds)
    else fast
  }

  /** What survives filtering: detected segments, in order, each at least as fast as the
      minimum; the columns are the detector's. */
  lemma FilterStageKeepsFastDetected(detected: Frame<Segment>, track: Frame<TrackPoint>, minSpeed: real,
                                     timeStart: Option<int>, timeEnd: Option<int>,
                                     latBounds: Option<(real, real)>, lonBounds: Option<(real, real)>)
    ensures var r := FilterStage(detected, track, minSpeed, timeStart, timeEnd, latBounds, lonBounds);
            && Subseq(r.rows, detected.rows)
            && r.columns == detected.columns
            && (!detected.IsEmpty() ==> forall s :: s in r.rows ==> s.avgSpeedKnots >= minSpeed)
  {
    var fast := SpeedFilter(detected, minSpeed);
    var r := FilterStage(detected, track, minSpeed, timeStart, timeEnd, latBounds, lonBounds);
    if detected.IsEmpty() {
      SubseqRefl(detected.rows);
    } else {
      FilterSubseq(detected.rows, FastEnough(minSpeed));
      forall s | s in fast.rows
        ensures s.avgSpeedKnots >= minSpeed
      {
        FilterMember(detected.rows, FastEnough(minSpeed), s);
      }
      if r != fast {
        Filtering.ApplyFiltersSubseq(fast, track, timeStart, timeEnd, latBounds, lonBounds);
        SubseqTrans(r.rows, fast.rows, detected.rows);
        forall s | s in r.rows
          ensures s.avgSpeedKnots >= minSpeed
        {
          SubseqMember(r.rows, fast.rows, s);
        }
      }
    }
  }

  /** `segments['sailing_type'] = direction + ' ' + tack` when both columns exist; the
      value of the new column in a row is `SailingType` of that row. */
  function WithSailingType(segments: Frame<Segment>): Frame<Segment>
  {
    if DirectionCol in segments.columns && TackCol in segments.columns then
      Frame(segments.columns + {Other("sailing_type")}, segments.rows)
    else segments
  }

  function SailingType(s: Segment): string
    requires s.direction.Some? && s.tack.Some?
  {
    s.direction.value.Label() + " " + s.tack.value.Label()
  }

  /** The outcome of the stages after filtering: the final segments, the refined wind and
      the confidence label stored in the result. */
  datatype Staged = Staged(segments: Frame<Segment>, refinedWind: real, windConfidence: string)

  /** The parameters the service hands the estimator: `max_iterations` keeps its default. */
  function ServiceParams(suspiciousAngleThreshold: real, minDistance: real, bestAttemptsFraction: real)
    : WindFactory.WindEstimationParams
  {
    WindFactory.DefaultParams.(suspiciousAngleThreshold := suspiciousAngleThreshold,
                               minSegmentDistance := minDistance,
                               bestAttemptsFraction := bestAttemptsFraction)
  }

  /** The wind stage: the fallback for no segments, otherwise the iterative estimate and
      the segments re-annotated against it. */
  function WindStage(filtered: Frame<Segment>, initialWind: real, suspiciousAngleThreshold: real,
                     minDistance: real, bestAttemptsFraction: real, suspicious: WindAlgorithms.Suspicion): Staged
    requires !filtered.IsEmpty() ==> BearingCol in filtered.columns && DistanceCol in filtered.columns
  {
    if filtered.IsEmpty() then Staged(EmptyFrame(), initialWind, "None")
    else
      var estimate := WindFactory.EstimateWith(WindFactory.CreateEstimator("iterative"), Some(filtered), initialWind,
                                               Some(ServiceParams(suspiciousAngleThreshold, minDistance,
                                                                  bestAttemptsFraction)), suspicious);
      var annotated := Calculations.AnalyzeWindAngles(filtered, estimate.direction);
      Staged(WithSailingType(annotated), estimate.direction, estimate.confidence.Label())
  }

  /** The fallback happens exactly when filtering left no segments: then the result has no
      segments, keeps the initial wind and reports confidence "None". */
  lemma WindStageFallback(filtered: Frame<Segment>, initialWind: real, suspiciousAngleThreshold: real,
                          minDistance: real, bestAttemptsFraction: real, suspicious: WindAlgorithms.Suspicion)
    requires !filtered.IsEmpty() ==> BearingCol in filtered.columns && DistanceCol in filtered.columns
    ensures var st := WindStage(filtered, initialWind, suspiciousAngleThreshold, minDistance, bestAttemptsFraction,
                                suspicious);
            (st.windConfidence == "None" <==> filtered.IsEmpty())
            && (filtered.IsEmpty() ==> st.refinedWind == initialWind && st.segments == EmptyFrame())
            && st.windConfidence in {"None", "low", "medium", "high"}
  {
  }

  /** Otherwise the refined wind is the iterative estimate with at most five passes and the
      service's threshold, distance and fraction; it is the initial wind or a compass angle;
      each final segment is the filtered one re-annotated against the refined wind, with
      the sailing-type column added. */
  lemma WindStageEstimate(filtered: Frame<Segment>, initialWind: real, suspiciousAngleThreshold: real,
                          minDistance: real, bestAttemptsFraction: real, suspicious: WindAlgorithms.Suspicion)
    requires !filtered.IsEmpty() && BearingCol in filtered.columns && DistanceCol in filtered.columns
    ensures var st := WindStage(filtered, initialWind, suspiciousAngleThreshold, minDistance, bestAttemptsFraction,
                                suspicious);
            var est := WindAlgorithms.IterativeEstimate(Some(filtered), initialWind, 5,
                         WindAlgorithms.PassSettings(suspiciousAngleThreshold, minDistance, bestAttemptsFraction,
                                                     suspicious));
            && st.refinedWind == est.direction
            && st.windConfidence == est.confidence.Label()
            && (st.refinedWind == initialWind || 0.0 <= st.refinedWind < 360.0)
            && |st.segments.rows| == |filtered.rows|
            && (forall i :: 0 <= i < |filtered.rows| ==>
                  Calculations.AnnotatedFrom(filtered.rows[i], st.segments.rows[i], st.refinedWind))
            && Other("sailing_type") in st.segments.columns
  {
    WindFactory.DefaultIsIterative();
    WindAlgorithms.EstimateDirectionRange(Some(filtered), initialWind, 5,
      WindAlgorithms.PassSettings(suspiciousAngleThreshold, minDistance, bestAttemptsFraction, suspicious));
  }

  /** `analyze_track_data`: the detector's frame, the speed filter, the optional time and
      box filters, then the wind stage and the result; it fails exactly when the detector
      raises its KeyError. */
  method AnalyzeTrackData(trackData: Frame<TrackPoint>, initialWindDirection: real, filename: string,
                          metadata: Option<map<string, string>>, angleTolerance: real, minDistance: real,
                          minDuration: real, minSpeed: real, suspiciousAngleThreshold: real,
                          bestAttemptsFraction: real, timeStart: Option<int>, timeEnd: Option<int>,
                          latBounds: Option<(real, real)>, lonBounds: Option<(real, real)>, env: Collaborators)
    returns (r: Result<TrackAnalysisResult>)
    ensures var found := Detector.StretchSegments(trackData, angleTolerance, minDuration, minDistance,
                                                  env.bearingOf, env.distanceOf);
      && (r.Failure? <==> found.Failure?)
      && (r.Failure? ==> r.error == found.error)
      && (r.Success? ==>
            && fresh(r.value)
            && var st := WindStage(FilterStage(found.value, trackData, minSpeed, timeStart, timeEnd, latBounds,
                                               lonBounds),
                                   initialWindDirection, suspiciousAngleThreshold, minDistance, bestAttemptsFraction,
                                   env.suspicious);
               && r.value.segments == st.segments
               && r.value.refinedWind == st.refinedWind
               && r.value.windConfidence == st.windConfidence)
    ensures r.Success? ==>
      && r.value.trackData == trackData && r.value.initialWind == initialWindDirection
      && r.value.filename == filename && r.value.bestAttemptsFraction == bestAttemptsFraction
      && r.value.metadata == (if metadata.None? then map[] else metadata.value)
      && r.value.Summarised(env)
  {
    var meta := if metadata.None? then map[] else metadata.value;
    var found := Detector.FindConsistentAngleStretches(trackData, angleTolerance, minDuration, minDistance,
                                                       env.bearingOf, env.distanceOf);
    if found.Failure? {
      return Failure(found.error);
    }
    var segments := FilterDetected(found.value, trackData, minSpeed, timeStart, timeEnd, latBounds, lonBounds);
    FilterStageKeepsFastDetected(found.value, trackData, minSpeed, timeStart, timeEnd, latBounds, lonBounds);
    var result := EstimateAndStore(trackData, segments, meta, initialWindDirection, filename,
                                   suspiciousAngleThreshold, minDistance, bestAttemptsFraction, env);
    return Success(result);
  }

  /** Each segment of a successful analysis is a segment the detector found on the track
      (a consistent stretch meeting the minimums and cleaning), at least as fast as the
      minimum speed, re-annotated against the refined wind. */
  lemma AnalysedSegmentsAreDetected(trackData: Frame<TrackPoint>, initialWindDirection: real, angleTolerance: real,
                                    minDistance: real, minDuration: real, minSpeed: real,
                                    suspiciousAngleThreshold: real, bestAttemptsFraction: real,
                                    timeStart: Option<int>, timeEnd: Option<int>,
                                    latBounds: Option<(real, real)>, lonBounds: Option<(real, real)>,
                                    env: Collaborators, i: nat)
    requires Detector.StretchSegments(trackData, angleTolerance, minDuration, minDistance, env.bearingOf,
                                      env.distanceOf).Success?
    ensures var detected := Detector.StretchSegments(trackData, angleTolerance, minDuration, minDistance,
                                                     env.bearingOf, env.distanceOf).value;
            var st := WindStage(FilterStage(detected, trackData, minSpeed, timeStart, timeEnd, latBounds, lonBounds),
                                initialWindDirection, suspiciousAngleThreshold, minDistance, bestAttemptsFraction,
                                env.suspicious);
            i < |st.segments.rows| ==>
              exists d :: d in detected.rows && d.avgSpeedKnots >= minSpeed
                && Detector.DetectedSegment(trackData, env.bearingOf, env.distanceOf, angleTolerance, minDistance,
                                            minDuration, d)
                && Calculations.AnnotatedFrom(d, st.segments.rows[i], st.refinedWind)
  {
    var detected := Detector.StretchSegments(trackData, angleTolerance, minDuration, minDistance,
                                             env.bearingOf, env.distanceOf).value;
    var filtered := FilterStage(detected, trackData, minSpeed, timeStart, timeEnd, latBounds, lonBounds);
    var st := WindStage(filtered, initialWindDirection, suspiciousAngleThreshold, minDistance, bestAttemptsFraction,
                        env.suspicious);
    if i < |st.segments.rows| {
      FilterStageKeepsFastDetected(detected, trackData, minSpeed, timeStart, timeEnd, latBounds, lonBounds);
      WindStageEstimate(filtered, initialWindDirection, suspiciousAngleThreshold, minDistance, bestAttemptsFraction,
                        env.suspicious);
      var d := filtered.rows[i];
      SubseqMember(filtered.rows, detected.rows, d);
      Detector.StretchSegmentsSound(trackData, angleTolerance, minDuration, minDistance, env.bearingOf, env.distanceOf);
    }
  }

  /** The speed filter, then the time and box filters when any bound is given. */
  method FilterDetected(detected: Frame<Segment>, trackData: Frame<TrackPoint>, minSpeed: real,
                        timeStart: Option<int>, timeEnd: Option<int>,
                        latBounds: Option<(real, real)>, lonBounds: Option<(real, real)>)
    returns (segments: Frame<Segment>)
    ensures segments == FilterStage(detected, trackData, minSpeed, timeStart, timeEnd, latBounds, lonBounds)
  {
    segments := detected;
    if !segments.IsEmpty() {
      segments := segments.WithRows(Filter(segments.rows, FastEnough(minSpeed)));
    }
    if !segments.IsEmpty() && (timeStart.Some? || timeEnd.Some? || latBounds.Some? || lonBounds.Some?) {
      segments := Filtering.ApplyFilters(segments, trackData, timeStart, timeEnd, latBounds, lonBounds);
    }
  }

  /** The steps after filtering: the fallback result for no segments; otherwise the factory's
      iterative estimate, the re-annotation against it, the sailing-type column and the result. */
  method EstimateAndStore(trackData: Frame<TrackPoint>, filtered: Frame<Segment>, meta: map<string, string>,
                          initialWindDirection: real, filename: string, suspiciousAngleThreshold: real,
                          minDistance: real, bestAttemptsFraction: real, env: Collaborators)
    returns (result: TrackAnalysisResult)
    requires !filtered.IsEmpty() ==>
               BearingCol in filtered.columns && DistanceCol in filtered.columns && AvgSpeedCol in filtered.columns
    ensures fresh(result)
    ensures var st := WindStage(filtered, initialWindDirection, suspiciousAngleThreshold, minDistance,
                                bestAttemptsFraction, env.suspicious);
            && result.segments == st.segments
            && result.refinedWind == st.refinedWind
            && result.windConfidence == st.windConfidence
    ensures result.trackData == trackData && result.initialWind == initialWindDirection
    ensures result.filename == filename && result.bestAttemptsFraction == bestAttemptsFraction
    ensures result.metadata == meta && result.Summarised(env)
  {
    if filtered.IsEmpty() {
      result := new TrackAnalysisResult(trackData, EmptyFrame(), meta, initialWindDirection,
                                        initialWindDirection, "None", filename, bestAttemptsFraction, env);
      return;
    }
    var windParams := ServiceParams(suspiciousAngleThreshold, minDistance, bestAttemptsFraction);
    var windEstimate := WindFactory.EstimateWindDirectionFactory(Some(filtered), initialWindDirection, "iterative",
                                                                 Some(windParams), env.suspicious);
    var refinedWind := windEstimate.direction;
    var segments := Calculations.AnalyzeWindAngles(filtered, refinedWind);
    if DirectionCol in segments.columns && TackCol in segments.columns {
      segments := segments.(columns := segments.columns + {Other("sailing_type")});
    }
    AnnotatedSummarisable(segments);
    result := new TrackAnalysisResult(trackData, segments, meta, initialWindDirection, refinedWind,
                                      windEstimate.confidence.Label(), filename, bestAttemptsFraction, env);
  }

  /** Annotated segments that keep the speed column carry every column the summary reads. */
  lemma AnnotatedSummarisable(segments: Frame<Segment>)
    requires TackCol in segments.columns && AngleToWindCol in segments.columns && AvgSpeedCol in segments.columns
    ensures Summarisable(segments)
  {
  }

  // ---------------------------------------------------------------------
  // get_analysis_parameters_from_session

  /** The five parameter names and their defaults, in the order the source lists them. */
  const ParameterDefaults: map<string, real> :=
    map["angle_tolerance" := C.DefaultAngleTolerance,
        "min_distance" := C.DefaultMinDistance,
        "min_duration" := C.DefaultMinDuration,
        "min_speed" := C.DefaultMinSpeed,
        "suspicious_angle_threshold" := C.DefaultSuspiciousAngleThreshold]

  /** `get_analysis_parameters_from_session`: each parameter from the session when set there,
      else its default; other session entries are not copied. */
  function GetAnalysisParametersFromSession(session: map<string, real>): (r: map<string, real>)
    ensures r.Keys == ParameterDefaults.Keys
    ensures forall k :: k in r ==> r[k] == (if k in session then session[k] else ParameterDefaults[k])
  {
    map k | k in ParameterDefaults :: if k in session then session[k] else ParameterDefaults[k]
  }

  /** An empty session yields parameters that pass every range check of the detector. */
  lemma SessionDefaultsInRange()
    ensures var params := GetAnalysisParametersFromSession(map[]);
            Validation.ValidateParameterRanges(Some(params["angle_tolerance"]), Some(params["min_distance"]),
                                               Some(params["min_duration"]), Some(params["min_speed"]),
                                               Some(params["suspicious_angle_threshold"])).None?
  {
    var params := GetAnalysisParametersFromSession(map[]);
    assert params["angle_tolerance"] == 25.0 && params["min_distance"] == 75.0;
    assert params["min_duration"] == 15.0 && params["min_speed"] == 8.0;
    assert params["suspicious_angle_threshold"] == 20.0;
  }

  /** The session's own values win over the defaults, and reading the parameters back into a
      session returns the same parameters. */
  lemma SessionParametersStable(session: map<string, real>)
    ensures var params := GetAnalysisParametersFromSession(session);
            GetAnalysisParametersFromSession(params) == params
  {
  }
}
