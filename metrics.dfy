/** Whole-track metrics: time span, distance and speed averages over the legs
    between consecutive track points (`calculate_track_metrics`). */
module Metrics {
  import opened Wrappers
  import opened Seqs
  import opened Frames
  import Calculations

  /** The step between two consecutive points: its length in metres and, when
      both points are timed, its duration in seconds. */
  datatype Leg = Leg(distanceM: real, duration: Option<real>)

  function LegDistance(l: Leg): real
  {
    l.distanceM
  }

  /** A leg the source computes a speed for: one with a positive duration. */
  predicate HasSpeed(l: Leg)
  {
    l.duration.Some? && l.duration.value > 0.0
  }

  function LegBetween(p: TrackPoint, q: TrackPoint, timed: bool, geodesicKm: (TrackPoint, TrackPoint) -> real): Leg
  {
    Leg(Calculations.KilometersToMeters(geodesicKm(p, q)),
        if timed && p.time.Some? && q.time.Some? then Some((q.time.value - p.time.value) as real) else None)
  }

  /** One leg per pair of consecutive points, in track order. */
  function Legs(points: seq<TrackPoint>, timed: bool, geodesicKm: (TrackPoint, TrackPoint) -> real): (r: seq<Leg>)
    ensures |points| < 2 ==> r == []
    ensures |points| >= 2 ==> |r| == |points| - 1
    ensures forall i :: 0 <= i < |r| ==> r[i] == LegBetween(points[i], points[i + 1], timed, geodesicKm)
  {
    if |points| < 2 then [] else [LegBetween(points[0], points[1], timed, geodesicKm)] + Legs(points[1..], timed, geodesicKm)
  }

  /** `speeds_m_per_s`: distance over duration for each leg that has a speed. */
  function Speeds(legs: seq<Leg>): seq<real>
  {
    if legs == [] then []
    else (if HasSpeed(legs[0]) then [legs[0].distanceM / legs[0].duration.value] else []) + Speeds(legs[1..])
  }

  /** `segment_durations` as the source collects it: the duration of every timed leg. */
  function TimedDurations(legs: seq<Leg>): seq<real>
  {
    if legs == [] then []
    else (if legs[0].duration.Some? then [legs[0].duration.value] else []) + TimedDurations(legs[1..])
  }

  /** The durations that belong to `Speeds(legs)`, element for element. */
  function SpeedDurations(legs: seq<Leg>): seq<real>
  {
    if legs == [] then []
    else (if HasSpeed(legs[0]) then [legs[0].duration.value] else []) + SpeedDurations(legs[1..])
  }

  lemma {:induction false} SpeedsAppend(a: seq<Leg>, b: seq<Leg>)
    ensures Speeds(a + b) == Speeds(a) + Speeds(b)
    ensures TimedDurations(a + b) == TimedDurations(a) + TimedDurations(b)
    ensures SpeedDurations(a + b) == SpeedDurations(a) + SpeedDurations(b)
  {
    if a != [] {
      assert (a + b)[1..] == a[1..] + b;
      SpeedsAppend(a[1..], b);
    } else {
      assert a + b == b;
    }
  }

  /** Every speed has exactly one duration in `SpeedDurations`. */
  lemma {:induction false} SpeedDurationsParallel(legs: seq<Leg>)
    ensures |SpeedDurations(legs)| == |Speeds(legs)| <= |TimedDurations(legs)|
  {
    if legs != [] {
      SpeedDurationsParallel(legs[1..]);
    }
  }

  predicate IsActive(speed: real, minSpeedKnots: real)
  {
    Calculations.MetersPerSecondToKnots(speed) >= minSpeedKnots
  }

  /** `active_speeds_ms`: the speeds at or above the threshold, in order. */
  function ActiveSpeeds(speeds: seq<real>, minSpeedKnots: real): (r: seq<real>)
    ensures forall i :: 0 <= i < |r| ==> IsActive(r[i], minSpeedKnots)
    ensures |r| <= |speeds|
  {
    if speeds == [] then []
    else (if IsActive(speeds[0], minSpeedKnots) then [speeds[0]] else []) + ActiveSpeeds(speeds[1..], minSpeedKnots)
  }

  /** `active_durations`: `durations` zipped with the speeds (stopping at the shorter
      one), keeping the durations whose paired speed is active. */
  function ActiveDurations(durations: seq<real>, speeds: seq<real>, minSpeedKnots: real): seq<real>
  {
    if durations == [] || speeds == [] then []
    else (if IsActive(speeds[0], minSpeedKnots) then [durations[0]] else [])
         + ActiveDurations(durations[1..], speeds[1..], minSpeedKnots)
  }

  /** `sum(s * d for s, d in zip(a, b))`. */
  function SumProducts(a: seq<real>, b: seq<real>): real
  {
    if a == [] || b == [] then 0.0 else a[0] * b[0] + SumProducts(a[1..], b[1..])
  }

  /** The legs counted as active: timed, positive duration, speed at or above the threshold. */
  predicate ActiveLeg(l: Leg, minSpeedKnots: real)
  {
    HasSpeed(l) && IsActive(l.distanceM / l.duration.value, minSpeedKnots)
  }

  function ActiveLegDistance(legs: seq<Leg>, minSpeedKnots: real): real
  {
    if legs == [] then 0.0
    else (if ActiveLeg(legs[0], minSpeedKnots) then legs[0].distanceM else 0.0) + ActiveLegDistance(legs[1..], minSpeedKnots)
  }

  function ActiveLegTime(legs: seq<Leg>, minSpeedKnots: real): real
  {
    if legs == [] then 0.0
    else (if ActiveLeg(legs[0], minSpeedKnots) then legs[0].duration.value else 0.0) + ActiveLegTime(legs[1..], minSpeedKnots)
  }

  datatype TrackMetrics = TrackMetrics(
    startTime: Option<int>,
    endTime: Option<int>,
    totalDurationSeconds: real,
    distanceKm: real,
    activeDurationSeconds: Option<real>,
    activeDistanceKm: Option<real>,
    avgSpeed: real,
    weightedAvgSpeed: real,
    overallAvgSpeed: real)

  /** The earliest timestamp of the points, None when no point is timed. */
  function EarliestTime(points: seq<TrackPoint>): (r: Option<int>)
    ensures r.None? <==> forall i :: 0 <= i < |points| ==> points[i].time.None?
    ensures r.Some? ==> forall i :: 0 <= i < |points| && points[i].time.Some? ==> r.value <= points[i].time.value
    ensures r.Some? ==> exists i :: 0 <= i < |points| && points[i].time == r
  {
    if points == [] then None
    else
      var rest := EarliestTime(points[1..]);
      if points[0].time.None? then
        assert forall i :: 1 <= i < |points| ==> points[i] == points[1..][i - 1];
        rest
      else if rest.None? || points[0].time.value <= rest.value then points[0].time
      else
        assert forall i :: 1 <= i < |points| ==> points[i] == points[1..][i - 1];
        rest
  }

  /** The latest timestamp of the points, None when no point is timed. */
  function LatestTime(points: seq<TrackPoint>): (r: Option<int>)
    ensures r.None? <==> forall i :: 0 <= i < |points| ==> points[i].time.None?
    ensures r.Some? ==> forall i :: 0 <= i < |points| && points[i].time.Some? ==> points[i].time.value <= r.value
    ensures r.Some? ==> exists i :: 0 <= i < |points| && points[i].time == r
  {
    if points == [] then None
    else
      var rest := LatestTime(points[1..]);
      if points[0].time.None? then
        assert forall i :: 1 <= i < |points| ==> points[i] == points[1..][i - 1];
        rest
      else if rest.None? || points[0].time.value >= rest.value then points[0].time
      else
        assert forall i :: 1 <= i < |points| ==> points[i] == points[1..][i - 1];
        rest
  }

  /** The metrics from the collected leg distances, speeds and the durations
      zipped with the speeds; the branches follow the source: fewer than two
      points, no speed at all, no active speed, and the general case. */
  function SpeedMetrics(start: Option<int>, end: Option<int>, totalSeconds: real, pointCount: nat,
                        distances: seq<real>, speeds: seq<real>, durations: seq<real>, minSpeedKnots: real): TrackMetrics
  {
    if pointCount <= 1 then TrackMetrics(start, end, totalSeconds, 0.0, None, None, 0.0, 0.0, 0.0)
    else
      var distanceKm := Calculations.MetersToKilometers(SumReals(distances));
      if speeds == [] then TrackMetrics(start, end, totalSeconds, distanceKm, None, None, 0.0, 0.0, 0.0)
      else
        var active := ActiveSpeeds(speeds, minSpeedKnots);
        var activeDurations := ActiveDurations(durations, speeds, minSpeedKnots);
        if active == [] then TrackMetrics(start, end, totalSeconds, distanceKm, Some(0.0), Some(0.0), 0.0, 0.0, 0.0)
        else
          var activeDistance := SumProducts(active, activeDurations);
          var activeTime := SumReals(activeDurations);
          var overallMs := if totalSeconds > 0.0 then Calculations.KilometersToMeters(distanceKm) / totalSeconds else 0.0;
          TrackMetrics(start, end, totalSeconds, distanceKm, Some(activeTime),
                       Some(Calculations.MetersToKilometers(activeDistance)),
                       Calculations.MetersPerSecondToKnots(Mean(active)),
                       if activeTime > 0.0 then Calculations.MetersPerSecondToKnots(activeDistance / activeTime) else 0.0,
                       Calculations.MetersPerSecondToKnots(overallMs))
  }

  predicate Timed(track: Frame<TrackPoint>)
  {
    TimeCol in track.columns
  }

  /** The time span of the track: first and last timestamp when the time column
      has a value, otherwise no times and a zero duration. */
  function TimeSpan(track: Frame<TrackPoint>): (Option<int>, Option<int>, real)
  {
    var first := EarliestTime(track.rows);
    var last := LatestTime(track.rows);
    if Timed(track) && first.Some? then (first, last, (last.value - first.value) as real) else (None, None, 0.0)
  }

  /** `calculate_track_metrics` exactly as written: the durations zipped with the
      speeds are those of all timed legs. */
  function TrackMetricsAsWritten(track: Frame<TrackPoint>, minSpeedKnots: real,
                                 geodesicKm: (TrackPoint, TrackPoint) -> real): TrackMetrics
  {
    var (first, last, total) := TimeSpan(track);
    var legs := Legs(track.rows, Timed(track), geodesicKm);
    SpeedMetrics(first, last, total, |track.rows|, MapReal(legs, LegDistance), Speeds(legs), TimedDurations(legs), minSpeedKnots)
  }

  /** `calculate_track_metrics` with each speed paired with its own leg's duration. */
  function TrackMetricsOf(track: Frame<TrackPoint>, minSpeedKnots: real,
                          geodesicKm: (TrackPoint, TrackPoint) -> real): TrackMetrics
  {
    var (first, last, total) := TimeSpan(track);
    var legs := Legs(track.rows, Timed(track), geodesicKm);
    SpeedMetrics(first, last, total, |track.rows|, MapReal(legs, LegDistance), Speeds(legs), SpeedDurations(legs), minSpeedKnots)
  }

  /** The loop of `calculate_track_metrics`: one pass over consecutive point pairs
      collecting leg distances, the speeds of legs with a positive duration, and the
      duration of every timed leg, as the source collects them. */
  method CalculateTrackMetrics(track: Frame<TrackPoint>, minSpeedKnots: real,
                               geodesicKm: (TrackPoint, TrackPoint) -> real) returns (m: TrackMetrics)
    ensures m == TrackMetricsAsWritten(track, minSpeedKnots, geodesicKm)
  {
    var (first, last, total) := TimeSpan(track);
    var points := track.rows;
    if |points| <= 1 {
      return TrackMetrics(first, last, total, 0.0, None, None, 0.0, 0.0, 0.0);
    }
    ghost var legs := Legs(points, Timed(track), geodesicKm);
    var distances: seq<real> := [];
    var speeds: seq<real> := [];
    var durations: seq<real> := [];
    for i := 0 to |points| - 1
      invariant distances == MapReal(legs[..i], LegDistance)
      invariant speeds == Speeds(legs[..i])
      invariant durations == TimedDurations(legs[..i])
    {
      var leg := LegBetween(points[i], points[i + 1], Timed(track), geodesicKm);
      assert leg == legs[i];
      LegStep(legs, i);
      distances := distances + [leg.distanceM];
      if leg.duration.Some? {
        durations := durations + [leg.duration.value];
        if leg.duration.value > 0.0 {
          speeds := speeds + [leg.distanceM / leg.duration.value];
        }
      }
    }
    assert legs[..|points| - 1] == legs;
    m := SpeedMetrics(first, last, total, |points|, distances, speeds, durations, minSpeedKnots);
  }

  /** What one more leg adds to the collected distances, speeds and durations. */
  lemma LegStep(legs: seq<Leg>, i: nat)
    requires i < |legs|
    ensures MapReal(legs[..i + 1], LegDistance) == MapReal(legs[..i], LegDistance) + [legs[i].distanceM]
    ensures Speeds(legs[..i + 1]) ==
              Speeds(legs[..i]) + (if HasSpeed(legs[i]) then [legs[i].distanceM / legs[i].duration.value] else [])
    ensures TimedDurations(legs[..i + 1]) ==
              TimedDurations(legs[..i]) + (if legs[i].duration.Some? then [legs[i].duration.value] else [])
  {
    assert legs[..i + 1] == legs[..i] + [legs[i]];
    SpeedsAppend(legs[..i], [legs[i]]);
    MapRealAppend(legs[..i], [legs[i]], LegDistance);
  }

  // ---------------------------------------------------------------------
  // Properties of the corrected metrics

  /** Active distance is speed times duration summed over the active legs: the
      distance those legs cover. */
  lemma {:induction false} ActiveDistanceIsLegDistance(legs: seq<Leg>, minSpeedKnots: real)
    ensures SumProducts(ActiveSpeeds(Speeds(legs), minSpeedKnots), ActiveDurations(SpeedDurations(legs), Speeds(legs), minSpeedKnots))
            == ActiveLegDistance(legs, minSpeedKnots)
    ensures SumReals(ActiveDurations(SpeedDurations(legs), Speeds(legs), minSpeedKnots)) == ActiveLegTime(legs, minSpeedKnots)
  {
    if legs != [] {
      ActiveDistanceIsLegDistance(legs[1..], minSpeedKnots);
      LegCons(legs, minSpeedKnots);
    }
  }

  /** What the first leg adds to the active distance and time computed from the
      speed and duration lists. */
  lemma LegCons(legs: seq<Leg>, minSpeedKnots: real)
    requires legs != []
    ensures var S, D := Speeds(legs[1..]), SpeedDurations(legs[1..]);
            SumProducts(ActiveSpeeds(Speeds(legs), minSpeedKnots), ActiveDurations(SpeedDurations(legs), Speeds(legs), minSpeedKnots))
            == (if ActiveLeg(legs[0], minSpeedKnots) then legs[0].distanceM else 0.0)
               + SumProducts(ActiveSpeeds(S, minSpeedKnots), ActiveDurations(D, S, minSpeedKnots))
    ensures var S, D := Speeds(legs[1..]), SpeedDurations(legs[1..]);
            SumReals(ActiveDurations(SpeedDurations(legs), Speeds(legs), minSpeedKnots))
            == (if ActiveLeg(legs[0], minSpeedKnots) then legs[0].duration.value else 0.0)
               + SumReals(ActiveDurations(D, S, minSpeedKnots))
  {
    var l := legs[0];
    var S, D := Speeds(legs[1..]), SpeedDurations(legs[1..]);
    if HasSpeed(l) {
      var sp, d := l.distanceM / l.duration.value, l.duration.value;
      assert Speeds(legs) == [sp] + S;
      assert SpeedDurations(legs) == [d] + D;
      TimedLegCons(l, S, D, minSpeedKnots);
    } else {
      assert !ActiveLeg(l, minSpeedKnots);
      assert Speeds(legs) == S;
      assert SpeedDurations(legs) == D;
    }
  }

  /** A leg with a speed in front of the speed and duration lists adds its own
      distance and duration exactly when it is active. */
  lemma TimedLegCons(l: Leg, S: seq<real>, D: seq<real>, minSpeedKnots: real)
    requires HasSpeed(l)
    ensures var sp, d := l.distanceM / l.duration.value, l.duration.value;
            SumProducts(ActiveSpeeds([sp] + S, minSpeedKnots), ActiveDurations([d] + D, [sp] + S, minSpeedKnots))
            == (if ActiveLeg(l, minSpeedKnots) then l.distanceM else 0.0)
               + SumProducts(ActiveSpeeds(S, minSpeedKnots), ActiveDurations(D, S, minSpeedKnots))
    ensures var sp, d := l.distanceM / l.duration.value, l.duration.value;
            SumReals(ActiveDurations([d] + D, [sp] + S, minSpeedKnots))
            == (if ActiveLeg(l, minSpeedKnots) then d else 0.0) + SumReals(ActiveDurations(D, S, minSpeedKnots))
  {
    var sp, d := l.distanceM / l.duration.value, l.duration.value;
    SpeedTimesDuration(l.distanceM, d);
    ActiveConsOfProduct(sp, d, l.distanceM, S, D, minSpeedKnots);
    ActiveCons(sp, d, S, D, minSpeedKnots);
  }

  /** `ActiveCons` with the product of the speed and its duration named. */
  lemma ActiveConsOfProduct(sp: real, d: real, distance: real, S: seq<real>, D: seq<real>, minSpeedKnots: real)
    requires sp * d == distance
    ensures SumProducts(ActiveSpeeds([sp] + S, minSpeedKnots), ActiveDurations([d] + D, [sp] + S, minSpeedKnots)) ==
              (if IsActive(sp, minSpeedKnots) then distance else 0.0)
              + SumProducts(ActiveSpeeds(S, minSpeedKnots), ActiveDurations(D, S, minSpeedKnots))
  {
    ActiveCons(sp, d, S, D, minSpeedKnots);
  }

  /** One more speed and its duration in front add their product and their duration
      exactly when the speed is active. */
  lemma ActiveCons(sp: real, d: real, S: seq<real>, D: seq<real>, minSpeedKnots: real)
    ensures SumProducts(ActiveSpeeds([sp] + S, minSpeedKnots), ActiveDurations([d] + D, [sp] + S, minSpeedKnots)) ==
              (if IsActive(sp, minSpeedKnots) then sp * d else 0.0)
              + SumProducts(ActiveSpeeds(S, minSpeedKnots), ActiveDurations(D, S, minSpeedKnots))
    ensures SumReals(ActiveDurations([d] + D, [sp] + S, minSpeedKnots)) ==
              (if IsActive(sp, minSpeedKnots) then d else 0.0) + SumReals(ActiveDurations(D, S, minSpeedKnots))
  {
    var AS, AD := ActiveSpeeds(S, minSpeedKnots), ActiveDurations(D, S, minSpeedKnots);
    ActiveFilterCons(sp, d, S, D, minSpeedKnots);
    if IsActive(sp, minSpeedKnots) {
      SumsCons(sp, d, AS, AD);
    } else {
      assert [] + AS == AS && [] + AD == AD;
    }
  }

  lemma ActiveFilterCons(sp: real, d: real, S: seq<real>, D: seq<real>, minSpeedKnots: real)
    ensures ActiveSpeeds([sp] + S, minSpeedKnots) ==
              (if IsActive(sp, minSpeedKnots) then [sp] else []) + ActiveSpeeds(S, minSpeedKnots)
    ensures ActiveDurations([d] + D, [sp] + S, minSpeedKnots) ==
              (if IsActive(sp, minSpeedKnots) then [d] else []) + ActiveDurations(D, S, minSpeedKnots)
  {
    assert ([sp] + S)[1..] == S && ([d] + D)[1..] == D;
  }

  lemma SumsCons(x: real, y: real, A: seq<real>, B: seq<real>)
    ensures SumProducts([x] + A, [y] + B) == x * y + SumProducts(A, B)
    ensures SumReals([y] + B) == y + SumReals(B)
  {
    assert ([x] + A)[1..] == A && ([y] + B)[1..] == B;
  }

  lemma SpeedTimesDuration(distance: real, duration: real)
    requires duration > 0.0
    ensures (distance / duration) * duration == distance
  {
  }

  /** With every speed paired with its own leg, the weighted average speed is
      the active legs' distance over their time, and the active distance and
      duration are those of the active legs. */
  lemma WeightedSpeedIsDistanceOverTime(track: Frame<TrackPoint>, minSpeedKnots: real,
                                        geodesicKm: (TrackPoint, TrackPoint) -> real)
    requires TrackMetricsOf(track, minSpeedKnots, geodesicKm).activeDistanceKm.Some?
    ensures var m := TrackMetricsOf(track, minSpeedKnots, geodesicKm);
            var legs := Legs(track.rows, Timed(track), geodesicKm);
            && m.activeDistanceKm == Some(Calculations.MetersToKilometers(ActiveLegDistance(legs, minSpeedKnots)))
            && m.activeDurationSeconds == Some(ActiveLegTime(legs, minSpeedKnots))
            && m.weightedAvgSpeed ==
                 (if ActiveLegTime(legs, minSpeedKnots) > 0.0
                  then Calculations.MetersPerSecondToKnots(ActiveLegDistance(legs, minSpeedKnots) / ActiveLegTime(legs, minSpeedKnots))
                  else 0.0)
  {
    var legs := Legs(track.rows, Timed(track), geodesicKm);
    ActiveDistanceIsLegDistance(legs, minSpeedKnots);
    if ActiveSpeeds(Speeds(legs), minSpeedKnots) == [] {
      NoActiveSpeedNoActiveLeg(legs, minSpeedKnots);
    }
  }

  lemma {:induction false} NoActiveSpeedNoActiveLeg(legs: seq<Leg>, minSpeedKnots: real)
    requires ActiveSpeeds(Speeds(legs), minSpeedKnots) == []
    ensures ActiveLegDistance(legs, minSpeedKnots) == 0.0 && ActiveLegTime(legs, minSpeedKnots) == 0.0
  {
    if legs != [] {
      if HasSpeed(legs[0]) {
        assert Speeds(legs) == [legs[0].distanceM / legs[0].duration.value] + Speeds(legs[1..]);
      } else {
        assert Speeds(legs) == Speeds(legs[1..]);
      }
      NoActiveSpeedNoActiveLeg(legs[1..], minSpeedKnots);
    }
  }

  /** The average speed over active legs is at least the threshold. */
  lemma AverageSpeedAtLeastThreshold(track: Frame<TrackPoint>, minSpeedKnots: real,
                                     geodesicKm: (TrackPoint, TrackPoint) -> real)
    requires ActiveSpeeds(Speeds(Legs(track.rows, Timed(track), geodesicKm)), minSpeedKnots) != []
    ensures TrackMetricsOf(track, minSpeedKnots, geodesicKm).avgSpeed >= minSpeedKnots
    ensures TrackMetricsAsWritten(track, minSpeedKnots, geodesicKm).avgSpeed >= minSpeedKnots
  {
    AsWrittenDiffersOnlyInActiveTime(track, minSpeedKnots, geodesicKm);
    var legs := Legs(track.rows, Timed(track), geodesicKm);
    var active := ActiveSpeeds(Speeds(legs), minSpeedKnots);
    MinOfIsElement(active);
    MeanBetweenMinMax(active);
    var lo := MinOf(active);
    assert lo * 1.94384 >= minSpeedKnots;
    assert Mean(active) * 1.94384 >= lo * 1.94384;
  }

  /** With non-negative geodesic distances the total distance is non-negative. */
  lemma DistanceNonNegative(track: Frame<TrackPoint>, minSpeedKnots: real,
                            geodesicKm: (TrackPoint, TrackPoint) -> real)
    requires forall p, q :: geodesicKm(p, q) >= 0.0
    ensures TrackMetricsOf(track, minSpeedKnots, geodesicKm).distanceKm >= 0.0
    ensures TrackMetricsAsWritten(track, minSpeedKnots, geodesicKm).distanceKm >= 0.0
  {
    AsWrittenDiffersOnlyInActiveTime(track, minSpeedKnots, geodesicKm);
    var legs := Legs(track.rows, Timed(track), geodesicKm);
    var d := MapReal(legs, LegDistance);
    if d != [] {
      forall i | 0 <= i < |d| ensures d[i] >= 0.0 {
        assert d[i] == Calculations.KilometersToMeters(geodesicKm(track.rows[i], track.rows[i + 1]));
      }
      SumRealsBounds(d, 0.0, MaxOf(d));
    }
  }

  /** The reported span runs from the earliest to the latest timestamp, so it is never negative. */
  lemma TimeSpanOrdered(track: Frame<TrackPoint>)
    ensures TimeSpan(track).2 >= 0.0
    ensures TimeSpan(track).0.Some? ==> forall i :: 0 <= i < |track.rows| && track.rows[i].time.Some? ==>
      TimeSpan(track).0.value <= track.rows[i].time.value <= TimeSpan(track).1.value
  {
    var first, last := EarliestTime(track.rows), LatestTime(track.rows);
    if first.Some? {
      var i :| 0 <= i < |track.rows| && track.rows[i].time == first;
    }
  }

  /** The misaligned zip changes only what is computed from the zipped durations: the
      active distance and duration and the weighted speed. Every other metric, and
      whether the active metrics are reported at all, is the same as written and corrected. */
  lemma AsWrittenDiffersOnlyInActiveTime(track: Frame<TrackPoint>, minSpeedKnots: real,
                                         geodesicKm: (TrackPoint, TrackPoint) -> real)
    ensures var a, c := TrackMetricsAsWritten(track, minSpeedKnots, geodesicKm), TrackMetricsOf(track, minSpeedKnots, geodesicKm);
            && a.(activeDurationSeconds := c.activeDurationSeconds, activeDistanceKm := c.activeDistanceKm,
                  weightedAvgSpeed := c.weightedAvgSpeed) == c
            && a.activeDurationSeconds.Some? == c.activeDurationSeconds.Some?
            && a.activeDistanceKm.Some? == c.activeDistanceKm.Some?
  {
  }

  /** When no timed leg has a zero or negative duration, the durations as written are
      exactly the durations paired with the speeds, so the program's metrics are the
      corrected ones. */
  lemma {:induction false} TimedDurationsAligned(legs: seq<Leg>)
    requires forall i :: 0 <= i < |legs| && legs[i].duration.Some? ==> legs[i].duration.value > 0.0
    ensures TimedDurations(legs) == SpeedDurations(legs)
  {
    if legs != [] {
      assert forall i :: 0 <= i < |legs| - 1 ==> legs[1..][i] == legs[i + 1];
      TimedDurationsAligned(legs[1..]);
    }
  }

  /** A track whose timestamps strictly increase from point to point gets the corrected
      metrics from the program as written. */
  lemma AsWrittenAgreesOnIncreasingTimes(track: Frame<TrackPoint>, minSpeedKnots: real,
                                         geodesicKm: (TrackPoint, TrackPoint) -> real)
    requires forall i :: 0 <= i < |track.rows| - 1 && track.rows[i].time.Some? && track.rows[i + 1].time.Some? ==>
               track.rows[i].time.value < track.rows[i + 1].time.value
    ensures TrackMetricsAsWritten(track, minSpeedKnots, geodesicKm) == TrackMetricsOf(track, minSpeedKnots, geodesicKm)
  {
    var legs := Legs(track.rows, Timed(track), geodesicKm);
    forall i | 0 <= i < |legs| && legs[i].duration.Some?
      ensures legs[i].duration.value > 0.0
    {
      assert legs[i] == LegBetween(track.rows[i], track.rows[i + 1], Timed(track), geodesicKm);
    }
    TimedDurationsAligned(legs);
  }

  // ---------------------------------------------------------------------
  // The misaligned zip as written

  /** A track whose first two points share a timestamp: the zero-length-in-time
      first leg has no speed but does contribute a duration, so as written the
      single speed (5 m/s over the second leg) is paired with the first leg's 0 s. */
  lemma MisalignedZipExample()
    ensures var legs := [Leg(5.0, Some(0.0)), Leg(50.0, Some(10.0))];
            && SumProducts(ActiveSpeeds(Speeds(legs), 0.0), ActiveDurations(TimedDurations(legs), Speeds(legs), 0.0)) == 0.0
            && SumReals(ActiveDurations(TimedDurations(legs), Speeds(legs), 0.0)) == 0.0
            && ActiveLegDistance(legs, 0.0) == 50.0
            && ActiveLegTime(legs, 0.0) == 10.0
  {
    var first, second := Leg(5.0, Some(0.0)), Leg(50.0, Some(10.0));
    var legs := [first, second];
    assert legs[1..] == [second];
    assert [second][1..] == [];
    assert !HasSpeed(first) && HasSpeed(second) && second.distanceM / second.duration.value == 5.0;
    assert Speeds([second]) == [5.0];
    assert Speeds(legs) == [5.0];
    assert TimedDurations([second]) == [10.0];
    assert TimedDurations(legs) == [0.0, 10.0];
    assert IsActive(5.0, 0.0);
    assert [5.0][1..] == [];
    assert ActiveSpeeds([5.0], 0.0) == [5.0];
    assert [0.0, 10.0][1..] == [10.0];
    assert ActiveDurations([10.0], [], 0.0) == [];
    assert ActiveDurations([0.0, 10.0], [5.0], 0.0) == [0.0];
    assert SumProducts([5.0], [0.0]) == 0.0;
    assert !ActiveLeg(first, 0.0) && ActiveLeg(second, 0.0);
    assert ActiveLegDistance([second], 0.0) == 50.0 && ActiveLegTime([second], 0.0) == 10.0;
  }

  /** The same track as points: GPS jitter gives the second fix a new position but the
      first fix's timestamp, so 5 m take 0 s. As written the track reports 0 km of active
      distance where 0.05 km were sailed at 5 m/s. */
  lemma TrackMetricsAsWrittenMisaligned()
    ensures var track := Frame({LatitudeCol, LongitudeCol, TimeCol},
                               [TrackPoint(0.0, 0.0, Some(0)), TrackPoint(0.0, 0.00005, Some(0)), TrackPoint(0.0, 0.0005, Some(10))]);
            var geo := (p: TrackPoint, q: TrackPoint) => if p.longitude == 0.0 then 0.005 else 0.05;
            && TrackMetricsAsWritten(track, 0.0, geo).activeDistanceKm == Some(0.0)
            && TrackMetricsOf(track, 0.0, geo).activeDistanceKm == Some(0.05)
  {
    var track := Frame({LatitudeCol, LongitudeCol, TimeCol},
                       [TrackPoint(0.0, 0.0, Some(0)), TrackPoint(0.0, 0.00005, Some(0)), TrackPoint(0.0, 0.0005, Some(10))]);
    var geo := (p: TrackPoint, q: TrackPoint) => if p.longitude == 0.0 then 0.005 else 0.05;
    var p0, p1, p2 := track.rows[0], track.rows[1], track.rows[2];
    var legs := Legs(track.rows, Timed(track), geo);
    assert Timed(track);
    assert legs[0] == LegBetween(p0, p1, true, geo) == Leg(5.0, Some(0.0));
    assert legs[1] == LegBetween(p1, p2, true, geo) == Leg(50.0, Some(10.0));
    assert legs == [Leg(5.0, Some(0.0)), Leg(50.0, Some(10.0))];
    MisalignedZipExample();
    ActiveDistanceIsLegDistance(legs, 0.0);
    assert Speeds(legs) == [5.0];
  }
}
