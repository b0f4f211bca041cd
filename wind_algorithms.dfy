/** The wind estimators of backend/core/wind/algorithms.py: best-attempt
    selection, the tack-balance score, the iterative median-balancing
    estimator and its single-pass legacy form, the user-guided candidate
    search, and the opposite-pair search over cluster centres. */
module WindAlgorithms {
  import opened Wrappers
  import opened PyNum
  import opened Seqs
  import opened Frames
  import opened SegmentModel
  import opened Calculations
  import C = Constants

  datatype Confidence = Low | Medium | High
  {
    function Label(): string
    {
      match this
      case Low => "low"
      case Medium => "medium"
      case High => "high"
    }
  }

  /** The fields of `WindEstimate` that the estimators set. */
  datatype WindEstimate = WindEstimate(
    direction: real,
    confidence: Confidence,
    userProvided: bool,
    portAngle: Option<real>,
    starboardAngle: Option<real>,
    portCount: int,
    starboardCount: int)

  /** The estimate handed back when estimation is impossible: the initial wind, as the user gave it. */
  function Fallback(initialWind: real): WindEstimate
  {
    WindEstimate(initialWind, Low, true, None, None, 0, 0)
  }

  // ---------------------------------------------------------------------
  // Best pointing attempts

  /** The `angle_to_wind` column (every row the estimators look at has been annotated). */
  function AngleKey(s: Segment): real
  {
    match s.angleToWind
    case Some(a) => a
    case None => 0.0
  }

  /** `max(min_count, int(n * max_fraction))`. */
  function BestCount(n: int, minCount: int, maxFraction: real): int
  {
    MaxInt(minCount, Trunc(n as real * maxFraction))
  }

  /** `get_best_pointing_segments`: every row when there are at most min_count,
      otherwise the BestCount rows of smallest angle to wind (`nsmallest`). */
  function GetBestPointingSegments(tack: seq<Segment>, minCount: int, maxFraction: real): (r: seq<Segment>)
    ensures |tack| <= minCount ==> r == tack
    ensures |tack| > minCount ==> |r| == MinNat(MaxInt(BestCount(|tack|, minCount, maxFraction), 0), |tack|)
    ensures multiset(r) <= multiset(tack)
    ensures |tack| > 0 && minCount >= 1 ==> |r| > 0
  {
    if |tack| <= minCount then tack else NSmallest(tack, AngleKey, BestCount(|tack|, minCount, maxFraction))
  }

  /** Every kept row points at least as high as every dropped row. */
  lemma BestPointingTightest(tack: seq<Segment>, minCount: int, maxFraction: real, a: nat, y: Segment)
    requires a < |GetBestPointingSegments(tack, minCount, maxFraction)|
    requires y in multiset(tack) - multiset(GetBestPointingSegments(tack, minCount, maxFraction))
    ensures AngleKey(GetBestPointingSegments(tack, minCount, maxFraction)[a]) <= AngleKey(y)
  {
    if |tack| > minCount {
      NSmallestKeepsSmallest(tack, AngleKey, BestCount(|tack|, minCount, maxFraction), a, y);
    }
  }

  /** With min_count 3, at least three attempts are kept exactly when the tack has at least three rows. */
  lemma BestCountAtLeastThree(tack: seq<Segment>, maxFraction: real)
    ensures |GetBestPointingSegments(tack, C.MinSegmentsForEstimation, maxFraction)| >= 3 <==> |tack| >= 3
  {
  }

  // ---------------------------------------------------------------------
  // Wind score

  predicate IsUpwindRow(s: Segment)
  {
    s.angleToWind.Some? && s.angleToWind.value < C.UpwindBoundary
  }

  /** min/max of the two upwind tack counts, 0 when either is missing. */
  function TackBalance(port: nat, starboard: nat): real
  {
    if port > 0 && starboard > 0 then MinInt(port, starboard) as real / MaxInt(port, starboard) as real else 0.0
  }

  /** min/max of the upwind and downwind counts, with the divisor at least 1. */
  function UpDownBalance(upwind: int, total: int): real
  {
    MinInt(upwind, total - upwind) as real / MaxInt(MaxInt(upwind, total - upwind), 1) as real
  }

  /** `1 - min(std / 30, 1)` with at least three upwind rows, else 0; `std` is numpy's `std`. */
  function SpreadScore(upwindAngles: seq<real>, std: seq<real> -> real): real
  {
    if |upwindAngles| >= C.MinSegmentsForEstimation then 1.0 - Min(std(upwindAngles) / C.WindSearchRange, 1.0)
    else 0.0
  }

  function UpwindAngles(segments: seq<Segment>): seq<real>
  {
    MapReal(Filter(segments, IsUpwindRow), AngleKey)
  }

  /** `calculate_wind_score` on annotated rows. */
  function WindScore(segments: seq<Segment>, std: seq<real> -> real,
                     upwindWeight: real, spreadWeight: real, balanceWeight: real): real
  {
    var upwind := Filter(segments, IsUpwindRow);
    var port := |Filter(upwind, IsPortRow)|;
    var starboard := |Filter(upwind, IsStarboardRow)|;
    upwindWeight * TackBalance(port, starboard)
      + spreadWeight * SpreadScore(UpwindAngles(segments), std)
      + balanceWeight * UpDownBalance(|upwind|, |segments|)
  }

  /** The tack balance is 0 when a tack is missing, otherwise in (0, 1] and 1 exactly for equal counts. */
  lemma TackBalanceRange(port: nat, starboard: nat)
    ensures port == 0 || starboard == 0 ==> TackBalance(port, starboard) == 0.0
    ensures port > 0 && starboard > 0 ==> 0.0 < TackBalance(port, starboard) <= 1.0
    ensures port > 0 && starboard > 0 ==> (TackBalance(port, starboard) == 1.0 <==> port == starboard)
  {
    if port > 0 && starboard > 0 {
      var lo, hi := MinInt(port, starboard) as real, MaxInt(port, starboard) as real;
      DivBetween(lo, hi, 0.0, 1.0);
      if lo / hi == 1.0 {
        assert lo == hi;
      }
    }
  }

  lemma UpDownBalanceRange(upwind: int, total: int)
    requires 0 <= upwind <= total
    ensures 0.0 <= UpDownBalance(upwind, total) <= 1.0
  {
    var lo := MinInt(upwind, total - upwind) as real;
    var hi := MaxInt(MaxInt(upwind, total - upwind), 1) as real;
    DivBetween(lo, hi, 0.0, 1.0);
  }

  lemma SpreadScoreRange(upwindAngles: seq<real>, std: seq<real> -> real)
    requires std(upwindAngles) >= 0.0
    ensures 0.0 <= SpreadScore(upwindAngles, std) <= 1.0
  {
  }

  /** With non-negative weights the score lies between 0 and the sum of the weights. */
  lemma WindScoreBounds(segments: seq<Segment>, std: seq<real> -> real,
                        upwindWeight: real, spreadWeight: real, balanceWeight: real)
    requires upwindWeight >= 0.0 && spreadWeight >= 0.0 && balanceWeight >= 0.0
    requires std(UpwindAngles(segments)) >= 0.0
    ensures 0.0 <= WindScore(segments, std, upwindWeight, spreadWeight, balanceWeight)
    ensures WindScore(segments, std, upwindWeight, spreadWeight, balanceWeight) <= upwindWeight + spreadWeight + balanceWeight
  {
    var upwind := Filter(segments, IsUpwindRow);
    var port := |Filter(upwind, IsPortRow)|;
    var starboard := |Filter(upwind, IsStarboardRow)|;
    var tb := TackBalance(port, starboard);
    var sp := SpreadScore(UpwindAngles(segments), std);
    var ud := UpDownBalance(|upwind|, |segments|);
    TackBalanceRange(port, starboard);
    SpreadScoreRange(UpwindAngles(segments), std);
    UpDownBalanceRange(|upwind|, |segments|);
    WeightedInUnit(upwindWeight, spreadWeight, balanceWeight, tb, sp, ud);
  }

  lemma WeightedInUnit(wu: real, ws: real, wb: real, x: real, y: real, z: real)
    requires wu >= 0.0 && ws >= 0.0 && wb >= 0.0
    requires 0.0 <= x <= 1.0 && 0.0 <= y <= 1.0 && 0.0 <= z <= 1.0
    ensures 0.0 <= wu * x + ws * y + wb * z <= wu + ws + wb
  {
    ScaledInUnit(wu, x);
    ScaledInUnit(ws, y);
    ScaledInUnit(wb, z);
    var a, b, c := wu * x, ws * y, wb * z;
    assert a <= wu;
    assert b <= ws;
    assert c <= wb;
  }

  lemma ScaledInUnit(w: real, v: real)
    requires w >= 0.0 && 0.0 <= v <= 1.0
    ensures 0.0 <= w * v <= w
  {
    assert v * w <= 1.0 * w;
  }

  /** With the default weights 0.5, 0.3 and 0.2 the score lies in [0, 1]. */
  lemma DefaultWindScoreInUnit(segments: seq<Segment>, std: seq<real> -> real)
    requires std(UpwindAngles(segments)) >= 0.0
    ensures 0.0 <= WindScore(segments, std, 0.5, 0.3, 0.2) <= 1.0
  {
    WindScoreBounds(segments, std, 0.5, 0.3, 0.2);
  }

  // ---------------------------------------------------------------------
  // One balancing pass

  /** `detect_suspicious_segments` as a per-row flag of (row, min_angle_to_wind, min_segment_length). */
  type Suspicion = (Segment, real, real) -> bool

  /** The settings every pass (and the final analysis) applies. */
  datatype PassSettings = PassSettings(
    suspiciousThreshold: real,
    minSegmentDistance: real,
    bestFraction: real,
    suspicious: Suspicion)

  function Unflagged(p: PassSettings): Segment -> bool
  {
    (s: Segment) => !p.suspicious(s, p.suspiciousThreshold, C.MinReliableSegmentLength)
  }

  function AtLeast(minDistance: real): Segment -> bool
  {
    (s: Segment) => s.distance >= minDistance
  }

  /** Steps 1-4 of a pass: annotate against the wind, keep upwind rows, drop
      flagged rows, then (with a positive minimum) the short ones. */
  function UsableUpwind(rows: seq<Segment>, wind: real, p: PassSettings): seq<Segment>
  {
    var upwind := Filter(AnnotateRows(rows, wind), IsUpwindRow);
    var unflagged := if |upwind| > 0 then Filter(upwind, Unflagged(p)) else upwind;
    if p.minSegmentDistance > 0.0 && |unflagged| > 0 then Filter(unflagged, AtLeast(p.minSegmentDistance))
    else unflagged
  }

  /** What a row must be for a pass to use it. */
  predicate Usable(s: Segment, p: PassSettings)
  {
    && IsUpwindRow(s)
    && !p.suspicious(s, p.suspiciousThreshold, C.MinReliableSegmentLength)
    && (p.minSegmentDistance > 0.0 ==> s.distance >= p.minSegmentDistance)
  }

  /** The rows a pass uses are exactly the annotated rows that are usable. */
  lemma UsableUpwindExactly(rows: seq<Segment>, wind: real, p: PassSettings, s: Segment)
    ensures s in UsableUpwind(rows, wind, p) <==> s in AnnotateRows(rows, wind) && Usable(s, p)
  {
    var upwind := Filter(AnnotateRows(rows, wind), IsUpwindRow);
    var unflagged := if |upwind| > 0 then Filter(upwind, Unflagged(p)) else upwind;
    FilterMember(AnnotateRows(rows, wind), IsUpwindRow, s);
    FilterMember(upwind, Unflagged(p), s);
    FilterMember(unflagged, AtLeast(p.minSegmentDistance), s);
  }

  /** ... and they keep the order of the track. */
  lemma UsableUpwindSubseq(rows: seq<Segment>, wind: real, p: PassSettings)
    ensures Subseq(UsableUpwind(rows, wind, p), AnnotateRows(rows, wind))
  {
    var annotated := AnnotateRows(rows, wind);
    var upwind := Filter(annotated, IsUpwindRow);
    var unflagged := if |upwind| > 0 then Filter(upwind, Unflagged(p)) else upwind;
    FilterSubseq(annotated, IsUpwindRow);
    FilterSubseq(upwind, Unflagged(p));
    SubseqRefl(upwind);
    SubseqTrans(unflagged, upwind, annotated);
    FilterSubseq(unflagged, AtLeast(p.minSegmentDistance));
    SubseqRefl(unflagged);
    SubseqTrans(UsableUpwind(rows, wind, p), unflagged, annotated);
  }

  /** A usable row's angle to the wind is in [0, 90). */
  lemma UsableAngle(rows: seq<Segment>, wind: real, p: PassSettings, s: Segment)
    requires s in UsableUpwind(rows, wind, p)
    ensures 0.0 <= AngleKey(s) < 90.0
  {
    UsableUpwindExactly(rows, wind, p, s);
    var annotated := AnnotateRows(rows, wind);
    var i :| 0 <= i < |annotated| && annotated[i] == s;
    assert s == Annotate(rows[i], wind);
  }

  /** What one pass leads to; Balanced carries the two medians and the new wind. */
  datatype PassOutcome = TooFewUpwind | MissingTack | Balanced(portMedian: real, starboardMedian: real, newWind: real)

  function BestAngles(tack: seq<Segment>, fraction: real): (r: seq<real>)
    ensures |tack| > 0 ==> |r| > 0
  {
    MapReal(GetBestPointingSegments(tack, C.MinSegmentsForEstimation, fraction), AngleKey)
  }

  /** One iteration of `estimate_wind_direction_iterative` against the current wind. */
  function BalancePass(rows: seq<Segment>, wind: real, p: PassSettings): PassOutcome
  {
    BalanceOf(UsableUpwind(rows, wind, p), wind, p.bestFraction)
  }

  /** Steps 5-7 of a pass, on its usable rows: split by tack, take the median
      best attempt of each, and turn the wind by half their difference. */
  function BalanceOf(upwind: seq<Segment>, wind: real, fraction: real): PassOutcome
  {
    if |upwind| < C.MinSegmentsForEstimation then TooFewUpwind
    else
      var port := Filter(upwind, IsPortRow);
      var starboard := Filter(upwind, IsStarboardRow);
      if |port| == 0 || |starboard| == 0 then MissingTack
      else
        var portMedian := Median(BestAngles(port, fraction));
        var starboardMedian := Median(BestAngles(starboard, fraction));
        Balanced(portMedian, starboardMedian, Mod360(wind - (starboardMedian - portMedian) / 2.0))
  }

  /** The median best-attempt angle of a tack drawn from the usable rows lies in [0, 90). */
  lemma MedianOfUsableTack(rows: seq<Segment>, wind: real, p: PassSettings, tack: seq<Segment>)
    requires |tack| > 0
    requires forall s :: s in tack ==> s in UsableUpwind(rows, wind, p)
    ensures 0.0 <= Median(BestAngles(tack, p.bestFraction)) < 90.0
  {
    var best := GetBestPointingSegments(tack, C.MinSegmentsForEstimation, p.bestFraction);
    var angles := BestAngles(tack, p.bestFraction);
    forall k | 0 <= k < |angles|
      ensures 0.0 <= angles[k] < 90.0
    {
      assert best[k] in multiset(best);
      assert best[k] in tack;
      UsableAngle(rows, wind, p, best[k]);
    }
    MinOfIsElement(angles);
    MaxOfIsElement(angles);
    MedianBetween(angles);
  }

  /** A balanced pass sees both medians in [0, 90), so each pass turns the
      wind by less than 45 degrees, and the new wind is a compass angle. */
  lemma BalancedPassBounds(rows: seq<Segment>, wind: real, p: PassSettings)
    requires BalancePass(rows, wind, p).Balanced?
    ensures 0.0 <= BalancePass(rows, wind, p).portMedian < 90.0
    ensures 0.0 <= BalancePass(rows, wind, p).starboardMedian < 90.0
    ensures Abs(BalancePass(rows, wind, p).starboardMedian - BalancePass(rows, wind, p).portMedian) / 2.0 < 45.0
    ensures 0.0 <= BalancePass(rows, wind, p).newWind < 360.0
  {
    var upwind := UsableUpwind(rows, wind, p);
    var port := Filter(upwind, IsPortRow);
    var starboard := Filter(upwind, IsStarboardRow);
    MedianOfUsableTack(rows, wind, p, port);
    MedianOfUsableTack(rows, wind, p, starboard);
  }

  // ---------------------------------------------------------------------
  // The iteration

  /** The pass against each wind, for fixed rows and settings. */
  function PassOf(rows: seq<Segment>, p: PassSettings): real -> PassOutcome
  {
    w => BalancePass(rows, w, p)
  }

  /** The loop of `estimate_wind_direction_iterative` from the current wind,
      with `previous` the wind before it and `budget` passes left. None: the
      very first pass failed; otherwise the wind the loop settles on. */
  function Iterate(pass: real -> PassOutcome, current: real, previous: Option<real>,
                   budget: nat, first: bool): Option<real>
    decreases budget
  {
    if budget == 0 then Some(current)
    else
      match pass(current)
      case Balanced(_, _, newWind) =>
        if Abs(newWind - current) < C.ConvergenceThreshold then Some(newWind)
        else if previous.Some? && Abs(newWind - previous.value) < C.ConvergenceThreshold then
          Some((current + newWind) / 2.0)
        else Iterate(pass, newWind, Some(current), budget - 1, false)
      case _ => if first then None else Some(current)
  }

  /** The analysis after the loop, on the usable rows against the final wind. */
  function FinalEstimate(rows: seq<Segment>, wind: real, p: PassSettings): WindEstimate
  {
    FinalOf(UsableUpwind(rows, wind, p), wind, p.bestFraction)
  }

  /** Angles and counts from the best attempts of each tack, and the confidence
      from their balance and the data behind them. */
  function FinalOf(upwind: seq<Segment>, wind: real, fraction: real): WindEstimate
  {
    var port := Filter(upwind, IsPortRow);
    var starboard := Filter(upwind, IsStarboardRow);
    var portAngle := if |port| > 0 then Some(Median(BestAngles(port, fraction))) else None;
    var starboardAngle := if |starboard| > 0 then Some(Median(BestAngles(starboard, fraction))) else None;
    var portCount := if |port| > 0 then |BestAngles(port, fraction)| else 0;
    var starboardCount := if |starboard| > 0 then |BestAngles(starboard, fraction)| else 0;
    WindEstimate(wind, FinalConfidence(portAngle, starboardAngle, |port|, |starboard|, Sum(upwind, SegDistance)),
                 false, portAngle, starboardAngle, portCount, starboardCount)
  }

  function FinalConfidence(portAngle: Option<real>, starboardAngle: Option<real>,
                           portRows: int, starboardRows: int, totalDistance: real): Confidence
  {
    if portAngle.Some? && starboardAngle.Some? then
      var imbalance := Abs(portAngle.value - starboardAngle.value);
      if imbalance < C.MediumConfidenceTackDiff && portRows >= C.MinSegmentsForEstimation
         && starboardRows >= C.MinSegmentsForEstimation && totalDistance > C.HighConfidenceMinDistance then High
      else if imbalance < C.MaxTackDiffForAdjustment then Medium
      else Low
    else Low
  }

  /** The distance behind the final estimate: all usable rows against the final wind. */
  function FinalDistance(rows: seq<Segment>, wind: real, p: PassSettings): real
  {
    Sum(UsableUpwind(rows, wind, p), SegDistance)
  }

  function Budget(maxIterations: int): nat
  {
    if maxIterations > 0 then maxIterations else 0
  }

  /** `estimate_wind_direction_iterative` as a function of its inputs. */
  function IterativeEstimate(segments: Option<Frame<Segment>>, initialWind: real, maxIterations: int,
                             p: PassSettings): WindEstimate
  {
    if segments.None? || segments.value.IsEmpty() then Fallback(initialWind)
    else
      match Iterate(PassOf(segments.value.rows, p), initialWind, None, Budget(maxIterations), true)
      case None => Fallback(initialWind)
      case Some(wind) => FinalEstimate(segments.value.rows, wind, p)
  }

  /** `estimate_wind_direction_iterative`; the caller supplies bearing and distance columns. */
  method EstimateWindDirectionIterative(segments: Option<Frame<Segment>>, initialWind: real,
                                        suspiciousAngleThreshold: real, minSegmentDistance: real,
                                        maxIterations: int, bestAttemptsFraction: real,
                                        suspicious: Suspicion) returns (est: WindEstimate)
    requires segments.Some? && !segments.value.IsEmpty() ==>
               BearingCol in segments.value.columns && DistanceCol in segments.value.columns
    ensures est == IterativeEstimate(segments, initialWind, maxIterations,
                                     PassSettings(suspiciousAngleThreshold, minSegmentDistance,
                                                  bestAttemptsFraction, suspicious))
  {
    var p := PassSettings(suspiciousAngleThreshold, minSegmentDistance, bestAttemptsFraction, suspicious);
    if segments.None? || segments.value.IsEmpty() {
      return Fallback(initialWind);
    }
    var rows := segments.value.rows;
    // every pass annotates the original rows afresh against the current wind
    var settled := IterateWinds(PassOf(rows, p), initialWind, Budget(maxIterations));
    if settled.None? {
      return Fallback(initialWind);
    }
    est := FinalEstimate(rows, settled.value, p);
  }

  /** The `for iteration in range(max_iterations)` loop: None when the first
      pass fails (the early `return result`), otherwise the settled wind. */
  method IterateWinds(pass: real -> PassOutcome, initialWind: real, budget: nat) returns (settled: Option<real>)
    ensures settled == Iterate(pass, initialWind, None, budget, true)
  {
    var current := initialWind;
    var previous: Option<real> := None;
    var iteration := 0;
    while iteration < budget
      invariant 0 <= iteration <= budget
      invariant Iterate(pass, initialWind, None, budget, true)
             == Iterate(pass, current, previous, budget - iteration, iteration == 0)
    {
      var outcome := pass(current);
      if !outcome.Balanced? {
        if iteration == 0 {
          return None;
        }
        break;
      }
      var newWind := outcome.newWind;
      if Abs(newWind - current) < C.ConvergenceThreshold {
        current := newWind;
        break;
      }
      if previous.Some? && Abs(newWind - previous.value) < C.ConvergenceThreshold {
        current := (current + newWind) / 2.0;
        break;
      }
      previous := Some(current);
      current := newWind;
      iteration := iteration + 1;
    }
    return Some(current);
  }

  /** Annotating already annotated rows gives the rows annotated once. */
  lemma AnnotateTwice(rows: seq<Segment>, wind1: real, wind2: real)
    ensures AnnotateRows(AnnotateRows(rows, wind1), wind2) == AnnotateRows(rows, wind2)
  {
    var l, r := AnnotateRows(AnnotateRows(rows, wind1), wind2), AnnotateRows(rows, wind2);
    assert forall i :: 0 <= i < |l| ==> l[i] == r[i];
  }

  /** The usable rows depend only on the rows' own fields, never on an earlier annotation. */
  lemma UsableIgnoresAnnotation(rows: seq<Segment>, wind0: real, wind: real, p: PassSettings)
    ensures UsableUpwind(AnnotateRows(rows, wind0), wind, p) == UsableUpwind(rows, wind, p)
  {
    AnnotateTwice(rows, wind0, wind);
  }

  /** Nothing carries over from an earlier wind: estimating from segments that
      were already annotated against any wind gives the same estimate. */
  lemma PreviousAnnotationIgnored(segments: Frame<Segment>, wind0: real, initialWind: real,
                                  maxIterations: int, p: PassSettings)
    requires BearingCol in segments.columns
    ensures IterativeEstimate(Some(AnalyzeWindAngles(segments, wind0)), initialWind, maxIterations, p)
         == IterativeEstimate(Some(segments), initialWind, maxIterations, p)
  {
    var annotated := AnalyzeWindAngles(segments, wind0).rows;
    forall w ensures PassOf(annotated, p)(w) == PassOf(segments.rows, p)(w) {
      UsableIgnoresAnnotation(segments.rows, wind0, w, p);
    }
    IterateRespectsPass(PassOf(annotated, p), PassOf(segments.rows, p), initialWind, None, Budget(maxIterations), true);
    var i := Iterate(PassOf(segments.rows, p), initialWind, None, Budget(maxIterations), true);
    if i.Some? {
      UsableIgnoresAnnotation(segments.rows, wind0, i.value, p);
      assert FinalEstimate(annotated, i.value, p) == FinalEstimate(segments.rows, i.value, p);
    }
  }

  /** The loop depends on the passes only through their outcomes. */
  lemma {:induction false} IterateRespectsPass(pass1: real -> PassOutcome, pass2: real -> PassOutcome, current: real,
                                               previous: Option<real>, budget: nat, first: bool)
    requires forall w :: pass1(w) == pass2(w)
    ensures Iterate(pass1, current, previous, budget, first) == Iterate(pass2, current, previous, budget, first)
    decreases budget
  {
    if budget > 0 {
      match pass1(current)
      case Balanced(_, _, newWind) =>
        IterateRespectsPass(pass1, pass2, newWind, Some(current), budget - 1, false);
      case _ =>
    }
  }

  /** One allowed pass: its new wind, or None when it fails. */
  lemma IterateOnce(pass: real -> PassOutcome, current: real)
    ensures Iterate(pass, current, None, 1, true) == (if pass(current).Balanced? then Some(pass(current).newWind) else None)
  {
  }

  /** Once a pass has succeeded the loop always yields a wind. */
  lemma {:induction false} LaterPassesYieldWind(pass: real -> PassOutcome, current: real,
                                                previous: Option<real>, budget: nat)
    ensures Iterate(pass, current, previous, budget, false).Some?
    decreases budget
  {
    if budget > 0 {
      match pass(current)
      case Balanced(_, _, newWind) =>
        LaterPassesYieldWind(pass, newWind, Some(current), budget - 1);
      case _ =>
    }
  }

  /** Every pass proposes a compass angle. */
  ghost predicate ProposesCompassAngles(pass: real -> PassOutcome)
  {
    forall w :: pass(w).Balanced? ==> 0.0 <= pass(w).newWind < 360.0
  }

  lemma PassOfProposesCompassAngles(rows: seq<Segment>, p: PassSettings)
    ensures ProposesCompassAngles(PassOf(rows, p))
  {
    forall w | PassOf(rows, p)(w).Balanced?
      ensures 0.0 <= PassOf(rows, p)(w).newWind < 360.0
    {
      BalancedPassBounds(rows, w, p);
    }
  }

  /** The loop settles either on the wind it started from or on a compass angle. */
  lemma {:induction false} IterateRange(pass: real -> PassOutcome, current: real,
                                        previous: Option<real>, budget: nat, first: bool)
    requires ProposesCompassAngles(pass)
    requires previous.Some? ==> !first
    requires !first ==> 0.0 <= current < 360.0
    requires Iterate(pass, current, previous, budget, first).Some?
    ensures Iterate(pass, current, previous, budget, first).value == current
         || 0.0 <= Iterate(pass, current, previous, budget, first).value < 360.0
    decreases budget
  {
    if budget > 0 {
      match pass(current)
      case Balanced(_, _, newWind) =>
        if !(Abs(newWind - current) < C.ConvergenceThreshold)
           && !(previous.Some? && Abs(newWind - previous.value) < C.ConvergenceThreshold) {
          IterateRange(pass, newWind, Some(current), budget - 1, false);
        }
      case _ =>
    }
  }

  /** The loop fails (None) exactly when passes are allowed and the first one finds
      too few usable upwind rows or only one tack. */
  lemma IterateFailsIff(pass: real -> PassOutcome, initialWind: real, budget: nat)
    ensures Iterate(pass, initialWind, None, budget, true).None? <==> budget > 0 && !pass(initialWind).Balanced?
  {
    if budget > 0 {
      match pass(initialWind)
      case Balanced(_, _, newWind) =>
        LaterPassesYieldWind(pass, newWind, Some(initialWind), budget - 1);
      case _ =>
    }
  }

  /** The estimate is the fallback exactly when there are no segments, or when
      the first pass (if any is allowed) finds too few upwind rows or only one tack. */
  lemma FallbackIff(segments: Option<Frame<Segment>>, initialWind: real, maxIterations: int, p: PassSettings)
    ensures IterativeEstimate(segments, initialWind, maxIterations, p).userProvided
        <==> (segments.None? || segments.value.IsEmpty()
              || (maxIterations > 0 && !BalancePass(segments.value.rows, initialWind, p).Balanced?))
    ensures IterativeEstimate(segments, initialWind, maxIterations, p).userProvided ==>
              IterativeEstimate(segments, initialWind, maxIterations, p) == Fallback(initialWind)
  {
    if segments.Some? && !segments.value.IsEmpty() {
      var pass := PassOf(segments.value.rows, p);
      IterateFailsIff(pass, initialWind, Budget(maxIterations));
      assert pass(initialWind) == BalancePass(segments.value.rows, initialWind, p);
    }
  }

  /** The final direction is the initial wind or a compass angle in [0, 360). */
  lemma EstimateDirectionRange(segments: Option<Frame<Segment>>, initialWind: real, maxIterations: int,
                               p: PassSettings)
    ensures IterativeEstimate(segments, initialWind, maxIterations, p).direction == initialWind
         || 0.0 <= IterativeEstimate(segments, initialWind, maxIterations, p).direction < 360.0
  {
    if segments.Some? && !segments.value.IsEmpty() {
      var pass := PassOf(segments.value.rows, p);
      var i := Iterate(pass, initialWind, None, Budget(maxIterations), true);
      if i.Some? {
        PassOfProposesCompassAngles(segments.value.rows, p);
        IterateRange(pass, initialWind, None, Budget(maxIterations), true);
      }
    }
  }

  /** A pass that converges (it moves the wind by less than 1 degree) ends the loop on its new wind. */
  lemma ConvergedPassEnds(pass: real -> PassOutcome, current: real, previous: Option<real>,
                          budget: nat, first: bool)
    requires budget > 0 && pass(current).Balanced?
    requires Abs(pass(current).newWind - current) < 1.0
    ensures Iterate(pass, current, previous, budget, first) == Some(pass(current).newWind)
  {
  }

  /** A pass that returns to within 1 degree of the wind before the current one
      ends the loop on the average of the current and the new wind. */
  lemma OscillationAverages(pass: real -> PassOutcome, current: real, previous: real,
                            budget: nat, first: bool)
    requires budget > 0 && pass(current).Balanced?
    requires Abs(pass(current).newWind - current) >= 1.0 && Abs(pass(current).newWind - previous) < 1.0
    ensures Iterate(pass, current, Some(previous), budget, first) == Some((current + pass(current).newWind) / 2.0)
  {
  }

  /** With no pass allowed, the final analysis runs against the initial wind. */
  lemma NoIterations(segments: Frame<Segment>, initialWind: real, maxIterations: int, p: PassSettings)
    requires !segments.IsEmpty() && maxIterations <= 0
    ensures IterativeEstimate(Some(segments), initialWind, maxIterations, p) == FinalEstimate(segments.rows, initialWind, p)
  {
  }

  /** A single pass: the fallback if it fails, otherwise the final analysis against its new wind. */
  lemma SinglePass(segments: Frame<Segment>, initialWind: real, p: PassSettings)
    requires !segments.IsEmpty()
    ensures BalancePass(segments.rows, initialWind, p).Balanced? ==>
              IterativeEstimate(Some(segments), initialWind, 1, p)
                == FinalEstimate(segments.rows, BalancePass(segments.rows, initialWind, p).newWind, p)
    ensures !BalancePass(segments.rows, initialWind, p).Balanced? ==>
              IterativeEstimate(Some(segments), initialWind, 1, p) == Fallback(initialWind)
  {
    var pass := PassOf(segments.rows, p);
    IterateOnce(pass, initialWind);
    assert pass(initialWind) == BalancePass(segments.rows, initialWind, p);
  }

  /** The angles reported come from the best attempts: a tack has an angle
      exactly when it has a count, the angle is in [0, 90), and the count does
      not exceed the usable rows of that tack. */
  lemma FinalEstimateShape(rows: seq<Segment>, wind: real, p: PassSettings)
    ensures var e := FinalEstimate(rows, wind, p);
            var upwind := UsableUpwind(rows, wind, p);
            && e.direction == wind && !e.userProvided
            && (e.portAngle.Some? <==> e.portCount > 0)
            && (e.starboardAngle.Some? <==> e.starboardCount > 0)
            && e.portCount <= |Filter(upwind, IsPortRow)|
            && e.starboardCount <= |Filter(upwind, IsStarboardRow)|
            && (e.portAngle.Some? ==> 0.0 <= e.portAngle.value < 90.0)
            && (e.starboardAngle.Some? ==> 0.0 <= e.starboardAngle.value < 90.0)
  {
    var upwind := UsableUpwind(rows, wind, p);
    TackShape(rows, wind, p, Filter(upwind, IsPortRow));
    TackShape(rows, wind, p, Filter(upwind, IsStarboardRow));
  }

  /** The best attempts of a tack of usable rows: no more of them than rows, and a median in [0, 90). */
  lemma TackShape(rows: seq<Segment>, wind: real, p: PassSettings, tack: seq<Segment>)
    requires forall s :: s in tack ==> s in UsableUpwind(rows, wind, p)
    ensures |BestAngles(tack, p.bestFraction)| <= |tack|
    ensures |tack| > 0 ==> 0.0 <= Median(BestAngles(tack, p.bestFraction)) < 90.0
  {
    var best := GetBestPointingSegments(tack, C.MinSegmentsForEstimation, p.bestFraction);
    assert |multiset(best)| <= |multiset(tack)|;
    if |tack| > 0 {
      MedianOfUsableTack(rows, wind, p, tack);
    }
  }

  /** The confidence rule, stated on the reported fields: "high" needs both
      angles within 20 degrees, three best attempts per tack and more than
      500 m of usable sailing; otherwise "medium" needs them within 30. */
  lemma FinalConfidenceRule(rows: seq<Segment>, wind: real, p: PassSettings)
    ensures var e := FinalEstimate(rows, wind, p);
      e.confidence == High <==>
        (&& e.portAngle.Some? && e.starboardAngle.Some?
         && Abs(e.portAngle.value - e.starboardAngle.value) < 20.0
         && e.portCount >= 3 && e.starboardCount >= 3
         && FinalDistance(rows, wind, p) > 500.0)
    ensures var e := FinalEstimate(rows, wind, p);
      e.confidence == Medium ==>
        e.portAngle.Some? && e.starboardAngle.Some? && Abs(e.portAngle.value - e.starboardAngle.value) < 30.0
    ensures var e := FinalEstimate(rows, wind, p);
      (e.portAngle.Some? && e.starboardAngle.Some? && Abs(e.portAngle.value - e.starboardAngle.value) < 30.0)
        ==> e.confidence != Low
  {
    var upwind := UsableUpwind(rows, wind, p);
    var port := Filter(upwind, IsPortRow);
    var starboard := Filter(upwind, IsStarboardRow);
    BestCountAtLeastThree(port, p.bestFraction);
    BestCountAtLeastThree(starboard, p.bestFraction);
  }

  /** `estimate_wind_direction_weighted`: the iterative estimator with a single pass. */
  method EstimateWindDirectionWeighted(stretches: Option<Frame<Segment>>, userWindDirection: real,
                                       suspiciousAngleThreshold: real, minSegmentDistance: real,
                                       suspicious: Suspicion) returns (est: WindEstimate)
    requires stretches.Some? && !stretches.value.IsEmpty() ==>
               BearingCol in stretches.value.columns && DistanceCol in stretches.value.columns
    ensures est == IterativeEstimate(stretches, userWindDirection, 1,
                                     PassSettings(suspiciousAngleThreshold, minSegmentDistance, 0.4, suspicious))
  {
    est := EstimateWindDirectionIterative(stretches, userWindDirection, suspiciousAngleThreshold,
                                          minSegmentDistance, 1, 0.4, suspicious);
  }

  // ---------------------------------------------------------------------
  // User-guided search

  /** `np.linspace(-30, 30, 60 // 10 + 1)`: the grid of offsets around the user's wind. */
  function GridOffsets(): (r: seq<int>)
    ensures |r| == 7
    ensures forall k :: 0 <= k < |r| ==> r[k] == -30 + 10 * k
  {
    var width, step := 60, 10;
    seq(width / step + 1, k => -width / 2 + step * k)
  }

  const IntermediateOffsets: seq<int> := [5, -5, 15, -15, 25, -25]

  /** `round(user + offset) % 360` for each offset, with the user's wind a whole degree. */
  function Shifted(user: int, offsets: seq<int>): (r: seq<int>)
    ensures |r| == |offsets|
    ensures forall k :: 0 <= k < |offsets| ==> r[k] == (user + offsets[k]) % 360
  {
    if offsets == [] then [] else [(user + offsets[0]) % 360] + Shifted(user, offsets[1..])
  }

  /** The candidate winds: the shifted offsets, sorted and without duplicates. */
  function CandidateWinds(user: int): seq<int>
  {
    SortedDistinct(Shifted(user, GridOffsets() + IntermediateOffsets))
  }

  /** The score of one candidate wind: `calculate_wind_score` of the rows annotated against it. */
  function CandidateScore(rows: seq<Segment>, wind: int, std: seq<real> -> real): real
  {
    WindScore(AnnotateRows(rows, wind as real), std, 0.5, 0.3, 0.2)
  }

  function ScorerOf(rows: seq<Segment>, std: seq<real> -> real): int -> real
  {
    w => CandidateScore(rows, w, std)
  }

  /** The `(wind, score)` pairs, in candidate order. */
  function Scored(winds: seq<int>, score: int -> real): (r: seq<(int, real)>)
    ensures |r| == |winds|
    ensures forall k :: 0 <= k < |winds| ==> r[k] == (winds[k], score(winds[k]))
  {
    if winds == [] then [] else [(winds[0], score(winds[0]))] + Scored(winds[1..], score)
  }

  function ScoreOf(c: (int, real)): real
  {
    c.1
  }

  /** `max(candidate_scores, key=...)` and the 0.4 threshold: the first pair of
      greatest score, its wind kept only when the score exceeds the threshold. */
  function ChooseBest(candidates: seq<(int, real)>): (Option<int>, real)
  {
    if candidates == [] then (None, 0.0)
    else
      var best := candidates[ArgMax(candidates, ScoreOf)];
      if best.1 > C.MinScoreForUserGuided then (Some(best.0), best.1) else (None, best.1)
  }

  /** `user_guided_wind_estimation` as a function of its inputs. */
  function UserGuided(rows: seq<Segment>, user: int, std: seq<real> -> real): (Option<int>, real)
  {
    ChooseBest(Scored(CandidateWinds(user), ScorerOf(rows, std)))
  }

  /** `user_guided_wind_estimation`: scores every candidate wind, keeps the first best one. */
  method UserGuidedWindEstimation(segments: Frame<Segment>, userWindDirection: int, std: seq<real> -> real)
    returns (wind: Option<int>, score: real)
    requires BearingCol in segments.columns
    ensures (wind, score) == UserGuided(segments.rows, userWindDirection, std)
  {
    var candidateWinds := GenerateCandidates(userWindDirection);
    var candidateScores := ScoreCandidates(segments, candidateWinds, std);
    if candidateScores == [] {
      return None, 0.0;
    }
    var best := candidateScores[ArgMax(candidateScores, ScoreOf)];
    if best.1 > C.MinScoreForUserGuided {
      return Some(best.0), best.1;
    }
    return None, best.1;
  }

  /** The grid candidates, then the intermediate ones appended one by one, then `sorted(list(set(...)))`. */
  method GenerateCandidates(userWindDirection: int) returns (candidateWinds: seq<int>)
    ensures candidateWinds == CandidateWinds(userWindDirection)
  {
    var grid := Shifted(userWindDirection, GridOffsets());
    candidateWinds := AppendShifted(userWindDirection, GridOffsets(), grid, IntermediateOffsets);
    candidateWinds := SortedDistinct(candidateWinds);
  }

  /** Appends `(user + o) % 360` for each offset `o` of `extra` to the shifted `base`. */
  method AppendShifted(user: int, base: seq<int>, shifted: seq<int>, extra: seq<int>) returns (r: seq<int>)
    requires shifted == Shifted(user, base)
    ensures r == Shifted(user, base + extra)
  {
    r := shifted;
    assert base + extra[..0] == base;
    for k := 0 to |extra|
      invariant r == Shifted(user, base + extra[..k])
    {
      ShiftedStep(user, base, extra, k);
      r := r + [(user + extra[k]) % 360];
    }
    assert extra[..|extra|] == extra;
  }

  lemma ShiftedStep(user: int, base: seq<int>, extra: seq<int>, k: nat)
    requires k < |extra|
    ensures Shifted(user, base + extra[..k + 1]) == Shifted(user, base + extra[..k]) + [(user + extra[k]) % 360]
  {
    ShiftedSnoc(user, base + extra[..k], extra[k]);
    assert base + extra[..k + 1] == (base + extra[..k]) + [extra[k]];
  }

  /** The scoring loop: one `(wind, score)` pair per candidate, in order. */
  method ScoreCandidates(segments: Frame<Segment>, candidateWinds: seq<int>, std: seq<real> -> real)
    returns (candidateScores: seq<(int, real)>)
    requires BearingCol in segments.columns
    ensures candidateScores == Scored(candidateWinds, ScorerOf(segments.rows, std))
  {
    ghost var scorer := ScorerOf(segments.rows, std);
    candidateScores := [];
    assert candidateWinds[..0] == [];
    for k := 0 to |candidateWinds|
      invariant candidateScores == Scored(candidateWinds[..k], scorer)
    {
      var w := candidateWinds[k];
      var s := ScoreCandidate(segments, w, std);
      ScoredStep(candidateWinds, k, scorer);
      candidateScores := candidateScores + [(w, s)];
    }
    assert candidateWinds[..|candidateWinds|] == candidateWinds;
  }

  /** One candidate: annotate the segments against it, then score them. */
  method ScoreCandidate(segments: Frame<Segment>, w: int, std: seq<real> -> real) returns (s: real)
    requires BearingCol in segments.columns
    ensures s == ScorerOf(segments.rows, std)(w)
  {
    var analyzed := AnalyzeWindAngles(segments, w as real);
    s := WindScore(analyzed.rows, std, 0.5, 0.3, 0.2);
  }

  lemma ShiftedSnoc(user: int, offsets: seq<int>, o: int)
    ensures Shifted(user, offsets + [o]) == Shifted(user, offsets) + [(user + o) % 360]
  {
    var l, r := Shifted(user, offsets + [o]), Shifted(user, offsets) + [(user + o) % 360];
    assert forall k :: 0 <= k < |l| ==> l[k] == r[k];
  }

  lemma ScoredStep(winds: seq<int>, k: nat, score: int -> real)
    requires k < |winds|
    ensures Scored(winds[..k + 1], score) == Scored(winds[..k], score) + [(winds[k], score(winds[k]))]
  {
    assert winds[..k + 1] == winds[..k] + [winds[k]];
    ScoredSnoc(winds[..k], winds[k], score);
  }

  lemma ScoredSnoc(winds: seq<int>, w: int, score: int -> real)
    ensures Scored(winds + [w], score) == Scored(winds, score) + [(w, score(w))]
  {
    var l, r := Scored(winds + [w], score), Scored(winds, score) + [(w, score(w))];
    assert forall k :: 0 <= k < |l| ==> l[k] == r[k];
  }

  /** Over non-empty strictly increasing candidates, the choice keeps a wind
      exactly when the best score exceeds 0.4; the score is the greatest of all
      candidates, the wind is a candidate having it, and every smaller
      candidate scores strictly less. */
  lemma {:induction false} ChooseBestSpec(winds: seq<int>, score: int -> real)
    requires winds != [] && StrictlyIncreasing(winds)
    ensures var best := ChooseBest(Scored(winds, score));
            && (best.0.Some? <==> best.1 > 0.4)
            && (forall w :: w in winds ==> score(w) <= best.1)
            && (best.0.Some? ==>
                  best.0.value in winds && score(best.0.value) == best.1
                  && forall w :: w in winds && w < best.0.value ==> score(w) < score(best.0.value))
  {
    var candidates := Scored(winds, score);
    var i := ArgMax(candidates, ScoreOf);
    assert candidates[i] == (winds[i], score(winds[i]));
    forall w | w in winds
      ensures score(w) <= score(winds[i])
      ensures w < winds[i] ==> score(w) < score(winds[i])
    {
      var k :| 0 <= k < |winds| && winds[k] == w;
      ScoredArgMax(winds, score, i, k);
    }
  }

  /** The pair ArgMax picks scores at least as high as any other, and higher than any earlier one. */
  lemma ScoredArgMax(winds: seq<int>, score: int -> real, i: nat, k: nat)
    requires winds != [] && StrictlyIncreasing(winds) && k < |winds|
    requires i == ArgMax(Scored(winds, score), ScoreOf)
    ensures score(winds[k]) <= score(winds[i])
    ensures winds[k] < winds[i] ==> score(winds[k]) < score(winds[i])
  {
    var candidates := Scored(winds, score);
    assert ScoreOf(candidates[k]) <= ScoreOf(candidates[i]);
    if winds[k] < winds[i] {
      assert k < i;
      assert ScoreOf(candidates[k]) < ScoreOf(candidates[i]);
    }
  }

  /** The candidates are strictly increasing compass degrees, and they are
      exactly the user's wind shifted by one of the 13 offsets, modulo 360. */
  lemma CandidateWindsShape(user: int)
    ensures StrictlyIncreasing(CandidateWinds(user))
    ensures forall w :: w in CandidateWinds(user) ==> 0 <= w < 360
    ensures forall w :: w in CandidateWinds(user) <==>
              exists o :: o in GridOffsets() + IntermediateOffsets && w == (user + o) % 360
  {
    ShiftedMembers(user, GridOffsets() + IntermediateOffsets);
  }

  /** The shifted winds are compass degrees, one per offset. */
  lemma ShiftedMembers(user: int, offsets: seq<int>)
    ensures forall w :: w in Shifted(user, offsets) ==> 0 <= w < 360
    ensures forall w :: w in Shifted(user, offsets) <==> exists o :: o in offsets && w == (user + o) % 360
  {
    var shifted := Shifted(user, offsets);
    forall w
      ensures w in shifted <==> exists o :: o in offsets && w == (user + o) % 360
    {
      if w in shifted {
        var k :| 0 <= k < |shifted| && shifted[k] == w;
        assert offsets[k] in offsets;
      }
      if exists o :: o in offsets && w == (user + o) % 360 {
        var o :| o in offsets && w == (user + o) % 360;
        var k :| 0 <= k < |offsets| && offsets[k] == o;
        assert shifted[k] == w;
      }
    }
  }

  /** The user's own wind (offset 0) and the ends of the search range are always candidates. */
  lemma CandidateWindsIncludeUser(user: int)
    ensures user % 360 in CandidateWinds(user)
    ensures (user - 30) % 360 in CandidateWinds(user) && (user + 30) % 360 in CandidateWinds(user)
  {
    var offsets := GridOffsets() + IntermediateOffsets;
    assert offsets[3] == 0 && offsets[0] == -30 && offsets[6] == 30;
    CandidateWindsShape(user);
  }

  /** The chosen wind is the first candidate of best score and is kept exactly
      when that score exceeds 0.4; no candidate scores higher. */
  lemma UserGuidedChoice(rows: seq<Segment>, user: int, std: seq<real> -> real)
    ensures UserGuided(rows, user, std).0.Some? <==> UserGuided(rows, user, std).1 > 0.4
    ensures forall w :: w in CandidateWinds(user) ==> CandidateScore(rows, w, std) <= UserGuided(rows, user, std).1
    ensures UserGuided(rows, user, std).0.Some? ==>
              var b := UserGuided(rows, user, std).0.value;
              b in CandidateWinds(user) && CandidateScore(rows, b, std) == UserGuided(rows, user, std).1
              && forall w :: w in CandidateWinds(user) && w < b ==> CandidateScore(rows, w, std) < CandidateScore(rows, b, std)
  {
    CandidateWindsIncludeUser(user);
    CandidateWindsShape(user);
    ChooseBestSpec(CandidateWinds(user), ScorerOf(rows, std));
  }

  // ---------------------------------------------------------------------
  // Most opposite pair of cluster centres

  /** Angular distance, the smaller of the two ways round. */
  function CircularDiff(a: real, b: real): real
  {
    var d := Abs(a - b);
    Min(d, C.FullCircle - d)
  }

  lemma CircularDiffRange(a: real, b: real)
    requires 0.0 <= a < 360.0 && 0.0 <= b < 360.0
    ensures 0.0 <= CircularDiff(a, b) <= 180.0
    ensures CircularDiff(a, b) == CircularDiff(b, a)
  {
  }

  /** The angle of the centre at position k of the top clusters. */
  function TopAngle(centres: seq<real>, top: seq<nat>, k: nat): real
    requires k < |top| && forall m :: 0 <= m < |top| ==> top[m] < |centres|
  {
    Mod360(centres[top[k]])
  }

  function PairDiff(centres: seq<real>, top: seq<nat>, i: nat, j: nat): real
    requires i < |top| && j < |top| && forall m :: 0 <= m < |top| ==> top[m] < |centres|
  {
    CircularDiff(TopAngle(centres, top, i), TopAngle(centres, top, j))
  }

  /** The pair (i', j') is visited before (i, j) by the two nested loops. */
  predicate Before(i': int, j': int, i: int, j: int)
  {
    i' < i || (i' == i && j' < j)
  }

  /** The nested loops of `bearing_cluster_analysis`: `centres` are the centre
      angles in degrees before `% 360`, and `top` the indices of the largest clusters. */
  method MostOppositePair(centres: seq<real>, top: seq<nat>) returns (angle1: real, angle2: real, maxDiff: real)
    requires forall m :: 0 <= m < |top| ==> top[m] < |centres|
    ensures |top| < 2 ==> angle1 == 0.0 && angle2 == 0.0 && maxDiff == -1.0
    ensures forall i, j :: 0 <= i < j < |top| ==> PairDiff(centres, top, i, j) <= maxDiff
    ensures |top| >= 2 ==>
      exists i, j :: 0 <= i < j < |top|
        && angle1 == TopAngle(centres, top, i) && angle2 == TopAngle(centres, top, j)
        && maxDiff == PairDiff(centres, top, i, j)
        && forall i', j' :: 0 <= i' < j' < |top| && Before(i', j', i, j) ==> PairDiff(centres, top, i', j') < maxDiff
    ensures |top| >= 2 ==> 0.0 <= maxDiff <= 180.0
  {
    maxDiff := -1.0;
    angle1, angle2 := 0.0, 0.0;
    ghost var bi, bj := 0, 0;
    ghost var found := false;
    for i := 0 to |top|
      invariant found <==> i > 0 && |top| >= 2
      invariant !found ==> angle1 == 0.0 && angle2 == 0.0 && maxDiff == -1.0
      invariant found ==> OppositeBest(centres, top, bi, bj, angle1, angle2, maxDiff) && bi < i
      invariant forall i', j' :: 0 <= i' < j' < |top| && i' < i ==> PairDiff(centres, top, i', j') <= maxDiff
    {
      for j := i + 1 to |top|
        invariant found <==> (i > 0 && |top| >= 2) || j > i + 1
        invariant !found ==> angle1 == 0.0 && angle2 == 0.0 && maxDiff == -1.0
        invariant found ==> OppositeBest(centres, top, bi, bj, angle1, angle2, maxDiff) && Before(bi, bj, i, j)
        invariant forall i', j' :: 0 <= i' < j' < |top| && Before(i', j', i, j) ==> PairDiff(centres, top, i', j') <= maxDiff
      {
        var angleI, angleJ := Mod360(centres[top[i]]), Mod360(centres[top[j]]);
        var diff := Abs(angleI - angleJ);
        diff := Min(diff, C.FullCircle - diff);
        assert diff == PairDiff(centres, top, i, j);
        CircularDiffRange(angleI, angleJ);
        if diff > maxDiff {
          maxDiff := diff;
          angle1, angle2 := angleI, angleJ;
          bi, bj := i, j;
        }
        found := true;
      }
    }
  }

  /** (bi, bj) is a pair of top clusters whose angles are reported, its
      distance is the maximum so far, and every pair visited before it is strictly closer. */
  ghost predicate OppositeBest(centres: seq<real>, top: seq<nat>, bi: int, bj: int,
                               angle1: real, angle2: real, maxDiff: real)
    requires forall m :: 0 <= m < |top| ==> top[m] < |centres|
  {
    && 0 <= bi < bj < |top|
    && angle1 == TopAngle(centres, top, bi) && angle2 == TopAngle(centres, top, bj)
    && maxDiff == PairDiff(centres, top, bi, bj)
    && 0.0 <= maxDiff <= 180.0
    && forall i', j' :: 0 <= i' < j' < |top| && Before(i', j', bi, bj) ==> PairDiff(centres, top, i', j') < maxDiff
  }
}
