/** The numeric constants of backend/core/constants.py and backend/config/settings.py that the core uses. */
module Constants {
  const MetersPerSecondToKnots: real := 1.94384
  const KnotsToMetersPerSecond: real := 1.0 / 1.94384
  const MetersPerKilometer: real := 1000.0

  const FullCircle: real := 360.0
  const WrapBoundary: real := 180.0
  const UpwindBoundary: real := 90.0

  const DefaultSuspiciousAngleThreshold: real := 20.0
  const WindSearchRange: real := 30.0
  const DefaultMinSegmentDistance: real := 50.0
  const MinReliableSegmentLength: real := 30.0
  const HighConfidenceMinDistance: real := 500.0

  const MinSegmentsForEstimation: int := 3
  const MinScoreForUserGuided: real := 0.4
  const ConvergenceThreshold: real := 1.0

  /** The tack-difference bounds the iterative estimator compares against for "high" and "medium". */
  const MediumConfidenceTackDiff: real := 20.0
  const MaxTackDiffForAdjustment: real := 30.0

  const QualityWeightDistance: real := 0.5
  const QualityWeightSpeed: real := 0.3
  const QualityWeightDuration: real := 0.2

  /** Session defaults of the service layer. */
  const DefaultAngleTolerance: real := 25.0
  const DefaultMinDistance: real := 75.0
  const DefaultMinDuration: real := 15.0
  const DefaultMinSpeed: real := 8.0

  /** 10 * 1024 * 1024 bytes. */
  const MaxUploadBytes: int := 10 * 1024 * 1024
}
