/** The estimator registry of backend/core/wind/factory.py: two estimators
    keyed by lower-case method names, a parameter record whose fields default
    to the library's constants, and a convenience entry point that picks an
    estimator by name (unknown names fall back to the iterative one). */
module WindFactory {
  import opened Wrappers
  import opened PyNum
  import opened Frames
  import opened SegmentModel
  import opened WindAlgorithms
  import C = Constants

  /** `WindEstimationParams`. */
  datatype WindEstimationParams = WindEstimationParams(
    suspiciousAngleThreshold: real,
    minSegmentDistance: real,
    maxIterations: int,
    bestAttemptsFraction: real)

  /** `WindEstimationParams()`: the dataclass defaults. */
  const DefaultParams: WindEstimationParams :=
    WindEstimationParams(C.DefaultSuspiciousAngleThreshold, C.DefaultMinSegmentDistance, 5, 0.4)

  /** `WindEstimationParams.to_dict`, with `max_iterations` widened to a number like the others. */
  function ParamsToDict(p: WindEstimationParams): (d: map<string, real>)
    ensures d.Keys == {"suspicious_angle_threshold", "min_segment_distance", "max_iterations",
                       "best_attempts_fraction"}
  {
    map["suspicious_angle_threshold" := p.suspiciousAngleThreshold,
        "min_segment_distance" := p.minSegmentDistance,
        "max_iterations" := p.maxIterations as real,
        "best_attempts_fraction" := p.bestAttemptsFraction]
  }

  /** The dictionary keeps every parameter: two records with the same dictionary are equal. */
  lemma ParamsToDictInjective(a: WindEstimationParams, b: WindEstimationParams)
    requires ParamsToDict(a) == ParamsToDict(b)
    ensures a == b
  {
    assert ParamsToDict(a)["suspicious_angle_threshold"] == ParamsToDict(b)["suspicious_angle_threshold"];
    assert ParamsToDict(a)["min_segment_distance"] == ParamsToDict(b)["min_segment_distance"];
    assert ParamsToDict(a)["max_iterations"] == ParamsToDict(b)["max_iterations"];
    assert ParamsToDict(a)["best_attempts_fraction"] == ParamsToDict(b)["best_attempts_fraction"];
  }

  /** The two concrete `WindEstimator` classes. */
  datatype Estimator = Iterative | Weighted
  {
    /** The `name` property. */
    function Name(): string
    {
      match this
      case Iterative => "Iterative"
      case Weighted => "Weighted"
    }

    /** The `description` property. */
    function Description(): string
    {
      match this
      case Iterative => "Advanced algorithm with iterative tack reclassification for accurate wind estimation"
      case Weighted => "Legacy distance-weighted algorithm (has known tack classification limitation)"
    }
  }

  /** `WindEstimationFactory._estimators`. */
  const Estimators: map<string, Estimator> := map["iterative" := Iterative, "weighted" := Weighted]

  /** The keys of `_estimators` in insertion order, the order Python iterates them. */
  const EstimatorKeys: seq<string> := ["iterative", "weighted"]

  /** The registry key of each estimator. */
  function Key(e: Estimator): (k: string)
    ensures k in Estimators && Estimators[k] == e
  {
    match e
    case Iterative => "iterative"
    case Weighted => "weighted"
  }

  /** The key sequence lists every registry key once, so iterating it visits the whole registry. */
  lemma EstimatorKeysExact()
    ensures forall k :: k in Estimators <==> k in EstimatorKeys
    ensures |EstimatorKeys| == 2 && EstimatorKeys[0] != EstimatorKeys[1]
  {
  }

  /** What the estimator computes on the given inputs; `None` parameters mean the defaults. */
  function EstimateWith(e: Estimator, segments: Option<Frame<Segment>>, initialWind: real,
                        params: Option<WindEstimationParams>, suspicious: Suspicion): WindEstimate
  {
    var p := if params.None? then DefaultParams else params.value;
    match e
    case Iterative =>
      IterativeEstimate(segments, initialWind, p.maxIterations,
                        PassSettings(p.suspiciousAngleThreshold, p.minSegmentDistance, p.bestAttemptsFraction, suspicious))
    case Weighted =>
      IterativeEstimate(segments, initialWind, 1,
                        PassSettings(p.suspiciousAngleThreshold, p.minSegmentDistance, 0.4, suspicious))
  }

  /** `WindEstimator.estimate` of each estimator: forwards the parameters to the algorithm. */
  method Estimate(e: Estimator, segments: Option<Frame<Segment>>, initialWind: real,
                  params: Option<WindEstimationParams>, suspicious: Suspicion) returns (est: WindEstimate)
    requires segments.Some? && !segments.value.IsEmpty() ==>
               BearingCol in segments.value.columns && DistanceCol in segments.value.columns
    ensures est == EstimateWith(e, segments, initialWind, params, suspicious)
    ensures est.direction == initialWind || 0.0 <= est.direction < 360.0
  {
    var p := if params.None? then DefaultParams else params.value;
    match e {
      case Iterative =>
        est := EstimateWindDirectionIterative(segments, initialWind, p.suspiciousAngleThreshold,
                                              p.minSegmentDistance, p.maxIterations,
                                              p.bestAttemptsFraction, suspicious);
      case Weighted =>
        est := EstimateWindDirectionWeighted(segments, initialWind, p.suspiciousAngleThreshold,
                                             p.minSegmentDistance, suspicious);
    }
    EstimateWithRange(e, segments, initialWind, params, suspicious);
  }

  /** Whatever the estimator, the direction is the initial wind or a compass angle in [0, 360). */
  lemma EstimateWithRange(e: Estimator, segments: Option<Frame<Segment>>, initialWind: real,
                          params: Option<WindEstimationParams>, suspicious: Suspicion)
    ensures EstimateWith(e, segments, initialWind, params, suspicious).direction == initialWind
         || 0.0 <= EstimateWith(e, segments, initialWind, params, suspicious).direction < 360.0
  {
    var p := if params.None? then DefaultParams else params.value;
    match e
    case Iterative =>
      EstimateDirectionRange(segments, initialWind, p.maxIterations,
                             PassSettings(p.suspiciousAngleThreshold, p.minSegmentDistance,
                                          p.bestAttemptsFraction, suspicious));
    case Weighted =>
      EstimateDirectionRange(segments, initialWind, 1,
                             PassSettings(p.suspiciousAngleThreshold, p.minSegmentDistance, 0.4, suspicious));
  }

  /** Passing no parameters is the same as passing the defaults, for both estimators. */
  lemma NoParamsMeansDefaults(e: Estimator, segments: Option<Frame<Segment>>, initialWind: real,
                              suspicious: Suspicion)
    ensures EstimateWith(e, segments, initialWind, None, suspicious)
         == EstimateWith(e, segments, initialWind, Some(DefaultParams), suspicious)
  {
  }

  /** The weighted estimator is the iterative one limited to a single pass with a 0.4 fraction:
      it ignores `max_iterations` and `best_attempts_fraction`. */
  lemma WeightedIsSinglePass(segments: Option<Frame<Segment>>, initialWind: real,
                             p: WindEstimationParams, suspicious: Suspicion)
    ensures EstimateWith(Weighted, segments, initialWind, Some(p), suspicious)
         == EstimateWith(Iterative, segments, initialWind, Some(p.(maxIterations := 1, bestAttemptsFraction := 0.4)),
                         suspicious)
  {
  }

  /** `create_estimator`: looks up the lower-cased name, falling back to the iterative estimator. */
  function CreateEstimator(methodName: string): (e: Estimator)
  {
    var methodLower := Lower(methodName);
    var key := if methodLower !in Estimators then "iterative" else methodLower;
    Estimators[key]
  }

  /** The weighted estimator is chosen exactly when the name is "weighted" in any letter case;
      every other name, known or not, gives the iterative one. */
  lemma CreateEstimatorChoice(methodName: string)
    ensures CreateEstimator(methodName) == Weighted <==> Lower(methodName) == "weighted"
    ensures CreateEstimator(methodName) == Iterative <==> Lower(methodName) != "weighted"
  {
  }

  /** The lookup ignores letter case. */
  lemma CreateEstimatorIgnoresCase(a: string, b: string)
    requires Lower(a) == Lower(b)
    ensures CreateEstimator(a) == CreateEstimator(b)
  {
  }

  /** Each estimator is created back from its own registry key. */
  lemma CreateFromKey(e: Estimator)
    ensures CreateEstimator(Key(e)) == e
  {
    match e
    case Iterative => LowerOfLowercase("iterative");
    case Weighted => LowerOfLowercase("weighted");
  }

  /** A name already in lower case is its own `lower()`. */
  lemma {:induction false} LowerOfLowercase(s: string)
    requires forall i :: 0 <= i < |s| ==> !('A' <= s[i] <= 'Z')
    ensures Lower(s) == s
  {
    if s != [] {
      LowerOfLowercase(s[1..]);
      assert Lower(s) == [LowerChar(s[0])] + Lower(s[1..]);
    }
  }

  /** Upper-case spellings reach the same estimators. */
  lemma CreateUpperCase()
    ensures CreateEstimator("WEIGHTED") == Weighted
    ensures CreateEstimator("Iterative") == Iterative
  {
    assert Lower("WEIGHTED") == "weighted" by {
      LowerUnfold("WEIGHTED");
    }
  }

  lemma LowerUnfold(s: string)
    ensures Lower(s) == seq(|s|, i requires 0 <= i < |s| => LowerChar(s[i]))
  {
  }

  /** `get_default_method`. */
  function GetDefaultMethod(): (m: string)
    ensures m in Estimators && CreateEstimator(m) == Estimators[m]
  {
    LowerOfLowercase("iterative");
    "iterative"
  }

  /** The default method names the iterative estimator. */
  lemma DefaultIsIterative()
    ensures CreateEstimator(GetDefaultMethod()) == Iterative
  {
    LowerOfLowercase(GetDefaultMethod());
  }

  /** The `"<name>: <description>"` entry of one estimator. */
  function Summary(e: Estimator): string
  {
    e.Name() + ": " + e.Description()
  }

  /** An entry starts with the estimator's name and ends with its description, two separator characters between. */
  lemma SummaryParts(e: Estimator)
    ensures |Summary(e)| == |e.Name()| + 2 + |e.Description()|
    ensures Summary(e)[..|e.Name()|] == e.Name()
    ensures Summary(e)[|e.Name()| + 2..] == e.Description()
  {
    LabelledParts(e.Name(), e.Description());
  }

  lemma LabelledParts(name: string, description: string)
    ensures |name + ": " + description| == |name| + 2 + |description|
    ensures (name + ": " + description)[..|name|] == name
    ensures (name + ": " + description)[|name| + 2..] == description
  {
    var s := name + ": " + description;
    assert s == name + (": " + description);
  }

  /** `get_available_methods`: one entry per registry key. */
  method GetAvailableMethods() returns (result: map<string, string>)
    ensures result.Keys == Estimators.Keys
    ensures forall k :: k in result ==> result[k] == Summary(Estimators[k])
  {
    EstimatorKeysExact();
    result := Summaries(EstimatorKeys, Estimators);
  }

  /** The loop of `get_available_methods` over the registry's keys, in iteration order. */
  method Summaries(keys: seq<string>, registry: map<string, Estimator>) returns (result: map<string, string>)
    requires forall k :: k in keys ==> k in registry
    ensures forall k :: k in result <==> k in keys
    ensures forall k :: k in result ==> result[k] == Summary(registry[k])
  {
    result := map[];
    for i := 0 to |keys|
      invariant forall k :: k in result <==> k in keys[..i]
      invariant forall k :: k in result ==> k in registry && result[k] == Summary(registry[k])
    {
      var methodKey := keys[i];
      var estimator := registry[methodKey];
      assert keys[..i + 1] == keys[..i] + [methodKey];
      result := result[methodKey := Summary(estimator)];
    }
    assert keys[..|keys|] == keys;
  }

  /** `estimate_wind_direction_factory`: picks the estimator by name, then estimates. */
  method EstimateWindDirectionFactory(segments: Option<Frame<Segment>>, initialWind: real, methodName: string,
                                      params: Option<WindEstimationParams>, suspicious: Suspicion)
    returns (est: WindEstimate)
    requires segments.Some? && !segments.value.IsEmpty() ==>
               BearingCol in segments.value.columns && DistanceCol in segments.value.columns
    ensures est == EstimateWith(CreateEstimator(methodName), segments, initialWind, params, suspicious)
  {
    var estimator := CreateEstimator(methodName);
    est := Estimate(estimator, segments, initialWind, params, suspicious);
  }

  /** With the default method and no parameters the factory runs the iterative estimator
      with threshold 20, minimum distance 50, five iterations and fraction 0.4. */
  lemma FactoryDefaults(segments: Option<Frame<Segment>>, initialWind: real, suspicious: Suspicion)
    ensures EstimateWith(CreateEstimator(GetDefaultMethod()), segments, initialWind, None, suspicious)
         == IterativeEstimate(segments, initialWind, 5, PassSettings(20.0, 50.0, 0.4, suspicious))
  {
    DefaultIsIterative();
  }

  /** An unknown method name behaves like "iterative". */
  lemma UnknownMethodFallsBack(segments: Option<Frame<Segment>>, initialWind: real, methodName: string,
                               params: Option<WindEstimationParams>, suspicious: Suspicion)
    requires Lower(methodName) !in Estimators
    ensures EstimateWith(CreateEstimator(methodName), segments, initialWind, params, suspicious)
         == EstimateWith(Iterative, segments, initialWind, params, suspicious)
  {
  }
}
