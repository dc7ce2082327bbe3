/**
 * The chain of hourly prediction strategies (ml/prediction_strategies.py): a
 * linear model over the learnt weights, clipped to a physical maximum; the
 * historical hourly profile; and a sine-shaped fallback. The orchestrator
 * tries its strategies in order and answers with the first that is available
 * and does not fail.
 *
 * Features are a Python dictionary, here its items in insertion order. The
 * constants HOURLY_PRODUCTION_SAFETY_MARGIN and DEFAULT_MAX_HOURLY_KWH, which
 * the source imports from its constants module, are parameters (`Limits`);
 * `sin` and `pi` are parameters too (`Trig`).
 */
module PredictionStrategies {
  import opened Common
  import opened MlTypes

  /** The items of a feature dictionary, in insertion order. */
  type Features = seq<(string, real)>

  /** `features.get(name, default)`. */
  function Get(features: Features, name: string, default: real): (v: real)
    ensures (forall i :: 0 <= i < |features| ==> features[i].0 != name) ==> v == default
    ensures v != default ==> exists i :: 0 <= i < |features| && features[i] == (name, v)
  {
    if features == [] then default
    else if features[0].0 == name then features[0].1
    else
      var v := Get(features[1..], name, default);
      assert forall i :: 1 <= i < |features| ==> features[i] == features[1..][i - 1];
      v
  }

  /** The two constants that bound a prediction. */
  datatype Limits = Limits(safetyMargin: real, defaultMaxHourlyKwh: real)

  /** `math.sin` and `math.pi`. */
  datatype Trig = Trig(sin: real -> real, pi: real)

  datatype PredictionResult = PredictionResult(
    prediction: real,
    confidence: real,
    methodName: string,
    featuresUsed: Features,
    modelAccuracy: Option<real>)

  /** The strategies, each with the state its constructor keeps. */
  datatype Strategy =
    | MlModel(weights: Option<LearnedWeights>, currentAccuracy: real, peakPowerKw: real, maxHourlyKwh: real)
    | Profile(profile: Option<HourlyProfile>, maxHourlyKwh: real)
    | Fallback

  /** The error a strategy raises instead of predicting. */
  datatype StrategyError = NoTrainedWeights | NoHourlyProfile

  // ---------------------------------------------------------------------
  // MLModelStrategy
  // ---------------------------------------------------------------------

  /** `max(0.0, min(x, hi))`: a prediction kept within [0, hi]. */
  function ClipToHour(x: real, hi: real): (r: real)
    ensures r >= 0.0
    ensures hi >= 0.0 ==> r <= hi
    ensures hi < 0.0 ==> r == 0.0
    ensures 0.0 <= x <= hi ==> r == x
    ensures x <= 0.0 ==> r == 0.0
  {
    Max(0.0, Min(x, hi))
  }

  /** `MLModelStrategy.__init__`: the maximum is peak × safety margin, or the default without a positive peak. */
  function NewMlModel(weights: Option<LearnedWeights>, accuracy: real, peakPowerKw: real, limits: Limits): (s: Strategy)
    ensures s.MlModel? && s.weights == weights && s.currentAccuracy == accuracy
    ensures peakPowerKw > 0.0 ==> s.maxHourlyKwh == peakPowerKw * limits.safetyMargin
    ensures peakPowerKw <= 0.0 ==> s.maxHourlyKwh == limits.defaultMaxHourlyKwh
  {
    var peak := if peakPowerKw != 0.0 then peakPowerKw else 0.0;
    var maxHourly := if peak > 0.0 then peak * limits.safetyMargin else limits.defaultMaxHourlyKwh;
    MlModel(weights, accuracy, peak, maxHourly)
  }

  /** The weight of a feature, 0.0 when the model has none for it. */
  function WeightOf(weights: map<string, real>, name: string): real
  {
    if name in weights then weights[name] else 0.0
  }

  /** Σ weight·value over the features, in order. */
  function WeightedSum(weights: map<string, real>, features: Features): real
  {
    if features == [] then 0.0
    else (WeightedSum(weights, features[..|features| - 1])
      + WeightOf(weights, features[|features| - 1].0) * features[|features| - 1].1)
  }

  /** The weighted sum is linear in the features: the sum over two parts is the sum of the parts. */
  lemma {:induction false} WeightedSumAppend(weights: map<string, real>, a: Features, b: Features)
    ensures WeightedSum(weights, a + b) == WeightedSum(weights, a) + WeightedSum(weights, b)
  {
    if b != [] {
      var c := a + b;
      assert c[..|c| - 1] == a + b[..|b| - 1];
      WeightedSumAppend(weights, a, b[..|b| - 1]);
    } else {
      assert a + b == a;
    }
  }

  /** Features the model has no weight for contribute nothing. */
  lemma {:induction false} UnweightedFeaturesContributeNothing(weights: map<string, real>, features: Features)
    requires forall i :: 0 <= i < |features| ==> features[i].0 !in weights
    ensures WeightedSum(weights, features) == 0.0
  {
    if features != [] {
      UnweightedFeaturesContributeNothing(weights, features[..|features| - 1]);
    }
  }

  /**
   * `_calculate_confidence` on the two features it reads: 0.5 when the
   * accuracy is zero; otherwise the accuracy, raised by 10% after a
   * productive yesterday and scaled by the weather stability, then clamped
   * to [0, 1].
   */
  function Confidence(accuracy: real, productionYesterday: real, stability: real): (c: real)
    ensures 0.0 <= c <= 1.0
    ensures accuracy == 0.0 ==> c == 0.5
  {
    if accuracy == 0.0 then 0.5
    else
      var base := if productionYesterday > 0.0 then accuracy * 1.1 else accuracy;
      Min(1.0, Max(0.0, base * (0.8 + 0.2 * stability)))
  }

  /** `_calculate_confidence(features)`, with production_yesterday defaulting to 0.0 and weather_stability to 0.5. */
  function MlConfidence(accuracy: real, features: Features): (c: real)
    ensures 0.0 <= c <= 1.0
    ensures accuracy == 0.0 ==> c == 0.5
  {
    Confidence(accuracy, Get(features, "production_yesterday", 0.0), Get(features, "weather_stability", 0.5))
  }

  /** Clamping to [0, 1] is monotone. */
  lemma UnitClampMonotone(x: real, y: real)
    requires x <= y
    ensures Min(1.0, Max(0.0, x)) <= Min(1.0, Max(0.0, y))
  {
  }

  /** With a non-negative stability factor, a more accurate model is never less confident. */
  lemma ConfidenceMonotone(a1: real, a2: real, productionYesterday: real, stability: real)
    requires 0.0 < a1 <= a2
    requires 0.8 + 0.2 * stability >= 0.0
    ensures Confidence(a1, productionYesterday, stability) <= Confidence(a2, productionYesterday, stability)
  {
    var k := 0.8 + 0.2 * stability;
    if productionYesterday > 0.0 {
      MulMonotone(a1 * 1.1, a2 * 1.1, k);
      UnitClampMonotone(a1 * 1.1 * k, a2 * 1.1 * k);
    } else {
      MulMonotone(a1, a2, k);
      UnitClampMonotone(a1 * k, a2 * k);
    }
  }

  lemma UnitProduct(x: real, y: real)
    requires 0.0 <= x <= 1.0 && 0.0 <= y <= 1.0
    ensures 0.0 <= x * y <= 1.0
  {
    MulMonotone(x, 1.0, y);
    assert 1.0 * y == y;
    assert x * y <= y;
    MulMonotone(0.0, x, y);
    assert 0.0 * y == 0.0;
  }

  /** What `MLModelStrategy.predict` returns or raises. */
  function MlOutcome(s: Strategy, features: Features): (r: Result<PredictionResult, StrategyError>)
    requires s.MlModel?
    ensures r.Err? <==> s.weights.None?
    ensures r.Err? ==> r.error == NoTrainedWeights
    ensures r.Ok? ==> 0.0 <= r.value.prediction && 0.0 <= r.value.confidence <= 1.0
    ensures r.Ok? && s.maxHourlyKwh >= 0.0 ==> r.value.prediction <= s.maxHourlyKwh
    ensures r.Ok? ==> r.value.modelAccuracy == Some(s.currentAccuracy) && r.value.methodName == "ml_model"
  {
    if s.weights.None? then Err(NoTrainedWeights)
    else
      var w := s.weights.value;
      var linear := w.bias + WeightedSum(w.weights, features);
      Ok(PredictionResult(ClipToHour(linear, s.maxHourlyKwh), MlConfidence(s.currentAccuracy, features),
        "ml_model", features, Some(s.currentAccuracy)))
  }

  /** The linear model's answer is bias + Σ weight·feature whenever that lies within [0, max_hourly_kwh]. */
  lemma MlOutcomeIsLinear(s: Strategy, features: Features)
    requires s.MlModel? && s.weights.Some?
    requires 0.0 <= s.weights.value.bias + WeightedSum(s.weights.value.weights, features) <= s.maxHourlyKwh
    ensures MlOutcome(s, features).value.prediction == s.weights.value.bias + WeightedSum(s.weights.value.weights, features)
  {
  }

  /** `MLModelStrategy.predict`, accumulating the linear sum feature by feature. */
  method MlPredict(s: Strategy, features: Features) returns (r: Result<PredictionResult, StrategyError>)
    requires s.MlModel?
    ensures r == MlOutcome(s, features)
  {
    if s.weights.None? {
      return Err(NoTrainedWeights);
    }
    var w := s.weights.value;
    var prediction := w.bias;
    var i := 0;
    while i < |features|
      invariant 0 <= i <= |features|
      invariant prediction == w.bias + WeightedSum(w.weights, features[..i])
    {
      var (name, value) := features[i];
      var weight := if name in w.weights then w.weights[name] else 0.0;
      assert features[..i + 1][..i] == features[..i];
      prediction := prediction + weight * value;
      i := i + 1;
    }
    assert features[..i] == features;
    prediction := Max(0.0, Min(prediction, s.maxHourlyKwh));
    var confidence := MlConfidence(s.currentAccuracy, features);
    r := Ok(PredictionResult(prediction, confidence, "ml_model", features, Some(s.currentAccuracy)));
  }

  // ---------------------------------------------------------------------
  // ProfileStrategy
  // ---------------------------------------------------------------------

  /** `ProfileStrategy.__init__`: twice the default hourly maximum. */
  function NewProfile(profile: Option<HourlyProfile>, limits: Limits): (s: Strategy)
    ensures s.Profile? && s.profile == profile && s.maxHourlyKwh == limits.defaultMaxHourlyKwh * 2.0
  {
    Profile(profile, limits.defaultMaxHourlyKwh * 2.0)
  }

  /** What `ProfileStrategy.predict` returns or raises. */
  function ProfileOutcome(s: Strategy, features: Features): (r: Result<PredictionResult, StrategyError>)
    requires s.Profile?
    ensures r.Err? <==> s.profile.None?
    ensures r.Err? ==> r.error == NoHourlyProfile
    ensures r.Ok? ==> 0.0 <= r.value.prediction && r.value.confidence == 0.6 && r.value.modelAccuracy.None?
    ensures r.Ok? && s.maxHourlyKwh >= 0.0 ==> r.value.prediction <= s.maxHourlyKwh
    ensures r.Ok? && Trunc(Get(features, "hour_of_day", 12.0)) !in s.profile.value.hourlyAverages ==> r.value.prediction == 0.0
  {
    if s.profile.None? then Err(NoHourlyProfile)
    else
      var hour := Trunc(Get(features, "hour_of_day", 12.0));
      var averages := s.profile.value.hourlyAverages;
      var base := if hour in averages then averages[hour] else 0.0;
      var cloudFactor := (100.0 - Get(features, "cloudiness", 50.0)) / 100.0;
      var seasonal := Get(features, "seasonal_factor", 0.5);
      var adjusted := base * cloudFactor * (0.5 + seasonal);
      Ok(PredictionResult(ClipToHour(adjusted, s.maxHourlyKwh), 0.6, "hourly_profile", features, None))
  }

  /**
   * Under clear sky at the neutral seasonal factor the profile predicts the
   * hour's historical average itself, when that lies within the maximum.
   */
  lemma ProfileClearSkyIsAverage(s: Strategy, features: Features, hour: int)
    requires s.Profile? && s.profile.Some?
    requires Trunc(Get(features, "hour_of_day", 12.0)) == hour && hour in s.profile.value.hourlyAverages
    requires Get(features, "cloudiness", 50.0) == 0.0 && Get(features, "seasonal_factor", 0.5) == 0.5
    requires 0.0 <= s.profile.value.hourlyAverages[hour] <= s.maxHourlyKwh
    ensures ProfileOutcome(s, features).value.prediction == s.profile.value.hourlyAverages[hour]
  {
  }

  // ---------------------------------------------------------------------
  // FallbackStrategy
  // ---------------------------------------------------------------------

  /**
   * The fallback's prediction for an hour, a cloudiness and a seasonal
   * factor, where `sine` is `sin((hour - 6)·π/14)`: a sine arc between 6:00
   * and 20:00 peaking at 5000, floored at 0.
   */
  function FallbackPrediction(hour: real, cloudiness: real, seasonal: real, sine: real): (p: real)
    ensures p >= 0.0
    ensures hour < 6.0 || hour > 20.0 ==> p == 0.0
  {
    var raw :=
      if hour < 6.0 || hour > 20.0 then 0.0
      else
        var cloudFactor := (100.0 - cloudiness) / 100.0;
        5000.0 * sine * cloudFactor * seasonal;
    Max(0.0, raw)
  }

  /**
   * With a sine in [0, 1], cloudiness in [0, 100] and a seasonal factor in
   * [0, 1], the fallback never exceeds its 5000 peak.
   */
  lemma FallbackBelowPeak(hour: real, cloudiness: real, seasonal: real, sine: real)
    requires 0.0 <= sine <= 1.0
    requires 0.0 <= cloudiness <= 100.0
    requires 0.0 <= seasonal <= 1.0
    ensures FallbackPrediction(hour, cloudiness, seasonal, sine) <= 5000.0
  {
    var c := (100.0 - cloudiness) / 100.0;
    UnitProduct(sine, c);
    UnitProduct(sine * c, seasonal);
    var p := sine * c * seasonal;
    assert 5000.0 * sine * c * seasonal == 5000.0 * p <= 5000.0;
  }

  /** What `FallbackStrategy.predict` returns: hour_of_day defaults to 12.0, cloudiness to 50.0, seasonal_factor to 0.5. */
  function FallbackOutcome(features: Features, trig: Trig): (r: PredictionResult)
    ensures r.prediction >= 0.0 && r.confidence == 0.3 && r.methodName == "simple_fallback"
    ensures var hour := Get(features, "hour_of_day", 12.0);
      hour < 6.0 || hour > 20.0 ==> r.prediction == 0.0
  {
    var hour := Get(features, "hour_of_day", 12.0);
    var cloudiness := Get(features, "cloudiness", 50.0);
    var seasonal := Get(features, "seasonal_factor", 0.5);
    var sine := trig.sin((hour - 6.0) * trig.pi / 14.0);
    PredictionResult(FallbackPrediction(hour, cloudiness, seasonal, sine), 0.3, "simple_fallback", features, None)
  }

  // ---------------------------------------------------------------------
  // The strategies together
  // ---------------------------------------------------------------------

  /** `is_available`: the model needs weights, the profile needs more than ten samples, the fallback always is. */
  predicate Available(s: Strategy)
  {
    match s
    case MlModel(weights, _, _, _) => weights.Some?
    case Profile(profile, _) => profile.Some? && profile.value.samplesCount > 10
    case Fallback => true
  }

  /** What `predict` of a strategy returns or raises. */
  function Outcome(s: Strategy, features: Features, trig: Trig): Result<PredictionResult, StrategyError>
  {
    match s
    case MlModel(_, _, _, _) => MlOutcome(s, features)
    case Profile(_, _) => ProfileOutcome(s, features)
    case Fallback => Ok(FallbackOutcome(features, trig))
  }

  /** A strategy the orchestrator would answer with: available, and its prediction does not raise. */
  predicate Answers(s: Strategy, features: Features, trig: Trig)
  {
    Available(s) && Outcome(s, features, trig).Ok?
  }

  /** An available strategy never raises, so the orchestrator's `try` only guards against failures the model cannot have. */
  lemma AvailableStrategiesAnswer(s: Strategy, features: Features, trig: Trig)
    ensures Available(s) <==> Answers(s, features, trig)
  {
  }

  /** `predict` of one strategy. */
  method StrategyPredict(s: Strategy, features: Features, trig: Trig) returns (r: Result<PredictionResult, StrategyError>)
    ensures r == Outcome(s, features, trig)
  {
    match s
    case MlModel(_, _, _, _) =>
      r := MlPredict(s, features);
    case Profile(_, _) =>
      if s.profile.None? {
        r := Err(NoHourlyProfile);
      } else {
        r := ProfileOutcome(s, features);
      }
    case Fallback =>
      r := Ok(FallbackOutcome(features, trig));
  }

  /**
   * The strategy list `update_strategies` builds: the model if there are
   * weights, then the profile if there is one, and the fallback last.
   */
  function StrategiesFor(weights: Option<LearnedWeights>, profile: Option<HourlyProfile>, accuracy: real,
                         peakPowerKw: real, limits: Limits): (ss: seq<Strategy>)
    ensures |ss| == (if weights.Some? then 1 else 0) + (if profile.Some? then 1 else 0) + 1
    ensures ss[|ss| - 1] == Fallback
    ensures weights.Some? <==> ss[0].MlModel?
    ensures weights.Some? ==> ss[0] == NewMlModel(weights, accuracy, peakPowerKw, limits)
    ensures profile.Some? <==> NewProfile(profile, limits) in ss
    ensures forall i :: 0 <= i < |ss| - 1 ==> !ss[i].Fallback?
  {
    (if weights.Some? then [NewMlModel(weights, accuracy, peakPowerKw, limits)] else [])
    + (if profile.Some? then [NewProfile(profile, limits)] else [])
    + [Fallback]
  }

  /** With trained weights the rebuilt list answers with the linear model first. */
  lemma ModelAnswersFirst(weights: Option<LearnedWeights>, profile: Option<HourlyProfile>, accuracy: real,
                          peakPowerKw: real, limits: Limits, features: Features, trig: Trig)
    requires weights.Some?
    ensures var ss := StrategiesFor(weights, profile, accuracy, peakPowerKw, limits);
      Answers(ss[0], features, trig)
      && Outcome(ss[0], features, trig) == MlOutcome(NewMlModel(weights, accuracy, peakPowerKw, limits), features)
  {
  }

  /**
   * Without weights and with a profile of at most ten samples the first
   * strategy that answers is the registered fallback.
   */
  lemma ThinProfileFallsBack(weights: Option<LearnedWeights>, profile: Option<HourlyProfile>, accuracy: real,
                             peakPowerKw: real, limits: Limits, features: Features, trig: Trig)
    requires weights.None? && (profile.None? || profile.value.samplesCount <= 10)
    ensures var ss := StrategiesFor(weights, profile, accuracy, peakPowerKw, limits);
      && (forall i :: 0 <= i < |ss| - 1 ==> !Answers(ss[i], features, trig))
      && Answers(ss[|ss| - 1], features, trig)
      && Outcome(ss[|ss| - 1], features, trig) == Ok(FallbackOutcome(features, trig))
  {
  }

  /** The rebuilt list always holds a strategy that answers: the fallback registered last. */
  lemma RebuiltListAlwaysAnswers(weights: Option<LearnedWeights>, profile: Option<HourlyProfile>, accuracy: real,
                                 peakPowerKw: real, limits: Limits, features: Features, trig: Trig)
    ensures var ss := StrategiesFor(weights, profile, accuracy, peakPowerKw, limits);
      exists i :: 0 <= i < |ss| && Answers(ss[i], features, trig)
  {
    var ss := StrategiesFor(weights, profile, accuracy, peakPowerKw, limits);
    assert Answers(ss[|ss| - 1], features, trig);
  }

  class PredictionOrchestrator {
    var strategies: seq<Strategy>

    constructor ()
      ensures strategies == []
    {
      strategies := [];
    }

    /** `register_strategy` appends. */
    method RegisterStrategy(s: Strategy)
      modifies this
      ensures strategies == old(strategies) + [s]
    {
      strategies := strategies + [s];
    }

    /**
     * `predict`: the answer of the first strategy that is available and does
     * not raise, or else a fresh fallback's.
     */
    method Predict(features: Features, trig: Trig) returns (r: PredictionResult)
      ensures (exists i :: 0 <= i < |strategies| && Answers(strategies[i], features, trig)) ==>
        exists i :: 0 <= i < |strategies| && Answers(strategies[i], features, trig)
          && (forall j :: 0 <= j < i ==> !Answers(strategies[j], features, trig))
          && r == Outcome(strategies[i], features, trig).value
      ensures (forall i :: 0 <= i < |strategies| ==> !Answers(strategies[i], features, trig)) ==>
        r == FallbackOutcome(features, trig)
    {
      var i := 0;
      while i < |strategies|
        invariant 0 <= i <= |strategies|
        invariant forall j :: 0 <= j < i ==> !Answers(strategies[j], features, trig)
      {
        var s := strategies[i];
        if Available(s) {
          var outcome := StrategyPredict(s, features, trig);
          if outcome.Ok? {
            return outcome.value;
          }
        }
        i := i + 1;
      }
      r := FallbackOutcome(features, trig);
    }

    /** `update_strategies` rebuilds the list from scratch. */
    method UpdateStrategies(weights: Option<LearnedWeights>, profile: Option<HourlyProfile>, accuracy: real,
                            peakPowerKw: real, limits: Limits)
      modifies this
      ensures strategies == StrategiesFor(weights, profile, accuracy, peakPowerKw, limits)
    {
      strategies := [];
      if weights.Some? {
        strategies := strategies + [NewMlModel(weights, accuracy, peakPowerKw, limits)];
      }
      if profile.Some? {
        strategies := strategies + [NewProfile(profile, limits)];
      }
      strategies := strategies + [Fallback];
    }
  }
}
