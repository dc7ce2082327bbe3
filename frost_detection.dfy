/**
 * Frost detection on the panels (data/data_frost_detection.py): a score from
 * 0 to 10 built from temperature, humidity, wind, the radiation deficit and a
 * physical frost probability; 8 and above is heavy frost, 5 to 7 light frost.
 *
 * The natural logarithm (Magnus dewpoint) and the exponential (cloud
 * transmission) are parameters: the model holds for any functions passed.
 */
module FrostDetection {
  import opened Common

  const FrostScoreThresholdHeavy: int := 8
  const FrostScoreThresholdLight: int := 5
  const CorrelationThresholdBase: real := 0.20

  datatype FrostLevel = LightFrost | HeavyFrost

  datatype DetectionMethod =
    | SkippedMissingData | SkippedNighttime | RuledOutPhysics | SkippedLowRadiation | CorrelationEnhanced

  datatype FrostResult = FrostResult(
    frostDetected: Option<FrostLevel>,
    frostScore: int,
    confidence: real,
    frostProbability: real,
    physicalFrostPossible: bool,
    detectionMethod: DetectionMethod)

  /** The two transcendental functions the detector uses. */
  datatype Math = Math(ln: real -> real, exp: real -> real)

  /** The logarithm vanishes at 1, as the natural logarithm does. */
  predicate LnOfOneIsZero(m: Math)
  {
    m.ln(1.0) == 0.0
  }

  /** The logarithm is not positive on (0, 1], as the natural logarithm is. */
  ghost predicate LnNonPositiveOnUnit(m: Math)
  {
    forall x :: 0.0 < x <= 1.0 ==> m.ln(x) <= 0.0
  }

  /**
   * `_calculate_dewpoint`: the Magnus formula with humidity clamped to
   * [1, 100]; a division by zero falls back to the linear approximation.
   * Saturated air has its own temperature as dew point, and above the
   * formula's pole at -237.7 degrees the dew point never exceeds the air
   * temperature.
   */
  function Dewpoint(m: Math, temperature: real, humidity: real): (d: real)
    ensures var h := Clamp(humidity, 1.0, 100.0);
      (temperature == -237.7 || 17.27 == (17.27 * temperature) / (237.7 + temperature) + m.ln(h / 100.0)) ==>
        d == temperature - (100.0 - h) / 5.0
    ensures LnOfOneIsZero(m) && humidity >= 100.0 ==> d == temperature
    ensures LnNonPositiveOnUnit(m) && temperature > -237.7 ==> d <= temperature
  {
    var a := 17.27;
    var b := 237.7;
    var h := Clamp(humidity, 1.0, 100.0);
    if b + temperature == 0.0 then temperature - (100.0 - h) / 5.0
    else
      var alpha := (a * temperature) / (b + temperature) + m.ln(h / 100.0);
      if a - alpha == 0.0 then temperature - (100.0 - h) / 5.0
      else
        MagnusSaturated(temperature, m.ln(h / 100.0));
        MagnusBelowAir(temperature, m.ln(h / 100.0));
        (b * alpha) / (a - alpha)
  }

  /** With a zero logarithm term the Magnus formula gives back the temperature. */
  lemma MagnusSaturated(t: real, l: real)
    requires 237.7 + t != 0.0
    requires 17.27 - ((17.27 * t) / (237.7 + t) + l) != 0.0
    ensures var alpha := (17.27 * t) / (237.7 + t) + l;
      l == 0.0 ==> (237.7 * alpha) / (17.27 - alpha) == t
  {
    var s := 237.7 + t;
    var alpha := (17.27 * t) / s + l;
    if l == 0.0 {
      assert alpha * s == 17.27 * t;
      assert 237.7 * alpha == t * (17.27 - alpha) by {
        assert 237.7 * alpha + t * alpha == alpha * s;
      }
    }
  }

  /** Above the pole a non-positive logarithm term puts the Magnus dew point at or below the temperature. */
  lemma MagnusBelowAir(t: real, l: real)
    requires 237.7 + t != 0.0
    requires 17.27 - ((17.27 * t) / (237.7 + t) + l) != 0.0
    ensures var alpha := (17.27 * t) / (237.7 + t) + l;
      t > -237.7 && l <= 0.0 ==> (237.7 * alpha) / (17.27 - alpha) <= t
  {
    var s := 237.7 + t;
    var alpha0 := (17.27 * t) / s;
    var alpha := alpha0 + l;
    if t > -237.7 && l <= 0.0 {
      assert alpha0 * s == 17.27 * t;
      assert (17.27 - alpha0) * s == 17.27 * 237.7;
      assert 17.27 - alpha0 > 0.0;
      var q := 17.27 - alpha;
      assert q > 0.0;
      assert alpha * s <= 17.27 * t by {
        assert alpha * s == alpha0 * s + l * s;
        assert l * s <= 0.0;
      }
      assert 237.7 * alpha <= t * q by {
        assert 237.7 * alpha + t * alpha == alpha * s;
      }
      var d := (237.7 * alpha) / q;
      assert d * q == 237.7 * alpha;
      assert (d - t) * q <= 0.0;
      PositiveFactor(d - t, q);
    }
  }

  lemma PositiveFactor(x: real, q: real)
    requires q > 0.0 && x * q <= 0.0
    ensures x <= 0.0
  {
  }

  /** `_calculate_wind_frost_factor`: calm air lets frost form, wind prevents it. */
  function WindFrostFactor(wind: real): (f: real)
    ensures 0.05 <= f <= 1.0
    ensures wind < 0.5 <==> f == 1.0
    ensures wind >= 6.0 <==> f == 0.05
  {
    if wind < 0.5 then 1.0
    else if wind < 1.5 then 0.85
    else if wind < 2.5 then 0.65
    else if wind < 4.0 then 0.40
    else if wind < 6.0 then 0.20
    else 0.05
  }

  /** The wind factor never increases with wind speed. */
  lemma WindFrostFactorAntitone(w1: real, w2: real)
    requires w1 <= w2
    ensures WindFrostFactor(w2) <= WindFrostFactor(w1)
  {
  }

  function MarginProbability(frostMargin: real): (p: real)
    ensures 0.05 <= p <= 0.95
  {
    if frostMargin < 0.0 then 0.95
    else if frostMargin < 1.0 then 0.90
    else if frostMargin < 2.0 then 0.75
    else if frostMargin < 3.0 then 0.50
    else if frostMargin < 5.0 then 0.25
    else 0.05
  }

  function TemperatureFrostFactor(temperature: real): (f: real)
    ensures 0.2 <= f <= 1.0
  {
    if temperature < -5.0 then 1.0
    else if temperature < -2.0 then 0.9
    else if temperature < 0.0 then 0.8
    else if temperature < 2.0 then 0.5
    else 0.2
  }

  /** `_calculate_frost_probability`. */
  function FrostProbability(temperature: real, dewpoint: real, frostMargin: real, windFactor: real): (p: real)
    ensures 0.0 <= p <= 1.0
    ensures dewpoint > 0.0 || temperature > 3.0 ==> p == 0.0
    ensures dewpoint <= 0.0 && temperature <= 3.0 && 0.0 <= windFactor <= 1.0 ==>
      p == MarginProbability(frostMargin) * TemperatureFrostFactor(temperature) * windFactor
  {
    if dewpoint > 0.0 then 0.0
    else if temperature > 3.0 then 0.0
    else
      var prob := MarginProbability(frostMargin) * TemperatureFrostFactor(temperature) * windFactor;
      if 0.0 <= windFactor <= 1.0 then
        ProductInUnit(MarginProbability(frostMargin), TemperatureFrostFactor(temperature), windFactor);
        Min(1.0, Max(0.0, prob))
      else Min(1.0, Max(0.0, prob))
  }

  lemma ProductInUnit(a: real, b: real, c: real)
    requires 0.0 <= a <= 1.0 && 0.0 <= b <= 1.0 && 0.0 <= c <= 1.0
    ensures 0.0 <= a * b * c <= 1.0
  {
    assert (1.0 - a) * b >= 0.0;
    assert 0.0 <= a * b <= b;
    assert (1.0 - a * b) * c >= 0.0;
    assert 0.0 <= a * b * c <= c;
  }

  /**
   * `_calculate_dynamic_threshold`: the base 0.20 lowered when frost is likely
   * or the air is calm, raised under heavy cloud, kept in [0.05, 0.35].
   */
  function DynamicThreshold(frostProbability: real, windFactor: real, cloudCover: Option<real>): (t: real)
    ensures 0.05 <= t <= 0.35
  {
    var t1 := CorrelationThresholdBase
      - (if frostProbability > 0.7 then 0.08 else if frostProbability > 0.4 then 0.04 else 0.0);
    var t2 := t1 - (if windFactor > 0.8 then 0.04 else 0.0);
    var t3 := t2 + (if cloudCover.Some? then
                      (if cloudCover.value > 85.0 then 0.08 else if cloudCover.value > 70.0 then 0.04 else 0.0)
                    else 0.0);
    Max(0.05, Min(0.35, t3))
  }

  /** The clamp never binds: the adjustments alone keep the threshold within [0.08, 0.28]. */
  lemma DynamicThresholdUnclamped(frostProbability: real, windFactor: real, cloudCover: Option<real>)
    ensures 0.08 <= DynamicThreshold(frostProbability, windFactor, cloudCover) <= 0.28
  {
  }

  /**
   * The exponential's shape the cloud model relies on: non-decreasing, and
   * in (0, 1] for arguments that are not positive.
   */
  ghost predicate ExpShape(m: Math)
  {
    && (forall x :: x <= 0.0 ==> 0.0 < m.exp(x) <= 1.0)
    && (forall x, y :: x <= y ==> m.exp(x) <= m.exp(y))
  }

  /**
   * `_calculate_expected_radiation`: the theoretical maximum attenuated by
   * the cloud cover, 50 % when unknown. Cloud never adds radiation, and
   * some always comes through.
   */
  function ExpectedRadiation(m: Math, theoreticalMax: real, cloudCover: Option<real>): (e: real)
    ensures ExpShape(m) && theoreticalMax >= 0.0 && (cloudCover.None? || cloudCover.value >= 0.0) ==>
      0.0 <= e <= theoreticalMax && (theoreticalMax > 0.0 ==> e > 0.0)
  {
    var cloud := if cloudCover.Some? then cloudCover.value else 50.0;
    CloudAttenuationBounds(m, theoreticalMax, cloud);
    theoreticalMax * m.exp(-0.008 * cloud)
  }

  lemma CloudAttenuationBounds(m: Math, x: real, cloud: real)
    ensures ExpShape(m) && x >= 0.0 && cloud >= 0.0 ==>
      var e := x * m.exp(-0.008 * cloud);
      0.0 <= e <= x && (x > 0.0 ==> e > 0.0)
  {
    if ExpShape(m) && x >= 0.0 && cloud >= 0.0 {
      var f := m.exp(-0.008 * cloud);
      assert 0.0 < f <= 1.0;
      assert x - x * f == x * (1.0 - f) >= 0.0;
    }
  }

  /** More cloud never raises the expected radiation. */
  lemma ExpectedRadiationAntitone(m: Math, theoreticalMax: real, cloud1: real, cloud2: real)
    requires ExpShape(m) && theoreticalMax >= 0.0 && cloud1 <= cloud2
    ensures ExpectedRadiation(m, theoreticalMax, Some(cloud2)) <= ExpectedRadiation(m, theoreticalMax, Some(cloud1))
  {
    var f1 := m.exp(-0.008 * cloud1);
    var f2 := m.exp(-0.008 * cloud2);
    assert f2 <= f1;
    assert theoreticalMax * f1 - theoreticalMax * f2 == theoreticalMax * (f1 - f2) >= 0.0;
  }

  function TempScore(temperature: real): (s: int)
    ensures 0 <= s <= 3
    ensures temperature >= 0.0 <==> s == 0
  {
    if temperature < -5.0 then 3 else if temperature < -2.0 then 2 else if temperature < 0.0 then 1 else 0
  }

  function HumidityScore(frostMargin: real, dewpoint: real, humidity: real): (s: int)
    ensures 0 <= s <= 2
    ensures humidity > 85.0 ==> s == 2
    ensures dewpoint < 0.0 && frostMargin < 2.0 ==> s == 2
  {
    if frostMargin < 1.0 && dewpoint < 0.0 then 2
    else if frostMargin < 2.0 && dewpoint < 0.0 then 2
    else if humidity > 85.0 then 2
    else if frostMargin < 3.0 && dewpoint < 0.0 then 1
    else if humidity > 75.0 then 1
    else 0
  }

  function WindScore(wind: real): (s: int)
    ensures 0 <= s <= 2
    ensures wind >= 3.0 <==> s == 0
  {
    if wind < 1.0 then 2 else if wind < 3.0 then 1 else 0
  }

  /**
   * The radiation score: from the unexplained drop when it exceeds the
   * threshold and frost is physically possible, otherwise from the ratio of
   * measured to expected radiation.
   */
  function RadiationScore(correlationDiff: real, threshold: real, physicalFrostPossible: bool, actualVsExpected: real): (s: int)
    ensures 0 <= s <= 3
    ensures correlationDiff > threshold && physicalFrostPossible ==> s >= 1
  {
    if correlationDiff > threshold && physicalFrostPossible then
      (if correlationDiff > 0.40 then 3 else if correlationDiff > 0.25 then 2 else 1)
    else if actualVsExpected < 0.4 then 3
    else if actualVsExpected < 0.6 then 2
    else if actualVsExpected < 0.8 then 1
    else 0
  }

  function ProbabilityBonus(p: real): (s: int)
    ensures 0 <= s <= 2
  {
    if p > 0.8 then 2 else if p > 0.5 then 1 else 0
  }

  /** The verdict from a score: heavy at 8 or more, light at 5 to 7. */
  function Classify(score: int): (r: Option<FrostLevel>)
    ensures r == Some(HeavyFrost) <==> score >= FrostScoreThresholdHeavy
    ensures r == Some(LightFrost) <==> FrostScoreThresholdLight <= score < FrostScoreThresholdHeavy
    ensures r.None? <==> score < FrostScoreThresholdLight
  {
    if score >= FrostScoreThresholdHeavy then Some(HeavyFrost)
    else if score >= FrostScoreThresholdLight then Some(LightFrost)
    else None
  }

  function NoFrost(probability: real, physical: bool, how: DetectionMethod): FrostResult
  {
    FrostResult(None, 0, 0.0, probability, physical, how)
  }

  /**
   * The frost score of an hour that passed the physical and radiation
   * checks: the radiation drop not explained by the cloud cover against its
   * dynamic threshold, and the five partial scores summed and capped at 10.
   */
  function FrostScore(
    t: real, h: real, w: real, rad: real, theo: real, expected: real, dew: real, margin: real,
    physical: bool, probability: real, windFactor: real, cloudCover: Option<real>): (score: int)
    requires theo > 0.0 && expected > 0.0
    ensures 0 <= score <= 10
  {
    var cloudDrop := Max(0.0, Min(1.0, 1.0 - expected / theo));
    var actualDrop := Max(0.0, Min(1.0, 1.0 - rad / theo));
    var correlationDiff := actualDrop - cloudDrop;
    var actualVsExpected := rad / expected;
    var threshold := DynamicThreshold(probability, windFactor, cloudCover);
    var sum := TempScore(t) + HumidityScore(margin, dew, h) + WindScore(w)
      + RadiationScore(correlationDiff, threshold, physical, actualVsExpected)
      + ProbabilityBonus(probability);
    if sum < 10 then sum else 10
  }

  /** `FrostDetector.detect_frost`. */
  function DetectFrost(
    m: Math,
    temperature: Option<real>, humidity: Option<real>, wind: Option<real>,
    radiation: Option<real>, theoreticalMax: Option<real>, cloudCover: Option<real>): (r: FrostResult)
    ensures 0 <= r.frostScore <= 10
    ensures 0.0 <= r.confidence <= 1.0
    ensures 0.0 <= r.frostProbability <= 1.0
    ensures r.frostDetected == Classify(r.frostScore)
    ensures r.frostDetected.Some? ==> r.detectionMethod == CorrelationEnhanced
    ensures r.frostDetected.Some? ==> r.confidence == r.frostScore as real / 10.0
    ensures temperature.None? || humidity.None? || wind.None? || radiation.None? || theoreticalMax.None? ==>
      r == NoFrost(0.0, false, SkippedMissingData)
    ensures (temperature.Some? && humidity.Some? && wind.Some? && radiation.Some? && theoreticalMax.Some?
      && theoreticalMax.value < 5.0) ==> r == NoFrost(0.0, false, SkippedNighttime)
    ensures (temperature.Some? && humidity.Some? && wind.Some? && radiation.Some? && theoreticalMax.Some?
      && theoreticalMax.value >= 5.0) ==>
        var dew := Dewpoint(m, temperature.value, humidity.value);
        (temperature.value > 3.0 || (temperature.value > 1.0 && dew > 0.0)) ==>
          r.frostDetected.None? && r.detectionMethod == RuledOutPhysics
    ensures (temperature.Some? && humidity.Some? && wind.Some? && radiation.Some? && theoreticalMax.Some?
      && theoreticalMax.value >= 5.0) ==>
        var t := temperature.value;
        var dew := Dewpoint(m, t, humidity.value);
        var physical := dew < 0.0 && t - dew < 3.0;
        && r.frostProbability == FrostProbability(t, dew, t - dew, WindFrostFactor(wind.value))
        && r.physicalFrostPossible == physical
        && (!(t > 3.0 || (t > 1.0 && dew > 0.0)) ==>
              var expected := ExpectedRadiation(m, theoreticalMax.value, cloudCover);
              && (expected < 3.0 ==> r == NoFrost(r.frostProbability, physical, SkippedLowRadiation))
              && (expected >= 3.0 ==>
                    && r.detectionMethod == CorrelationEnhanced
                    && r.frostScore == FrostScore(t, humidity.value, wind.value, radiation.value, theoreticalMax.value,
                                                  expected, dew, t - dew, physical, r.frostProbability,
                                                  WindFrostFactor(wind.value), cloudCover)))
  {
    if temperature.None? || humidity.None? || wind.None? || radiation.None? || theoreticalMax.None? then
      NoFrost(0.0, false, SkippedMissingData)
    else if theoreticalMax.value < 5.0 then
      NoFrost(0.0, false, SkippedNighttime)
    else
      var t, h, w, rad, theo := temperature.value, humidity.value, wind.value, radiation.value, theoreticalMax.value;
      var dew := Dewpoint(m, t, h);
      var margin := t - dew;
      var physical := dew < 0.0 && margin < 3.0;
      var windFactor := WindFrostFactor(w);
      var probability := FrostProbability(t, dew, margin, windFactor);
      if t > 3.0 || (t > 1.0 && dew > 0.0) then
        NoFrost(probability, physical, RuledOutPhysics)
      else
        var expected := ExpectedRadiation(m, theo, cloudCover);
        if expected < 3.0 then
          NoFrost(probability, physical, SkippedLowRadiation)
        else
          var score := FrostScore(t, h, w, rad, theo, expected, dew, margin, physical, probability, windFactor, cloudCover);
          var level := Classify(score);
          var confidence := if level.Some? then score as real / 10.0 else 0.0;
          FrostResult(level, score, confidence, probability, physical, CorrelationEnhanced)
  }

  /** `should_exclude_from_training`: only heavy frost keeps an hour out of training. */
  function ShouldExcludeFromTraining(r: FrostResult): (exclude: bool)
    ensures exclude <==> r.frostDetected == Some(HeavyFrost)
  {
    r.frostDetected == Some(HeavyFrost)
  }

  /** An hour is kept out of training exactly when its frost score reaches 8. */
  lemma ExcludedFromTrainingIffHeavyScore(
    m: Math,
    temperature: Option<real>, humidity: Option<real>, wind: Option<real>,
    radiation: Option<real>, theoreticalMax: Option<real>, cloudCover: Option<real>)
    ensures var r := DetectFrost(m, temperature, humidity, wind, radiation, theoreticalMax, cloudCover);
      ShouldExcludeFromTraining(r) <==> r.frostScore >= FrostScoreThresholdHeavy
  {
  }
}
