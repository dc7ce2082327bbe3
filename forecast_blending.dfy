/**
 * The forecast orchestrator's own arithmetic (forecast/orchestrator.py):
 * whether an hour can produce, how the machine-learning and rule-based daily
 * forecasts are blended, and the next-hour estimate built from the learnt
 * hourly profile and real-time adjustment factors.
 *
 * The two daily strategies themselves are not part of this model: their
 * results (or their failure, `None`) are inputs. The sun entity's rising and
 * setting times arrive already parsed, as seconds; `None` stands for a
 * missing or unparseable sun state.
 */
module ForecastBlending {
  import opened Common
  import opened MlTypes
  import WeatherCalculator

  // ---------------------------------------------------------------------
  // is_production_hour
  // ---------------------------------------------------------------------

  /** The sun's next rising and setting, in seconds. */
  datatype SunTimes = SunTimes(nextRising: int, nextSetting: int)

  /** A local date-time: an instant in seconds with its hour and month. */
  datatype Moment = Moment(seconds: int, hour: int, month: int)

  /** The 90-minute margin kept after sunrise and before sunset. */
  const SunMarginSeconds: int := 90 * 60

  /** The conservative production hours by month, used without a sun state. */
  predicate SeasonalProductionHour(month: int, hour: int)
  {
    if month in {11, 12, 1} then 7 <= hour <= 16
    else if month in {5, 6, 7, 8} then 5 <= hour <= 20
    else 6 <= hour <= 18
  }

  /** `is_production_hour`: within the sun window shrunk by 90 minutes at each end, or else the seasonal hours. */
  predicate IsProductionHour(sun: Option<SunTimes>, target: Moment)
  {
    if sun.Some? then
      sun.value.nextRising + SunMarginSeconds <= target.seconds <= sun.value.nextSetting - SunMarginSeconds
    else SeasonalProductionHour(target.month, target.hour)
  }

  /**
   * The seasonal windows are nested: every winter production hour is one in
   * spring and autumn, every such hour is one in summer, and none lies
   * outside 5:00 to 20:00.
   */
  lemma SeasonalWindowsNested(hour: int)
    ensures SeasonalProductionHour(1, hour) ==> SeasonalProductionHour(3, hour)
    ensures SeasonalProductionHour(3, hour) ==> SeasonalProductionHour(6, hour)
    ensures forall month :: SeasonalProductionHour(month, hour) ==> 5 <= hour <= 20
  {
  }

  /** With a sun state, a moment less than 90 minutes after sunrise is never a production hour. */
  lemma SunMarginExcludesDawn(sun: SunTimes, target: Moment)
    requires target.seconds < sun.nextRising + SunMarginSeconds
    ensures !IsProductionHour(Some(sun), target)
  {
  }

  // ---------------------------------------------------------------------
  // create_forecast: blending
  // ---------------------------------------------------------------------

  /** What a daily strategy returns. */
  datatype DailyForecast = DailyForecast(
    forecastToday: real,
    forecastTomorrow: real,
    confidenceToday: real,
    modelAccuracy: Option<real>)

  /** ACCURACY_THRESHOLD and the weight a weaker model gets. */
  const AccuracyThreshold: real := 0.60
  const ConservativeMlWeight: real := 0.30

  /** The model accuracy `create_forecast` uses: the ML result's, or 0.0 without one. */
  function ModelAccuracy(ml: Option<DailyForecast>): real
  {
    if ml.Some? && ml.value.modelAccuracy.Some? then ml.value.modelAccuracy.value else 0.0
  }

  /**
   * The weight of the machine-learning forecast: its accuracy clamped to
   * [0, 1], lowered to 0.30 when below 0.60; 0 without an ML result.
   */
  function AccuracyWeight(ml: Option<DailyForecast>): (w: real)
    ensures 0.0 <= w <= 1.0
    ensures ml.None? ==> w == 0.0
    ensures ml.Some? && Clamp(ModelAccuracy(ml), 0.0, 1.0) < AccuracyThreshold ==> w == ConservativeMlWeight
    ensures ml.Some? && Clamp(ModelAccuracy(ml), 0.0, 1.0) >= AccuracyThreshold ==> w == Clamp(ModelAccuracy(ml), 0.0, 1.0)
    ensures ml.Some? ==> w >= ConservativeMlWeight
  {
    var accuracy := if ml.Some? then ModelAccuracy(ml) else 0.0;
    var w := Max(0.0, Min(1.0, accuracy));
    if w < AccuracyThreshold && ml.Some? then ConservativeMlWeight else w
  }

  /** `a·w + b·(1 − w)`. */
  function Mix(a: real, b: real, w: real): real
  {
    a * w + b * (1.0 - w)
  }

  /** Mixing a value with itself gives it back. */
  lemma MixSame(x: real, w: real)
    ensures Mix(x, x, w) == x
  {
    assert x * (1.0 - w) == x - x * w;
  }

  /** A mix with a weight in [0, 1] lies between its two inputs. */
  lemma MixBetween(a: real, b: real, w: real)
    requires 0.0 <= w <= 1.0
    ensures Min(a, b) <= Mix(a, b, w) <= Max(a, b)
  {
    var lo := Min(a, b);
    var hi := Max(a, b);
    MulMonotone(lo, a, w);
    MulMonotone(a, hi, w);
    MulMonotone(lo, b, 1.0 - w);
    MulMonotone(b, hi, 1.0 - w);
    MixSame(lo, w);
    MixSame(hi, w);
  }

  /** How a blended forecast was obtained. */
  datatype BlendMethod = RuleBasedIterative | MlIterative | Blended(mlWeight: real, ruleWeight: real)

  datatype BlendedForecast = BlendedForecast(
    today: real,
    tomorrow: real,
    peakTime: string,
    confidence: real,
    blendMethod: BlendMethod,
    modelAccuracy: Option<real>)

  /** The forecast values blended: each strategy stands in for the other when it failed; both failing gives 0. */
  function BlendInputs(ml: Option<DailyForecast>, rule: Option<DailyForecast>): (r: (real, real, real, real))
    ensures ml.None? && rule.None? ==> r == (0.0, 0.0, 0.0, 0.0)
    ensures ml.None? && rule.Some? ==> r == (rule.value.forecastToday, rule.value.forecastTomorrow,
                                              rule.value.forecastToday, rule.value.forecastTomorrow)
    ensures ml.Some? && rule.None? ==> r == (ml.value.forecastToday, ml.value.forecastTomorrow,
                                              ml.value.forecastToday, ml.value.forecastTomorrow)
    ensures ml.Some? && rule.Some? ==> r == (ml.value.forecastToday, ml.value.forecastTomorrow,
                                              rule.value.forecastToday, rule.value.forecastTomorrow)
  {
    var todayMl := if ml.Some? then ml.value.forecastToday else 0.0;
    var tomorrowMl := if ml.Some? then ml.value.forecastTomorrow else 0.0;
    var (todayRule, tomorrowRule) :=
      if rule.Some? then (rule.value.forecastToday, rule.value.forecastTomorrow)
      else if ml.Some? then (todayMl, tomorrowMl)
      else (0.0, 0.0);
    if ml.None? then (todayRule, tomorrowRule, todayRule, tomorrowRule)
    else (todayMl, tomorrowMl, todayRule, tomorrowRule)
  }

  /**
   * The blend of `create_forecast`: today and tomorrow mixed by the accuracy
   * weight and rounded to two decimals, the confidences (30.0 for a missing
   * result) mixed the same way and rounded to one.
   */
  function Blend(ml: Option<DailyForecast>, rule: Option<DailyForecast>, hasPredictor: bool): (r: BlendedForecast)
    ensures var w := AccuracyWeight(ml);
      && (w == 0.0 ==> r.blendMethod == RuleBasedIterative)
      && (w == 1.0 ==> r.blendMethod == MlIterative)
      && (0.0 < w < 1.0 ==> r.blendMethod == Blended(w, 1.0 - w))
    ensures r.modelAccuracy == if hasPredictor then Some(ModelAccuracy(ml)) else None
    ensures ml.None? ==> r.blendMethod == RuleBasedIterative
    ensures r.peakTime == "12:00"
  {
    var (todayMl, tomorrowMl, todayRule, tomorrowRule) := BlendInputs(ml, rule);
    var w := AccuracyWeight(ml);
    var ruleWeight := 1.0 - w;
    var confMl := if ml.Some? then ml.value.confidenceToday else 30.0;
    var confRule := if rule.Some? then rule.value.confidenceToday else 30.0;
    var how := if w == 0.0 then RuleBasedIterative else if w == 1.0 then MlIterative else Blended(w, ruleWeight);
    BlendedForecast(
      Round(Mix(todayMl, todayRule, w), TwoDecimals),
      Round(Mix(tomorrowMl, tomorrowRule, w), TwoDecimals),
      "12:00",
      Round(Mix(confMl, confRule, w), OneDecimal),
      how,
      if hasPredictor then Some(ModelAccuracy(ml)) else None)
  }

  /**
   * Before rounding, each blended value lies between the two strategies'
   * values; rounding moves it by at most 0.005. Without an ML result the
   * rule-based forecast is taken whole.
   */
  lemma BlendBetweenStrategies(ml: DailyForecast, rule: DailyForecast, hasPredictor: bool)
    ensures var r := Blend(Some(ml), Some(rule), hasPredictor);
      var v := Mix(ml.forecastToday, rule.forecastToday, AccuracyWeight(Some(ml)));
      && Min(ml.forecastToday, rule.forecastToday) <= v <= Max(ml.forecastToday, rule.forecastToday)
      && v - 0.005 <= r.today <= v + 0.005
    ensures Blend(None, Some(rule), hasPredictor).today == Round(rule.forecastToday, TwoDecimals)
  {
    var w := AccuracyWeight(Some(ml));
    MixBetween(ml.forecastToday, rule.forecastToday, w);
    RoundClose(Mix(ml.forecastToday, rule.forecastToday, w), TwoDecimals);
    assert Mix(rule.forecastToday, rule.forecastToday, 0.0) == rule.forecastToday;
  }

  // ---------------------------------------------------------------------
  // _get_ml_hourly_profile_base
  // ---------------------------------------------------------------------

  /** `max(v, 0)` as the profile sum counts it: only positive averages add. */
  function Positive(v: real): real
  {
    if v > 0.0 then v else 0.0
  }

  /** The sum of the positive hourly averages. */
  ghost function PositiveTotal(m: map<int, real>): (t: real)
    ensures t >= 0.0
    decreases |m.Keys|
  {
    if m.Keys == {} then 0.0
    else
      var k := Pick(m.Keys);
      Positive(m[k]) + PositiveTotal(m - {k})
  }

  /** Taking two different keys out of a map, in either order. */
  lemma RemoveTwo(m: map<int, real>, j: int, k: int)
    requires j in m && k in m && j != k
    ensures k in m - {j} && j in m - {k}
    ensures (m - {j})[k] == m[k] && (m - {k})[j] == m[j]
    ensures (m - {j}) - {k} == (m - {k}) - {j}
    ensures |(m - {j}).Keys| < |m.Keys| && |(m - {k}).Keys| < |m.Keys|
  {
    assert (m - {j}).Keys == m.Keys - {j};
    assert (m - {k}).Keys == m.Keys - {k};
  }

  /** The sum may be split at any key, not only the one `PositiveTotal` picks. */
  lemma {:induction false} PositiveTotalAt(m: map<int, real>, k: int)
    requires k in m
    ensures PositiveTotal(m) == Positive(m[k]) + PositiveTotal(m - {k})
    decreases |m.Keys|
  {
    var j :| j in m.Keys && PositiveTotal(m) == Positive(m[j]) + PositiveTotal(m - {j});
    if j != k {
      var mj := m - {j};
      var mk := m - {k};
      RemoveTwo(m, j, k);
      PositiveTotalAt(mj, k);
      PositiveTotalAt(mk, j);
    }
  }

  /** `sum(float(v) for v in hourly_averages.values() if v > 0)`. */
  method ProfileTotal(m: map<int, real>) returns (total: real)
    ensures total == PositiveTotal(m)
  {
    total := 0.0;
    var rest := m;
    while rest.Keys != {}
      invariant total + PositiveTotal(rest) == PositiveTotal(m)
      decreases |rest.Keys|
    {
      var k :| k in rest;
      PositiveTotalAt(rest, k);
      var v := rest[k];
      if v > 0.0 {
        total := total + v;
      }
      assert (rest - {k}).Keys == rest.Keys - {k};
      rest := rest - {k};
    }
  }

  /**
   * `_get_ml_hourly_profile_base`: no profile gives None; an hour without a
   * positive average gives 0.0; otherwise today's forecast times the hour's
   * share of the positive profile total.
   */
  ghost function ProfileBase(forecastToday: real, targetHour: int, profile: Option<HourlyProfile>): (b: Option<real>)
    ensures profile.None? ==> b.None?
    ensures profile.Some? && (targetHour !in profile.value.hourlyAverages || profile.value.hourlyAverages[targetHour] <= 0.0)
      ==> b == Some(0.0)
  {
    if profile.None? then None
    else
      var averages := profile.value.hourlyAverages;
      if targetHour !in averages || averages[targetHour] <= 0.0 then Some(0.0)
      else
        var total := PositiveTotal(averages);
        if total <= 0.0 then None
        else Some(forecastToday * (averages[targetHour] / total))
  }

  /** A positive average is part of the total, so the total is never the non-positive case. */
  lemma PositiveTotalBoundsEntry(m: map<int, real>, k: int)
    requires k in m && m[k] > 0.0
    ensures PositiveTotal(m) >= m[k] > 0.0
  {
    PositiveTotalAt(m, k);
  }

  /**
   * With a profile the base is always defined (the zero-total branch cannot
   * be reached after a positive average), and with a non-negative forecast it
   * is a share of today's forecast: between 0 and the forecast itself.
   */
  lemma ProfileBaseIsShare(forecastToday: real, targetHour: int, profile: HourlyProfile)
    ensures ProfileBase(forecastToday, targetHour, Some(profile)).Some?
    ensures forecastToday >= 0.0 ==> 0.0 <= ProfileBase(forecastToday, targetHour, Some(profile)).value <= forecastToday
  {
    var averages := profile.hourlyAverages;
    if targetHour in averages && averages[targetHour] > 0.0 {
      PositiveTotalBoundsEntry(averages, targetHour);
      var total := PositiveTotal(averages);
      var share := averages[targetHour] / total;
      assert 0.0 < share <= 1.0;
      if forecastToday >= 0.0 {
        assert forecastToday * share <= forecastToday * 1.0;
      }
    }
  }

  method MlHourlyProfileBase(forecastToday: real, targetHour: int, profile: Option<HourlyProfile>) returns (b: Option<real>)
    ensures b == ProfileBase(forecastToday, targetHour, profile)
  {
    if profile.None? {
      return None;
    }
    var averages := profile.value.hourlyAverages;
    if targetHour !in averages || averages[targetHour] <= 0.0 {
      return Some(0.0);
    }
    var total := ProfileTotal(averages);
    if total <= 0.0 {
      return None;
    }
    var share := forecastToday * (averages[targetHour] / total);
    assert ProfileBase(forecastToday, targetHour, profile).value == share;
    b := Some(share);
  }

  // ---------------------------------------------------------------------
  // _get_realtime_adjustment_factors
  // ---------------------------------------------------------------------

  /** A sensor or weather dictionary; `None` values are JSON nulls. */
  type Readings = map<string, Option<real>>

  /** `d.get(key) if d else None`. */
  function Read(d: Option<Readings>, key: string): Option<real>
  {
    if d.Some? && key in d.value then d.value[key] else None
  }

  /** The cloud reading: `cloud_cover`, or `clouds` when there is no `cloud_cover` key at all. */
  function CloudReading(weather: Option<Readings>): Option<real>
  {
    if weather.Some? && "cloud_cover" in weather.value then weather.value["cloud_cover"]
    else Read(weather, "clouds")
  }

  /** The lux-based factor: 0.1 in the dark, rising linearly to 0.7 at 20000 lx, then up to 1.2 in bright light. */
  function LuxFactor(lux: real): (f: real)
    requires lux >= 0.0
    ensures 0.1 <= f <= 1.2
  {
    if lux < 1000.0 then 0.1
    else if lux < 20000.0 then 0.1 + (lux / 20000.0) * 0.6
    else 0.7 + Min((lux / 60000.0) * 0.5, 0.5)
  }

  /** The lux factor does not decrease as the light gets brighter. */
  lemma LuxFactorMonotone(l1: real, l2: real)
    requires 0.0 <= l1 <= l2
    ensures LuxFactor(l1) <= LuxFactor(l2)
  {
  }

  /** The `cloud/lux` factor: from a non-negative lux reading, else from the cloud cover relative to 0.65, else 1.0. */
  function CloudLuxFactor(lux: Option<real>, cloud: Option<real>): (f: real)
    ensures 0.1 <= f <= 1.2
    ensures lux.None? && cloud.None? ==> f == 1.0
  {
    if lux.Some? && lux.value >= 0.0 then LuxFactor(lux.value)
    else if cloud.Some? then Max(0.1, Min(1.2, WeatherCalculator.CloudFactor(cloud) / 0.65))
    else 1.0
  }

  /** The temperature factor, kept within [0.7, 1.1]; 1.0 without a reading. */
  function TemperatureAdjustment(temperature: Option<real>): (f: real)
    ensures 0.7 <= f <= 1.1
    ensures temperature.Some? ==> f == WeatherCalculator.TemperatureFactor(temperature)
    ensures temperature.None? ==> f == 1.0
  {
    if temperature.Some? then Max(0.7, Min(1.1, WeatherCalculator.TemperatureFactor(temperature))) else 1.0
  }

  /** The rain factor: 0.2 above 5, 0.5 above 1, 0.8 for any rain, 1.0 without. */
  function RainFactor(rain: Option<real>): (f: real)
    ensures 0.2 <= f <= 1.0
    ensures rain.None? || rain.value <= 0.0 <==> f == 1.0
  {
    if rain.Some? && rain.value > 0.0 then
      if rain.value > 5.0 then 0.2 else if rain.value > 1.0 then 0.5 else 0.8
    else 1.0
  }

  /** The keys of the adjustment-factor dictionary: 'cloud/lux', 'temperature' and 'rain'. */
  datatype Factor = CloudLux | Temperature | Rain

  /** The factor keys, in the order the dictionary holds them. */
  const FactorNames: seq<Factor> := [CloudLux, Temperature, Rain]

  /** The final `for key in factors` loop: every factor clamped to [0, 1.5] in place. */
  method ClampFactors(factors: map<Factor, real>) returns (clamped: map<Factor, real>)
    requires factors.Keys == {CloudLux, Temperature, Rain}
    ensures clamped.Keys == factors.Keys
    ensures forall k :: k in clamped ==> clamped[k] == Clamp(factors[k], 0.0, 1.5)
  {
    clamped := factors;
    var i := 0;
    while i < |FactorNames|
      invariant 0 <= i <= |FactorNames|
      invariant clamped.Keys == factors.Keys
      invariant forall k :: k in clamped && k in FactorNames[..i] ==> clamped[k] == Clamp(factors[k], 0.0, 1.5)
      invariant forall k :: k in clamped && k !in FactorNames[..i] ==> clamped[k] == factors[k]
    {
      var key := FactorNames[i];
      assert FactorNames[..i + 1] == FactorNames[..i] + [key];
      clamped := clamped[key := Max(0.0, Min(1.5, clamped[key]))];
      i := i + 1;
    }
    assert FactorNames[..i] == FactorNames;
  }

  /** The factors before the final clamp. */
  function UnclampedFactors(weather: Option<Readings>, sensor: Option<Readings>): (f: map<Factor, real>)
    ensures f.Keys == {CloudLux, Temperature, Rain}
    ensures forall k :: k in f ==> 0.1 <= f[k] <= 1.2
  {
    var t := Read(sensor, "temperature");
    map[
      CloudLux := CloudLuxFactor(Read(sensor, "lux"), CloudReading(weather)),
      Temperature := TemperatureAdjustment(if t.None? then Read(weather, "temperature") else t),
      Rain := RainFactor(Read(sensor, "rain"))]
  }

  /** Every factor already lies within [0.1, 1.2], so the final clamp to [0, 1.5] never changes one. */
  lemma FinalClampChangesNothing(weather: Option<Readings>, sensor: Option<Readings>)
    ensures var f := UnclampedFactors(weather, sensor);
      forall k :: k in f ==> Clamp(f[k], 0.0, 1.5) == f[k]
  {
  }

  /**
   * `_get_realtime_adjustment_factors`: the cloud/lux, temperature and rain
   * factors, each clamped to [0, 1.5]. A sensor temperature takes precedence
   * over the weather's.
   */
  method RealtimeAdjustmentFactors(weather: Option<Readings>, sensor: Option<Readings>) returns (factors: map<Factor, real>)
    ensures factors == UnclampedFactors(weather, sensor)
    ensures forall k :: k in factors ==> 0.0 <= factors[k] <= 1.5
  {
    var temperature := Read(sensor, "temperature");
    if temperature.None? {
      temperature := Read(weather, "temperature");
    }
    var initial := map[
      CloudLux := CloudLuxFactor(Read(sensor, "lux"), CloudReading(weather)),
      Temperature := TemperatureAdjustment(temperature),
      Rain := RainFactor(Read(sensor, "rain"))];
    factors := ClampFactors(initial);
    FinalClampChangesNothing(weather, sensor);
    assert forall k :: k in factors ==> factors[k] == initial[k];
  }

  // ---------------------------------------------------------------------
  // calculate_next_hour_prediction
  // ---------------------------------------------------------------------

  /** `base` multiplied by each factor in turn. */
  function Scaled(base: real, factors: seq<real>): real
  {
    if factors == [] then base else Scaled(base, factors[..|factors| - 1]) * factors[|factors| - 1]
  }

  /** Scaling a zero base gives zero, whatever the factors. */
  lemma {:induction false} ScaledZero(factors: seq<real>)
    ensures Scaled(0.0, factors) == 0.0
  {
    if factors != [] {
      ScaledZero(factors[..|factors| - 1]);
    }
  }

  /** The hourly base: the profile's share of today's forecast, or a tenth of it without one. */
  ghost function NextHourBase(forecastToday: real, targetHour: int, profile: Option<HourlyProfile>): real
  {
    var b := ProfileBase(forecastToday, targetHour, profile);
    if b.Some? then b.value else forecastToday / 10.0
  }

  /**
   * The next-hour estimate: 0.0 outside production hours; otherwise the base
   * times the cloud/lux, temperature and rain factors, floored at 0 and
   * rounded to three decimals.
   */
  ghost function NextHour(forecastToday: real, sun: Option<SunTimes>, target: Moment, profile: Option<HourlyProfile>,
                          weather: Option<Readings>, sensor: Option<Readings>): real
  {
    if !IsProductionHour(sun, target) then 0.0
    else
      var f := UnclampedFactors(weather, sensor);
      var adjusted := Scaled(NextHourBase(forecastToday, target.hour, profile), [f[CloudLux], f[Temperature], f[Rain]]);
      Round(Max(0.0, adjusted), ThreeDecimals)
  }

  /** The estimate is never negative, and a day without a forecast gives nothing. */
  lemma NextHourNonNegative(forecastToday: real, sun: Option<SunTimes>, target: Moment, profile: Option<HourlyProfile>,
                            weather: Option<Readings>, sensor: Option<Readings>)
    ensures NextHour(forecastToday, sun, target, profile, weather, sensor) >= 0.0
    ensures forecastToday == 0.0 ==> NextHour(0.0, sun, target, profile, weather, sensor) == 0.0
  {
    if IsProductionHour(sun, target) {
      var f := UnclampedFactors(weather, sensor);
      var adjusted := Scaled(NextHourBase(forecastToday, target.hour, profile), [f[CloudLux], f[Temperature], f[Rain]]);
      RoundNonNegative(Max(0.0, adjusted), ThreeDecimals);
      if forecastToday == 0.0 {
        assert NextHourBase(0.0, target.hour, profile) == 0.0;
        ScaledZero([f[CloudLux], f[Temperature], f[Rain]]);
        assert Round(0.0, ThreeDecimals) == 0.0;
      }
    }
  }

  /** The `for factor in factors.values()` loop: the base multiplied by each factor in turn. */
  method ApplyFactors(base: real, values: seq<real>) returns (adjusted: real)
    ensures adjusted == Scaled(base, values)
  {
    adjusted := base;
    var i := 0;
    while i < |values|
      invariant 0 <= i <= |values|
      invariant adjusted == Scaled(base, values[..i])
    {
      assert values[..i + 1][..i] == values[..i];
      adjusted := adjusted * values[i];
      i := i + 1;
    }
    assert values[..i] == values;
  }

  /** `calculate_next_hour_prediction`: 0.0 outside production hours, else the adjusted base rounded to three decimals. */
  method NextHourPrediction(forecastToday: real, sun: Option<SunTimes>, target: Moment, profile: Option<HourlyProfile>,
                            weather: Option<Readings>, sensor: Option<Readings>) returns (kwh: real)
    ensures kwh == NextHour(forecastToday, sun, target, profile, weather, sensor)
  {
    if !IsProductionHour(sun, target) {
      return 0.0;
    }
    var profileBase := MlHourlyProfileBase(forecastToday, target.hour, profile);
    var baseKwh := if profileBase.Some? then profileBase.value else forecastToday / 10.0;
    assert baseKwh == NextHourBase(forecastToday, target.hour, profile);
    var factors := RealtimeAdjustmentFactors(weather, sensor);
    var adjusted := ApplyFactors(baseKwh, [factors[CloudLux], factors[Temperature], factors[Rain]]);
    kwh := Round(Max(0.0, adjusted), ThreeDecimals);
  }
}
