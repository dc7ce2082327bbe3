/**
 * The rule-based weather factors of forecast/weather_calculator.py: one
 * multiplier each for temperature, cloud cover, the reported condition and
 * the season, and their product.
 *
 * The month comes from the clock in the source; here it is a parameter.
 */
module WeatherCalculator {
  import opened Common

  const OptimalTemperatureC: real := 25.0
  const TempEfficiencyLossPerC: real := 0.004

  datatype Season = Winter | Spring | Summer | Autumn

  /** SEASONAL_MONTH_MAPPING with its default "autumn". */
  function SeasonOf(month: int): (s: Season)
    ensures month in {12, 1, 2} <==> s == Winter
    ensures 3 <= month <= 5 <==> s == Spring
    ensures 6 <= month <= 8 <==> s == Summer
  {
    if month == 12 || month == 1 || month == 2 then Winter
    else if 3 <= month <= 5 then Spring
    else if 6 <= month <= 8 then Summer
    else Autumn
  }

  /** SEASONAL_FACTORS. */
  function SeasonalFactor(s: Season): (f: real)
    ensures 0.35 <= f <= 1.0
  {
    match s
    case Winter => 0.35
    case Spring => 0.75
    case Summer => 1.0
    case Autumn => 0.65
  }

  /** `get_temperature_factor`. */
  function TemperatureFactor(temperature: Option<real>): (f: real)
    ensures temperature.None? ==> f == 0.9
    ensures temperature.Some? && temperature.value < 0.0 ==> f == 0.85
    ensures temperature.Some? && 0.0 <= temperature.value <= OptimalTemperatureC ==>
      0.85 <= f <= 1.0 && f == 0.85 + 0.15 * (temperature.value / OptimalTemperatureC)
    ensures temperature.Some? && temperature.value > OptimalTemperatureC ==> 0.70 <= f < 1.0
    ensures 0.70 <= f <= 1.0
  {
    if temperature.None? then 0.9
    else
      var t := temperature.value;
      if t < 0.0 then 0.85
      else if t <= OptimalTemperatureC then 0.85 + (t / OptimalTemperatureC) * 0.15
      else Max(0.70, 1.0 - (t - OptimalTemperatureC) * TempEfficiencyLossPerC)
  }

  /** The temperature factor rises with temperature up to 25 °C and falls after it. */
  lemma TemperatureFactorShape(t1: real, t2: real)
    requires t1 <= t2
    ensures t2 <= OptimalTemperatureC ==> TemperatureFactor(Some(t1)) <= TemperatureFactor(Some(t2))
    ensures OptimalTemperatureC <= t1 ==> TemperatureFactor(Some(t2)) <= TemperatureFactor(Some(t1))
    ensures TemperatureFactor(Some(OptimalTemperatureC)) == 1.0
  {
  }

  /** `get_cloud_factor`: coverage clamped to [0, 100], then a step function. */
  function CloudFactor(coverage: Option<real>): (f: real)
    ensures coverage.None? ==> f == 0.6
    ensures 0.15 <= f <= 1.0
  {
    if coverage.None? then 0.6
    else
      var c := Max(0.0, Min(100.0, coverage.value));
      if c < 10.0 then 1.0
      else if c < 30.0 then 0.9
      else if c < 60.0 then 0.65
      else if c < 90.0 then 0.35
      else 0.15
  }

  /** More cloud never gives a larger factor, and values outside [0, 100] act as their bound. */
  lemma CloudFactorAntitone(c1: real, c2: real)
    requires c1 <= c2
    ensures CloudFactor(Some(c2)) <= CloudFactor(Some(c1))
    ensures c1 < 0.0 ==> CloudFactor(Some(c1)) == CloudFactor(Some(0.0))
    ensures c2 > 100.0 ==> CloudFactor(Some(c2)) == CloudFactor(Some(100.0))
  {
  }

  /** The condition value as the weather entity may report it. */
  datatype Condition = NoCondition | Text(s: string) | NotAString

  /** Lower case of one ASCII letter. */
  function LowerChar(c: char): (d: char)
    ensures 'A' <= c <= 'Z' ==> 'a' <= d <= 'z'
    ensures !('A' <= c <= 'Z') ==> d == c
  {
    if 'A' <= c <= 'Z' then (c as int - 'A' as int + 'a' as int) as char else c
  }

  /** `str.lower()` on ASCII text. */
  function Lower(s: string): (r: string)
    ensures |r| == |s|
    ensures forall i :: 0 <= i < |s| ==> r[i] == LowerChar(s[i])
  {
    if s == [] then [] else [LowerChar(s[0])] + Lower(s[1..])
  }

  lemma {:induction false} LowerIdempotent(s: string)
    ensures Lower(Lower(s)) == Lower(s)
  {
    var l := Lower(s);
    assert forall i :: 0 <= i < |s| ==> Lower(l)[i] == LowerChar(LowerChar(s[i])) == l[i];
  }

  /** CONDITION_FACTORS. */
  const ConditionFactors: map<string, real> := map[
    "rainy" := 0.40, "pouring" := 0.20, "snowy" := 0.30, "snowy-rainy" := 0.25, "hail" := 0.20,
    "lightning" := 0.50, "lightning-rainy" := 0.35, "fog" := 0.45, "windy" := 0.95,
    "windy-variant" := 0.95, "exceptional" := 0.50]

  /** `get_condition_factor`: 1.0 for no condition, a non-string, "" or an unlisted one. */
  function ConditionFactor(c: Condition): (f: real)
    ensures c.NoCondition? || c.NotAString? || c == Text("") ==> f == 1.0
    ensures c.Text? && Lower(c.s) !in ConditionFactors ==> f == 1.0
    ensures 0.20 <= f <= 1.0
  {
    match c
    case NoCondition => 1.0
    case NotAString => 1.0
    case Text(s) =>
      if s == "" then 1.0
      else
        var key := Lower(s);
        if key in ConditionFactors then ConditionFactors[key] else 1.0
  }

  /** The lookup ignores case: text differing only in letter case gets the same factor. */
  lemma ConditionFactorCaseInsensitive(s1: string, s2: string)
    requires Lower(s1) == Lower(s2)
    ensures ConditionFactor(Text(s1)) == ConditionFactor(Text(s2))
  {
    assert |s1| == |Lower(s1)| == |s2|;
  }

  /** `get_seasonal_adjustment` for the month of the current time. */
  function SeasonalAdjustment(month: int): (f: real)
    ensures 0.2 <= f <= 1.2
  {
    var base := SeasonalFactor(SeasonOf(month));
    var factor :=
      if month == 12 || month == 1 then base * 0.85
      else if month == 6 || month == 7 then base * 1.05
      else base;
    Max(0.2, Min(1.2, factor))
  }

  /**
   * The clamp to [0.2, 1.2] never binds: deep winter gives 0.2975, high
   * summer 1.05, and every other month its season's base factor.
   */
  lemma SeasonalAdjustmentValues(month: int)
    ensures month in {12, 1} ==> SeasonalAdjustment(month) == 0.2975
    ensures month in {6, 7} ==> SeasonalAdjustment(month) == 1.05
    ensures month !in {12, 1, 6, 7} ==> SeasonalAdjustment(month) == SeasonalFactor(SeasonOf(month))
    ensures 0.2975 <= SeasonalAdjustment(month) <= 1.05
  {
  }

  /** `get_current_season`. */
  function CurrentSeason(month: int): (s: Season)
    ensures month !in {12, 1, 2, 3, 4, 5, 6, 7, 8} ==> s == Autumn
  {
    SeasonOf(month)
  }

  /**
   * The weather entry the combined factor reads. `cloudCover` is None when the
   * key is absent (and `clouds` is then used), Some(None) when it is present
   * but empty.
   */
  datatype WeatherData = WeatherData(
    temperature: Option<real>,
    cloudCover: Option<Option<real>>,
    clouds: Option<real>,
    condition: Condition)

  /** `weather_data.get("cloud_cover", weather_data.get("clouds"))`. */
  function CloudPercent(w: WeatherData): Option<real>
  {
    if w.cloudCover.Some? then w.cloudCover.value else w.clouds
  }

  /** The combination step: the product of the factors, the seasonal one if asked for, kept non-negative. */
  function Combine(temperatureFactor: real, cloudFactor: real, conditionFactor: real, seasonal: real, includeSeasonal: bool): real
  {
    var core := temperatureFactor * cloudFactor * conditionFactor;
    Max(0.0, if includeSeasonal then core * seasonal else core)
  }

  /** Factors within their ranges combine to a positive factor of at most 1, or 1.2 with the seasonal one. */
  lemma CombineBounded(a: real, b: real, c: real, s: real, includeSeasonal: bool)
    requires 0.0 < a <= 1.0 && 0.0 < b <= 1.0 && 0.0 < c <= 1.0 && 0.0 < s <= 1.2
    ensures 0.0 < Combine(a, b, c, s, includeSeasonal) <= (if includeSeasonal then 1.2 else 1.0)
  {
    UnitProduct(a, b, c, s);
  }

  /** `calculate_combined_weather_factor`. */
  function CombinedWeatherFactor(w: WeatherData, includeSeasonal: bool, month: int): (f: real)
    ensures 0.0 < f <= (if includeSeasonal then 1.2 else 1.0)
  {
    var a, b, c := TemperatureFactor(w.temperature), CloudFactor(CloudPercent(w)), ConditionFactor(w.condition);
    var s := SeasonalAdjustment(month);
    CombineBounded(a, b, c, s, includeSeasonal);
    Combine(a, b, c, s, includeSeasonal)
  }

  /** A product of three factors in (0, 1], and that product times one in (0, 1.2]. */
  lemma UnitProduct(a: real, b: real, c: real, s: real)
    requires 0.0 < a <= 1.0 && 0.0 < b <= 1.0 && 0.0 < c <= 1.0 && 0.0 < s <= 1.2
    ensures 0.0 < a * b * c <= 1.0
    ensures 0.0 < a * b * c * s <= 1.2
    ensures Combine(a, b, c, s, true) == a * b * c * s
    ensures Combine(a, b, c, s, false) == a * b * c
  {
    assert 0.0 < a * b <= b by {
      assert (1.0 - a) * b >= 0.0;
    }
    assert 0.0 < a * b * c <= c by {
      assert (1.0 - a * b) * c >= 0.0;
    }
    assert a * b * c * s <= s by {
      assert (1.0 - a * b * c) * s >= 0.0;
    }
  }

  /**
   * The clamp at 0 never binds: the combined factor is exactly the product of
   * the temperature, cloud and condition factors, times the seasonal one when
   * asked for.
   */
  lemma CombinedIsProduct(w: WeatherData, includeSeasonal: bool, month: int)
    ensures var core := TemperatureFactor(w.temperature) * CloudFactor(CloudPercent(w)) * ConditionFactor(w.condition);
      CombinedWeatherFactor(w, includeSeasonal, month) == (if includeSeasonal then core * SeasonalAdjustment(month) else core)
  {
    var a, b, c := TemperatureFactor(w.temperature), CloudFactor(CloudPercent(w)), ConditionFactor(w.condition);
    var s := SeasonalAdjustment(month);
    UnitProduct(a, b, c, s);
    assert CombinedWeatherFactor(w, includeSeasonal, month) == Combine(a, b, c, s, includeSeasonal);
  }
}
