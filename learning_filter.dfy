/**
 * The learning gate (data/data_learning_filter.py): which hourly predictions
 * are kept out of learning, the share of excluded production hours in a day,
 * and the rule that skips a whole day's learning when that share is too high.
 */
module LearningFilter {
  import opened Common

  /** Above this share of excluded production hours, daily learning is skipped. */
  const DailyLearningExclusionThreshold: real := 0.25

  /**
   * The fields of one hourly prediction the gate reads. A missing or falsy
   * flag is `false`, a missing alert type is "", a missing number is `None`.
   */
  datatype HourPrediction = HourPrediction(
    excludeFromLearning: bool,
    hasWeatherAlert: bool,
    weatherAlertType: string,
    inverterClipped: bool,
    frostDetected: Option<string>,
    snowCoveredPanels: bool,
    actualKwh: Option<real>,
    predictionKwh: Option<real>)

  datatype Exclusion = Exclusion(exclude: bool, reason: string)

  /** `alert_type or default`. */
  function OrDefault(s: string, default: string): string
  {
    if s == "" then default else s
  }

  /** Whether the hour is excluded by a hardware or environmental flag, which no context overrides. */
  predicate HardwareOrEnvironmentFlag(p: HourPrediction)
  {
    p.inverterClipped || p.frostDetected == Some("heavy_frost") || p.snowCoveredPanels
  }

  /** `should_exclude_hour_from_learning(prediction, context)`. */
  function ShouldExcludeHour(p: HourPrediction, context: string): (r: Exclusion)
    ensures r.exclude <==> r.reason != ""
    ensures HardwareOrEnvironmentFlag(p) ==> r.exclude
    ensures context == "panel_group" && p.weatherAlertType == "unexpected_clouds" ==>
      (r.exclude <==> HardwareOrEnvironmentFlag(p))
    ensures !(context == "panel_group" && p.weatherAlertType == "unexpected_clouds") ==>
      (r.exclude <==> p.excludeFromLearning || p.hasWeatherAlert || HardwareOrEnvironmentFlag(p))
    ensures !p.excludeFromLearning && !p.hasWeatherAlert && !HardwareOrEnvironmentFlag(p) ==>
      r == Exclusion(false, "")
  {
    var cloudException := p.weatherAlertType == "unexpected_clouds" && context == "panel_group";
    if !cloudException && p.excludeFromLearning then
      Exclusion(true, OrDefault(p.weatherAlertType, "manually_excluded"))
    else if !cloudException && p.hasWeatherAlert then
      Exclusion(true, OrDefault(p.weatherAlertType, "weather_alert"))
    else if p.inverterClipped then
      Exclusion(true, "inverter_clipped")
    else if p.frostDetected == Some("heavy_frost") then
      Exclusion(true, "heavy_frost")
    else if p.snowCoveredPanels then
      Exclusion(true, "snow_covered_panels")
    else
      Exclusion(false, "")
  }

  /** The gate with the default context "general". */
  predicate Excluded(p: HourPrediction)
  {
    ShouldExcludeHour(p, "general").exclude
  }

  /** The hours `filter_predictions_for_learning` keeps, in order. */
  function Kept(ps: seq<HourPrediction>): (r: seq<HourPrediction>)
    ensures |r| <= |ps|
    ensures forall i :: 0 <= i < |r| ==> !Excluded(r[i])
  {
    if ps == [] then []
    else if Excluded(ps[0]) then Kept(ps[1..])
    else [ps[0]] + Kept(ps[1..])
  }

  /** The reasons of the excluded hours, in order. */
  function ExclusionReasons(ps: seq<HourPrediction>): (r: seq<string>)
  {
    if ps == [] then []
    else if Excluded(ps[0]) then [ShouldExcludeHour(ps[0], "general").reason] + ExclusionReasons(ps[1..])
    else ExclusionReasons(ps[1..])
  }

  /** Every hour is either kept or dropped with a reason. */
  lemma {:induction false} KeptAndDroppedPartition(ps: seq<HourPrediction>)
    ensures |Kept(ps)| + |ExclusionReasons(ps)| == |ps|
  {
    if ps != [] {
      KeptAndDroppedPartition(ps[1..]);
    }
  }

  /** An hour that passes the gate is kept. */
  lemma {:induction false} NotExcludedIsKept(ps: seq<HourPrediction>, i: nat)
    requires i < |ps| && !Excluded(ps[i])
    ensures ps[i] in Kept(ps)
  {
    if i > 0 {
      NotExcludedIsKept(ps[1..], i - 1);
    }
  }

  /** Count of one reason in a tally (`stats.get(reason, 0)`). */
  function Get(m: map<string, nat>, k: string): nat
  {
    if k in m then m[k] else 0
  }

  /** The per-reason tally of a list of reasons. */
  function Tally(reasons: seq<string>): (m: map<string, nat>)
  {
    if reasons == [] then map[]
    else
      var m0 := Tally(reasons[..|reasons| - 1]);
      var k := reasons[|reasons| - 1];
      m0[k := Get(m0, k) + 1]
  }

  /** The sum of a tally's counts. */
  ghost function SumValues(m: map<string, nat>): nat
    decreases |m.Keys|
  {
    if m.Keys == {} then 0
    else
      var k :| k in m.Keys;
      m[k] + SumValues(m - {k})
  }

  /** The sum may be taken out at any key, not only the one SumValues picks. */
  lemma {:induction false} SumValuesAt(m: map<string, nat>, k: string)
    requires k in m
    ensures SumValues(m) == m[k] + SumValues(m - {k})
    decreases |m.Keys|
  {
    var j :| j in m.Keys && SumValues(m) == m[j] + SumValues(m - {j});
    if j != k {
      var mj := m - {j};
      var mk := m - {k};
      assert mj.Keys == m.Keys - {j};
      assert mk.Keys == m.Keys - {k};
      SumValuesAt(mj, k);
      SumValuesAt(mk, j);
      assert mj - {k} == mk - {j};
    }
  }

  lemma SumValuesIncrement(m: map<string, nat>, k: string)
    ensures SumValues(m[k := Get(m, k) + 1]) == SumValues(m) + 1
  {
    var m1 := m[k := Get(m, k) + 1];
    SumValuesAt(m1, k);
    if k in m {
      SumValuesAt(m, k);
      assert m1 - {k} == m - {k};
    } else {
      assert m1 - {k} == m;
    }
  }

  /** The tally's counts sum to the number of reasons tallied. */
  lemma {:induction false} TallySum(reasons: seq<string>)
    ensures SumValues(Tally(reasons)) == |reasons|
  {
    if reasons != [] {
      var init := reasons[..|reasons| - 1];
      TallySum(init);
      SumValuesIncrement(Tally(init), reasons[|reasons| - 1]);
    }
  }

  lemma {:induction false} KeptSnoc(ps: seq<HourPrediction>, p: HourPrediction)
    ensures Kept(ps + [p]) == Kept(ps) + (if Excluded(p) then [] else [p])
    ensures ExclusionReasons(ps + [p]) ==
      ExclusionReasons(ps) + (if Excluded(p) then [ShouldExcludeHour(p, "general").reason] else [])
  {
    if ps == [] {
      assert [] + [p] == [p];
    } else {
      assert (ps + [p])[0] == ps[0];
      assert (ps + [p])[1..] == ps[1..] + [p];
      KeptSnoc(ps[1..], p);
    }
  }

  /** Tallying one more reason adds one to its count. */
  lemma TallySnoc(rs: seq<string>, x: string)
    ensures Tally(rs + [x]) == Tally(rs)[x := Get(Tally(rs), x) + 1]
  {
    assert (rs + [x])[..|rs + [x]| - 1] == rs;
  }

  /** The kept hours and the tally of a prefix one hour longer. */
  lemma FilterPrefixStep(ps: seq<HourPrediction>, i: nat)
    requires i < |ps|
    ensures var e := ShouldExcludeHour(ps[i], "general");
      && Kept(ps[..i + 1]) == Kept(ps[..i]) + (if e.exclude then [] else [ps[i]])
      && Tally(ExclusionReasons(ps[..i + 1])) ==
        (if e.exclude then Tally(ExclusionReasons(ps[..i]))[e.reason := Get(Tally(ExclusionReasons(ps[..i])), e.reason) + 1]
         else Tally(ExclusionReasons(ps[..i])))
  {
    KeptSnoc(ps[..i], ps[i]);
    assert ps[..i + 1] == ps[..i] + [ps[i]];
    var e := ShouldExcludeHour(ps[i], "general");
    var rs := ExclusionReasons(ps[..i]);
    if e.exclude {
      assert ExclusionReasons(ps[..i + 1]) == rs + [e.reason];
      TallySnoc(rs, e.reason);
    } else {
      assert ExclusionReasons(ps[..i + 1]) == rs;
    }
  }

  /**
   * `filter_predictions_for_learning`: the kept hours in order, and for each
   * reason the number of hours dropped for it.
   */
  method FilterPredictionsForLearning(ps: seq<HourPrediction>)
    returns (filtered: seq<HourPrediction>, stats: map<string, nat>)
    ensures filtered == Kept(ps)
    ensures stats == Tally(ExclusionReasons(ps))
    ensures forall i :: 0 <= i < |filtered| ==> !Excluded(filtered[i])
    ensures SumValues(stats) == |ps| - |filtered|
  {
    filtered := [];
    stats := map[];
    var i := 0;
    while i < |ps|
      invariant 0 <= i <= |ps|
      invariant filtered == Kept(ps[..i])
      invariant stats == Tally(ExclusionReasons(ps[..i]))
    {
      var e := ShouldExcludeHour(ps[i], "general");
      FilterPrefixStep(ps, i);
      if e.exclude {
        stats := stats[e.reason := Get(stats, e.reason) + 1];
      } else {
        filtered := filtered + [ps[i]];
      }
      i := i + 1;
    }
    assert ps[..i] == ps;
    DroppedCount(ps);
  }

  /** The tally counts exactly the hours that were not kept. */
  lemma DroppedCount(ps: seq<HourPrediction>)
    ensures SumValues(Tally(ExclusionReasons(ps))) == |ps| - |Kept(ps)|
  {
    TallySum(ExclusionReasons(ps));
    KeptAndDroppedPartition(ps);
  }

  /** `(x or 0)`. */
  function OrZero(x: Option<real>): real
  {
    if x.Some? then x.value else 0.0
  }

  /** A production hour: some actual output, or a forecast above 0.01 kWh. */
  predicate ProductionHour(p: HourPrediction)
  {
    OrZero(p.actualKwh) > 0.0 || OrZero(p.predictionKwh) > 0.01
  }

  function Relevant(ps: seq<HourPrediction>, productionHoursOnly: bool): (r: seq<HourPrediction>)
    ensures |r| <= |ps|
    ensures productionHoursOnly ==> forall i :: 0 <= i < |r| ==> ProductionHour(r[i])
    ensures productionHoursOnly ==> forall p :: p in r <==> p in ps && ProductionHour(p)
    ensures !productionHoursOnly ==> r == ps
  {
    if !productionHoursOnly || ps == [] then ps
    else if ProductionHour(ps[0]) then [ps[0]] + Relevant(ps[1..], true)
    else Relevant(ps[1..], true)
  }

  /**
   * The filter read from the back: a later hour lands after every earlier
   * one it keeps, so the production hours stay in their original order.
   */
  lemma {:induction false} RelevantSnoc(ps: seq<HourPrediction>, p: HourPrediction)
    ensures Relevant(ps + [p], true) == Relevant(ps, true) + (if ProductionHour(p) then [p] else [])
  {
    if ps == [] {
      assert ps + [p] == [p];
    } else {
      assert (ps + [p])[0] == ps[0];
      assert (ps + [p])[1..] == ps[1..] + [p];
      RelevantSnoc(ps[1..], p);
    }
  }

  function ExcludedCount(ps: seq<HourPrediction>): (n: nat)
    ensures n <= |ps|
  {
    if ps == [] then 0 else (if Excluded(ps[0]) then 1 else 0) + ExcludedCount(ps[1..])
  }

  lemma {:induction false} ExcludedCountSnoc(ps: seq<HourPrediction>, p: HourPrediction)
    ensures ExcludedCount(ps + [p]) == ExcludedCount(ps) + if Excluded(p) then 1 else 0
  {
    if ps != [] {
      assert (ps + [p])[1..] == ps[1..] + [p];
      ExcludedCountSnoc(ps[1..], p);
    }
  }

  /** The excluded count of a prefix one hour longer. */
  lemma ExcludedCountPrefixStep(ps: seq<HourPrediction>, i: nat)
    requires i < |ps|
    ensures ExcludedCount(ps[..i + 1]) == ExcludedCount(ps[..i]) + if Excluded(ps[i]) then 1 else 0
  {
    ExcludedCountSnoc(ps[..i], ps[i]);
    assert ps[..i + 1] == ps[..i] + [ps[i]];
  }

  /** A part over a positive whole lies in [0, 1]. */
  lemma RatioInUnit(part: nat, whole: nat)
    requires 0 < whole && part <= whole
    ensures 0.0 <= part as real / whole as real <= 1.0
  {
  }

  datatype Ratio = Ratio(ratio: real, excluded: nat, total: nat)

  /**
   * `calculate_excluded_hours_ratio`: the share of excluded hours among the
   * relevant ones; (0, 0, 0) when there is nothing relevant.
   */
  method CalculateExcludedHoursRatio(ps: seq<HourPrediction>, productionHoursOnly: bool) returns (r: Ratio)
    ensures ps == [] ==> r == Ratio(0.0, 0, 0)
    ensures r.total == |Relevant(ps, productionHoursOnly)|
    ensures r.excluded == ExcludedCount(Relevant(ps, productionHoursOnly))
    ensures r.excluded <= r.total
    ensures 0.0 <= r.ratio <= 1.0
    ensures r.total == 0 ==> r == Ratio(0.0, 0, 0)
    ensures r.total > 0 ==> r.ratio == r.excluded as real / r.total as real
  {
    if ps == [] {
      return Ratio(0.0, 0, 0);
    }
    var relevant := Relevant(ps, productionHoursOnly);
    if relevant == [] {
      return Ratio(0.0, 0, 0);
    }
    var excluded := 0;
    var i := 0;
    while i < |relevant|
      invariant 0 <= i <= |relevant|
      invariant excluded == ExcludedCount(relevant[..i])
    {
      ExcludedCountPrefixStep(relevant, i);
      if ShouldExcludeHour(relevant[i], "general").exclude {
        excluded := excluded + 1;
      }
      i := i + 1;
    }
    assert relevant[..i] == relevant;
    var total := |relevant|;
    RatioInUnit(excluded, total);
    r := Ratio(excluded as real / total as real, excluded, total);
  }

  datatype SkipDecision = SkipDecision(skip: bool, ratio: real)

  /** `should_skip_daily_learning`: skip exactly when the excluded share is above the threshold. */
  method ShouldSkipDailyLearning(ps: seq<HourPrediction>, threshold: real) returns (d: SkipDecision)
    ensures d.skip <==> d.ratio > threshold
    ensures 0.0 <= d.ratio <= 1.0
    ensures ps == [] ==> d.ratio == 0.0
    ensures |Relevant(ps, true)| == 0 ==> d.ratio == 0.0 && (threshold >= 0.0 ==> !d.skip)
    ensures |Relevant(ps, true)| > 0 ==>
      d.ratio == ExcludedCount(Relevant(ps, true)) as real / |Relevant(ps, true)| as real
  {
    var r := CalculateExcludedHoursRatio(ps, true);
    d := SkipDecision(r.ratio > threshold, r.ratio);
  }
}
