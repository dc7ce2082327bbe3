/**
 * The records the machine-learning layer stores (ml/types.py): a prediction
 * record, the learnt weights of the linear model and the hourly production
 * profile, each normalised when it is built, plus the validation of a
 * prediction record read back as a dictionary.
 *
 * Hour keys of the profile are the integers 0..23; the source spells them as
 * the strings `str(hour)`, a one-to-one renaming.
 */
module MlTypes {
  import opened Common

  // ---------------------------------------------------------------------
  // PredictionRecord
  // ---------------------------------------------------------------------

  datatype PredictionRecord = PredictionRecord(
    timestamp: string,
    predictedValue: real,
    actualValue: Option<real>,
    weatherData: map<string, Value>,
    sensorData: map<string, Value>,
    accuracy: real,
    modelVersion: string)

  /** A record whose values are all in range. */
  predicate RecordInRange(r: PredictionRecord)
  {
    && r.predictedValue >= 0.0
    && (r.actualValue.Some? ==> r.actualValue.value >= 0.0)
    && 0.0 <= r.accuracy <= 1.0
  }

  /**
   * `PredictionRecord.__post_init__`: a negative prediction or actual value
   * becomes 0.0 and the accuracy is clamped to [0, 1]; everything else is kept.
   */
  function NormalisedRecord(r: PredictionRecord): (n: PredictionRecord)
    ensures RecordInRange(n)
    ensures n.timestamp == r.timestamp && n.weatherData == r.weatherData
    ensures n.sensorData == r.sensorData && n.modelVersion == r.modelVersion
    ensures r.predictedValue >= 0.0 ==> n.predictedValue == r.predictedValue
    ensures r.predictedValue < 0.0 ==> n.predictedValue == 0.0
    ensures n.actualValue.Some? <==> r.actualValue.Some?
    ensures r.actualValue.Some? && r.actualValue.value >= 0.0 ==> n.actualValue == r.actualValue
    ensures r.actualValue.Some? && r.actualValue.value < 0.0 ==> n.actualValue == Some(0.0)
    ensures 0.0 <= r.accuracy <= 1.0 ==> n.accuracy == r.accuracy
  {
    var predicted := if r.predictedValue < 0.0 then 0.0 else r.predictedValue;
    var actual := if r.actualValue.Some? && r.actualValue.value < 0.0 then Some(0.0) else r.actualValue;
    var accuracy := if 0.0 <= r.accuracy <= 1.0 then r.accuracy else Clamp(r.accuracy, 0.0, 1.0);
    r.(predictedValue := predicted, actualValue := actual, accuracy := accuracy)
  }

  /** Normalising a record that is already in range changes nothing, so normalising is idempotent. */
  lemma NormalisedRecordIdempotent(r: PredictionRecord)
    ensures RecordInRange(r) ==> NormalisedRecord(r) == r
    ensures NormalisedRecord(NormalisedRecord(r)) == NormalisedRecord(r)
  {
  }

  // ---------------------------------------------------------------------
  // validate_prediction_record
  // ---------------------------------------------------------------------

  /** The reason `validate_prediction_record` raises `ValueError`. */
  datatype RecordError =
    | MissingField(name: string)
    | BadTimestamp
    | BadPredictedValue
    | BadWeatherData
    | BadSensorData
    | BadAccuracy
    | BadModelVersion
    | BadActualValue

  /** The fields a prediction record must have, in the order they are checked. */
  const RequiredFields: seq<string> :=
    ["timestamp", "predicted_value", "weather_data", "sensor_data", "accuracy", "model_version"]

  /** The first of `fields` that the record lacks. */
  function FirstMissing(fields: seq<string>, record: map<string, Value>): (m: Option<string>)
    ensures m.None? <==> forall i :: 0 <= i < |fields| ==> fields[i] in record
    ensures m.Some? ==> m.value in fields && m.value !in record
    ensures m.Some? ==> exists i :: 0 <= i < |fields| && fields[i] == m.value && forall j :: 0 <= j < i ==> fields[j] in record
  {
    if fields == [] then None
    else if fields[0] !in record then Some(fields[0])
    else
      var rest := FirstMissing(fields[1..], record);
      if rest.Some? then
        assert exists i :: 0 <= i < |fields[1..]| && fields[1..][i] == rest.value && forall j :: 0 <= j < i ==> fields[1..][j] in record;
        var i :| 0 <= i < |fields[1..]| && fields[1..][i] == rest.value && forall j :: 0 <= j < i ==> fields[1..][j] in record;
        assert fields[i + 1] == rest.value && forall j :: 0 <= j < i + 1 ==> fields[j] in record;
        rest
      else
        assert forall i :: 1 <= i < |fields| ==> fields[i] == fields[1..][i - 1];
        rest
  }

  /** An optional `actual_value`: absent, `None`, or a non-negative number. */
  predicate ActualValueOk(record: map<string, Value>)
  {
    "actual_value" !in record || record["actual_value"].Null?
    || (IsNumber(record["actual_value"]) && NumberOf(record["actual_value"]) >= 0.0)
  }

  /** The six required fields are present. */
  predicate HasRequiredFields(record: map<string, Value>)
  {
    && "timestamp" in record && "predicted_value" in record && "weather_data" in record
    && "sensor_data" in record && "accuracy" in record && "model_version" in record
  }

  lemma RequiredFieldsPresent(record: map<string, Value>)
    requires FirstMissing(RequiredFields, record).None?
    ensures HasRequiredFields(record)
  {
    assert RequiredFields[0] in record && RequiredFields[1] in record && RequiredFields[2] in record;
    assert RequiredFields[3] in record && RequiredFields[4] in record && RequiredFields[5] in record;
  }

  /** Everything a stored prediction record must satisfy, stated field by field. */
  predicate WellFormedRecord(record: map<string, Value>)
  {
    && HasRequiredFields(record)
    && record["timestamp"].Str?
    && IsNumber(record["predicted_value"]) && NumberOf(record["predicted_value"]) >= 0.0
    && record["weather_data"].Dict?
    && record["sensor_data"].Dict?
    && IsNumber(record["accuracy"]) && 0.0 <= NumberOf(record["accuracy"]) <= 1.0
    && record["model_version"].Str?
    && ActualValueOk(record)
  }

  /**
   * `validate_prediction_record`: the missing fields are reported first, in
   * the order of `RequiredFields`, then the type and range checks in order.
   */
  function ValidatePredictionRecord(record: map<string, Value>): (r: Result<bool, RecordError>)
    ensures r.Ok? <==> WellFormedRecord(record)
    ensures r.Ok? ==> r.value
    ensures r.Err? && r.error.MissingField? ==> r.error.name in RequiredFields && r.error.name !in record
    ensures (exists f :: f in RequiredFields && f !in record) ==> r.Err? && r.error.MissingField?
    ensures r == Err(BadPredictedValue) ==> !IsNumber(record["predicted_value"]) || NumberOf(record["predicted_value"]) < 0.0
    ensures r == Err(BadAccuracy) ==> !IsNumber(record["accuracy"]) || !(0.0 <= NumberOf(record["accuracy"]) <= 1.0)
    ensures r == Err(BadActualValue) ==> !ActualValueOk(record)
  {
    var missing := FirstMissing(RequiredFields, record);
    if missing.Some? then Err(MissingField(missing.value))
    else
    RequiredFieldsPresent(record);
    if !record["timestamp"].Str? then Err(BadTimestamp)
    else if !IsNumber(record["predicted_value"]) || NumberOf(record["predicted_value"]) < 0.0 then Err(BadPredictedValue)
    else if !record["weather_data"].Dict? then Err(BadWeatherData)
    else if !record["sensor_data"].Dict? then Err(BadSensorData)
    else if !IsNumber(record["accuracy"]) || !(0.0 <= NumberOf(record["accuracy"]) <= 1.0) then Err(BadAccuracy)
    else if !record["model_version"].Str? then Err(BadModelVersion)
    else if !ActualValueOk(record) then Err(BadActualValue)
    else Ok(true)
  }

  /** `dataclasses.asdict` of a prediction record. */
  function RecordAsDict(r: PredictionRecord): (d: map<string, Value>)
    ensures forall f :: f in RequiredFields ==> f in d
    ensures "actual_value" in d
  {
    map[
      "timestamp" := Str(r.timestamp),
      "predicted_value" := Float(r.predictedValue),
      "actual_value" := if r.actualValue.Some? then Float(r.actualValue.value) else Null,
      "weather_data" := Dict(r.weatherData),
      "sensor_data" := Dict(r.sensorData),
      "accuracy" := Float(r.accuracy),
      "model_version" := Str(r.modelVersion)]
  }

  /** Every record built through `__post_init__` passes `validate_prediction_record` once written as a dictionary. */
  lemma NormalisedRecordValidates(r: PredictionRecord)
    ensures ValidatePredictionRecord(RecordAsDict(NormalisedRecord(r))) == Ok(true)
  {
    var d := RecordAsDict(NormalisedRecord(r));
    assert d["predicted_value"] == Float(NormalisedRecord(r).predictedValue);
    assert d["accuracy"] == Float(NormalisedRecord(r).accuracy);
    assert WellFormedRecord(d);
  }

  // ---------------------------------------------------------------------
  // LearnedWeights
  // ---------------------------------------------------------------------

  /** CORRECTION_FACTOR_MIN and CORRECTION_FACTOR_MAX. */
  const CorrectionFactorMin: real := 0.5
  const CorrectionFactorMax: real := 1.5

  /** ML_MODEL_VERSION. */
  const ModelVersion: string := "1.0"

  datatype LearnedWeights = LearnedWeights(
    weights: map<string, real>,
    bias: real,
    featureNames: seq<string>,
    featureMeans: map<string, real>,
    featureStds: map<string, real>,
    accuracy: real,
    trainingSamples: int,
    lastTrained: string,
    modelVersion: string,
    correctionFactor: real)

  predicate WeightsInRange(w: LearnedWeights)
  {
    && CorrectionFactorMin <= w.correctionFactor <= CorrectionFactorMax
    && 0.0 <= w.accuracy <= 1.0
    && w.trainingSamples >= 0
  }

  /**
   * `LearnedWeights.__post_init__`: the correction factor is clamped to
   * [CORRECTION_FACTOR_MIN, CORRECTION_FACTOR_MAX], the accuracy to [0, 1],
   * and a negative sample count becomes 0. The feature-name consistency
   * checks only log.
   */
  function NormalisedWeights(w: LearnedWeights): (n: LearnedWeights)
    ensures WeightsInRange(n)
    ensures n.weights == w.weights && n.bias == w.bias && n.featureNames == w.featureNames
    ensures n.featureMeans == w.featureMeans && n.featureStds == w.featureStds
    ensures n.lastTrained == w.lastTrained && n.modelVersion == w.modelVersion
    ensures CorrectionFactorMin <= w.correctionFactor <= CorrectionFactorMax ==> n.correctionFactor == w.correctionFactor
    ensures w.correctionFactor < CorrectionFactorMin ==> n.correctionFactor == CorrectionFactorMin
    ensures w.correctionFactor > CorrectionFactorMax ==> n.correctionFactor == CorrectionFactorMax
    ensures 0.0 <= w.accuracy <= 1.0 ==> n.accuracy == w.accuracy
    ensures n.trainingSamples == if w.trainingSamples < 0 then 0 else w.trainingSamples
  {
    var factor := if CorrectionFactorMin <= w.correctionFactor <= CorrectionFactorMax then w.correctionFactor
      else Clamp(w.correctionFactor, CorrectionFactorMin, CorrectionFactorMax);
    var accuracy := if 0.0 <= w.accuracy <= 1.0 then w.accuracy else Clamp(w.accuracy, 0.0, 1.0);
    var samples := if w.trainingSamples < 0 then 0 else w.trainingSamples;
    w.(correctionFactor := factor, accuracy := accuracy, trainingSamples := samples)
  }

  /** Normalising learnt weights that are in range changes nothing, so normalising is idempotent. */
  lemma NormalisedWeightsIdempotent(w: LearnedWeights)
    ensures WeightsInRange(w) ==> NormalisedWeights(w) == w
    ensures NormalisedWeights(NormalisedWeights(w)) == NormalisedWeights(w)
  {
  }

  /** The base feature names of a fresh model. */
  const DefaultFeatureNames: seq<string> :=
    ["temperature", "humidity", "cloudiness", "wind_speed", "hour_of_day", "seasonal_factor",
     "weather_trend", "production_yesterday"]

  /** `create_default_learned_weights`, with the creation time as a parameter. */
  function DefaultLearnedWeights(now: string): (w: LearnedWeights)
    ensures WeightsInRange(w) && NormalisedWeights(w) == w
    ensures w.weights == map[] && w.bias == 0.0 && w.accuracy == 0.0 && w.trainingSamples == 0
    ensures w.correctionFactor == 1.0 && w.featureNames == DefaultFeatureNames
  {
    LearnedWeights(map[], 0.0, DefaultFeatureNames, map[], map[], 0.0, 0, now, ModelVersion, 1.0)
  }

  // ---------------------------------------------------------------------
  // HourlyProfile
  // ---------------------------------------------------------------------

  datatype HourlyProfile = HourlyProfile(
    hourlyAverages: map<int, real>,
    samplesCount: int,
    lastUpdated: string,
    confidence: real)

  predicate HourOfDay(h: int)
  {
    0 <= h < 24
  }

  /** The hours of the day as a set. */
  const DayHours: set<int> := {0, 1, 2, 3, 4, 5, 6, 7, 8, 9, 10, 11, 12, 13, 14, 15, 16, 17, 18, 19, 20, 21, 22, 23}

  lemma DayHoursAreHoursOfDay(h: int)
    ensures h in DayHours <==> HourOfDay(h)
  {
  }

  /** Every hour of the day has a non-negative average. */
  predicate CoversDay(averages: map<int, real>)
  {
    forall h :: 0 <= h < 24 ==> h in averages && averages[h] >= 0.0
  }

  /** The average an hour of the day has after `__post_init__`: a missing or negative one becomes 0.0. */
  function FilledAverage(averages: map<int, real>, h: int): (v: real)
    ensures v >= 0.0
    ensures h in averages && averages[h] >= 0.0 ==> v == averages[h]
  {
    if h !in averages then 0.0
    else if averages[h] < 0.0 then 0.0
    else averages[h]
  }

  /** The averages after `__post_init__`, as a map over the old keys and the 24 hours. */
  function FilledAverages(averages: map<int, real>): map<int, real>
  {
    map h | h in averages.Keys + DayHours :: if HourOfDay(h) then FilledAverage(averages, h) else averages[h]
  }

  /**
   * After filling, every hour of the day has a non-negative average, an
   * average that was already valid is kept, and keys outside the day are
   * untouched.
   */
  lemma FilledAveragesCoverDay(averages: map<int, real>)
    ensures CoversDay(FilledAverages(averages))
    ensures forall h :: h in averages && averages[h] >= 0.0 ==> FilledAverages(averages)[h] == averages[h]
    ensures forall h :: h in averages && !HourOfDay(h) ==> FilledAverages(averages)[h] == averages[h]
    ensures forall h :: h in FilledAverages(averages) <==> h in averages || HourOfDay(h)
  {
    forall h
      ensures h in FilledAverages(averages) <==> h in averages || HourOfDay(h)
    {
      DayHoursAreHoursOfDay(h);
    }
  }

  /** Filling a map that already covers the day changes nothing. */
  lemma FilledAveragesIdempotent(averages: map<int, real>)
    ensures CoversDay(averages) ==> FilledAverages(averages) == averages
    ensures FilledAverages(FilledAverages(averages)) == FilledAverages(averages)
  {
    FilledAveragesCoverDay(averages);
    FilledAveragesCoverDay(FilledAverages(averages));
    if CoversDay(averages) {
      assert FilledAverages(averages).Keys == averages.Keys;
    }
  }

  /** The `for hour in range(24)` loop of `HourlyProfile.__post_init__`, updating the dictionary in place. */
  method FillHours(averages: map<int, real>) returns (filled: map<int, real>)
    ensures filled == FilledAverages(averages)
  {
    filled := averages;
    var hour := 0;
    while hour < 24
      invariant 0 <= hour <= 24
      invariant forall h :: h in filled <==> h in averages || 0 <= h < hour
      invariant forall h :: 0 <= h < hour ==> filled[h] == FilledAverage(averages, h)
      invariant forall h :: h in averages && !(0 <= h < hour) ==> filled[h] == averages[h]
    {
      if hour !in filled {
        filled := filled[hour := 0.0];
      } else if filled[hour] < 0.0 {
        filled := filled[hour := 0.0];
      }
      hour := hour + 1;
    }
    FilledAllHours(averages, filled);
  }

  /** A map that agrees with the filled averages on every hour of the day and on every other old key is the filled map. */
  lemma FilledAllHours(averages: map<int, real>, filled: map<int, real>)
    requires forall h :: h in filled <==> h in averages || 0 <= h < 24
    requires forall h :: 0 <= h < 24 ==> filled[h] == FilledAverage(averages, h)
    requires forall h :: h in averages && !(0 <= h < 24) ==> filled[h] == averages[h]
    ensures filled == FilledAverages(averages)
  {
    var f := FilledAverages(averages);
    FilledAveragesCoverDay(averages);
    forall h
      ensures h in filled <==> h in f
      ensures h in filled ==> filled[h] == f[h]
    {
      assert h in f <==> h in averages || HourOfDay(h);
    }
  }

  predicate ProfileInRange(p: HourlyProfile)
  {
    p.samplesCount >= 0 && 0.0 <= p.confidence <= 1.0 && CoversDay(p.hourlyAverages)
  }

  /** `HourlyProfile.__post_init__` as a function of the fields passed in. */
  function NormalisedProfile(p: HourlyProfile): (n: HourlyProfile)
    ensures n.samplesCount == if p.samplesCount < 0 then 0 else p.samplesCount
    ensures 0.0 <= p.confidence <= 1.0 ==> n.confidence == p.confidence
    ensures n.lastUpdated == p.lastUpdated
  {
    var confidence := if 0.0 <= p.confidence <= 1.0 then p.confidence else Clamp(p.confidence, 0.0, 1.0);
    HourlyProfile(FilledAverages(p.hourlyAverages), if p.samplesCount < 0 then 0 else p.samplesCount,
      p.lastUpdated, confidence)
  }

  /**
   * A normalised profile has all 24 hours with non-negative averages, a
   * non-negative sample count and a confidence in [0, 1]; normalising it again
   * changes nothing.
   */
  lemma NormalisedProfileInRange(p: HourlyProfile)
    ensures ProfileInRange(NormalisedProfile(p))
    ensures NormalisedProfile(NormalisedProfile(p)) == NormalisedProfile(p)
  {
    FilledAveragesCoverDay(p.hourlyAverages);
    FilledAveragesIdempotent(p.hourlyAverages);
  }

  /** Building an `HourlyProfile`: the clamps of `__post_init__` and the in-place fill of the 24 hours. */
  method NewHourlyProfile(averages: map<int, real>, samplesCount: int, lastUpdated: string, confidence: real)
    returns (p: HourlyProfile)
    ensures p == NormalisedProfile(HourlyProfile(averages, samplesCount, lastUpdated, confidence))
    ensures ProfileInRange(p)
  {
    var samples := samplesCount;
    if samples < 0 {
      samples := 0;
    }
    var conf := confidence;
    if !(0.0 <= conf <= 1.0) {
      conf := Max(0.0, Min(1.0, conf));
    }
    var filled := FillHours(averages);
    p := HourlyProfile(filled, samples, lastUpdated, conf);
    NormalisedProfileInRange(HourlyProfile(averages, samplesCount, lastUpdated, confidence));
  }

  /**
   * One hour of `create_default_hourly_profile`: a sine arc over the twelve
   * hours from 6:00, floored at 0; 0.0 at night. `sin` and `pi` are parameters.
   */
  function DefaultAverage(hour: int, sin: real -> real, pi: real): (v: real)
    ensures v >= 0.0
    ensures !(6 <= hour < 18) ==> v == 0.0
  {
    if 6 <= hour < 18 then
      var relative := (hour - 6) as real / 12.0;
      Max(0.0, sin(relative * pi + 0.01) * 1.0)
    else 0.0
  }

  /** `create_default_hourly_profile`, with the creation time, `sin` and `pi` as parameters. */
  method DefaultHourlyProfile(now: string, sin: real -> real, pi: real) returns (p: HourlyProfile)
    ensures forall h :: h in p.hourlyAverages <==> HourOfDay(h)
    ensures forall h :: HourOfDay(h) ==> p.hourlyAverages[h] == DefaultAverage(h, sin, pi)
    ensures p.samplesCount == 0 && p.confidence == 0.1 && p.lastUpdated == now
    ensures ProfileInRange(p)
  {
    var averages: map<int, real> := map[];
    var hour := 0;
    while hour < 24
      invariant 0 <= hour <= 24
      invariant forall h :: h in averages <==> 0 <= h < hour
      invariant forall h :: 0 <= h < hour ==> averages[h] == DefaultAverage(h, sin, pi)
    {
      averages := averages[hour := DefaultAverage(hour, sin, pi)];
      hour := hour + 1;
    }
    p := HourlyProfile(averages, 0, now, 0.1);
  }

  /** The default profile is already normalised: its `__post_init__` changes nothing. */
  lemma DefaultProfileIsNormal(p: HourlyProfile, sin: real -> real, pi: real)
    requires forall h :: h in p.hourlyAverages <==> HourOfDay(h)
    requires forall h :: HourOfDay(h) ==> p.hourlyAverages[h] == DefaultAverage(h, sin, pi)
    requires p.samplesCount == 0 && p.confidence == 0.1
    ensures NormalisedProfile(p) == p
  {
    assert CoversDay(p.hourlyAverages);
    FilledAveragesIdempotent(p.hourlyAverages);
  }
}
