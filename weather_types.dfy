/**
 * Constants of the weather expert system (data/weather_types.py): the cloud
 * types, the default blending weight of each weather source per cloud type,
 * the transmission coefficient of each cloud type, and the conversion from
 * cloud cover to solar transmission.
 */
module WeatherTypes {
  import opened Common

  datatype CloudType = Clear | Cirrus | Fair | Mixed | Stratus | Overcast | Snow | Fog | FogLight

  /** The string value of each cloud type, the key of the tables below. */
  function CloudTypeValue(t: CloudType): string
  {
    match t
    case Clear => "clear"
    case Cirrus => "cirrus"
    case Fair => "fair"
    case Mixed => "mixed"
    case Stratus => "stratus"
    case Overcast => "overcast"
    case Snow => "snow"
    case Fog => "fog"
    case FogLight => "fog_light"
  }

  const LayerThresholdDominant: real := 50.0
  const LayerThresholdLow: real := 20.0
  const LayerThresholdClear: real := 25.0

  /** Visibility in metres below which the sky counts as fog, and as light fog. */
  const VisibilityFogThreshold: int := 1000
  const VisibilityFogLightThreshold: int := 5000

  /** Fog is the denser condition: its visibility bound lies below light fog's. */
  lemma FogBelowLightFog()
    ensures 0 < VisibilityFogThreshold < VisibilityFogLightThreshold
  {
  }

  /** The weather sources that are blended, in table order. */
  const Experts: seq<string> := ["open_meteo", "wttr_in", "ecmwf_layers", "bright_sky", "pirate_weather"]

  function Weights(openMeteo: real, wttrIn: real, ecmwfLayers: real, brightSky: real, pirateWeather: real): map<string, real>
  {
    map["open_meteo" := openMeteo, "wttr_in" := wttrIn, "ecmwf_layers" := ecmwfLayers,
        "bright_sky" := brightSky, "pirate_weather" := pirateWeather]
  }

  /** The row of DEFAULT_EXPERT_WEIGHTS for a cloud type: the five weights in source order. */
  function WeightRow(t: CloudType): (row: seq<real>)
    ensures |row| == 5
  {
    match t
    case Clear => [0.15, 0.10, 0.15, 0.35, 0.25]
    case Cirrus => [0.10, 0.10, 0.30, 0.30, 0.20]
    case Fair => [0.15, 0.10, 0.15, 0.35, 0.25]
    case Mixed => [0.15, 0.10, 0.15, 0.30, 0.30]
    case Stratus => [0.10, 0.10, 0.10, 0.40, 0.30]
    case Overcast => [0.10, 0.10, 0.10, 0.40, 0.30]
    case Snow => [0.20, 0.20, 0.20, 0.20, 0.20]
    case Fog => [0.10, 0.05, 0.05, 0.50, 0.30]
    case FogLight => [0.15, 0.10, 0.10, 0.40, 0.25]
  }

  function WeightTable(t: CloudType): map<string, real>
  {
    var r := WeightRow(t);
    Weights(r[0], r[1], r[2], r[3], r[4])
  }

  /** DEFAULT_EXPERT_WEIGHTS, keyed by the cloud type's string value. */
  const DefaultExpertWeights: map<string, map<string, real>> := map[
    CloudTypeValue(Clear) := WeightTable(Clear),
    CloudTypeValue(Cirrus) := WeightTable(Cirrus),
    CloudTypeValue(Fair) := WeightTable(Fair),
    CloudTypeValue(Mixed) := WeightTable(Mixed),
    CloudTypeValue(Stratus) := WeightTable(Stratus),
    CloudTypeValue(Overcast) := WeightTable(Overcast),
    CloudTypeValue(Snow) := WeightTable(Snow),
    CloudTypeValue(Fog) := WeightTable(Fog),
    CloudTypeValue(FogLight) := WeightTable(FogLight)]

  /** The sum of a weight table over the blended sources (0 for a missing one). */
  function WeightSum(w: map<string, real>, names: seq<string>): real
  {
    if names == [] then 0.0
    else (if names[0] in w then w[names[0]] else 0.0) + WeightSum(w, names[1..])
  }

  /** A table built by `Weights` covers the five sources and sums their weights. */
  lemma WeightsTable(a: real, b: real, c: real, d: real, e: real)
    ensures var w := Weights(a, b, c, d, e);
      && w.Keys == set n | n in Experts
      && (forall n :: n in w ==> w[n] in {a, b, c, d, e})
      && WeightSum(w, Experts) == a + b + c + d + e
  {
    var w := Weights(a, b, c, d, e);
    assert Experts[1..][1..][1..][1..][1..] == [];
    assert WeightSum(w, Experts) == w["open_meteo"] + WeightSum(w, Experts[1..]);
    assert WeightSum(w, Experts[1..]) == w["wttr_in"] + WeightSum(w, Experts[2..]);
    assert WeightSum(w, Experts[2..]) == w["ecmwf_layers"] + WeightSum(w, Experts[3..]);
    assert WeightSum(w, Experts[3..]) == w["bright_sky"] + WeightSum(w, Experts[4..]);
    assert WeightSum(w, Experts[4..]) == w["pirate_weather"] + WeightSum(w, Experts[5..]);
  }

  /**
   * Every cloud type has a weight table over exactly the five sources, with
   * non-negative weights summing to 1.
   */
  lemma DefaultExpertWeightsAreDistributions(t: CloudType)
    ensures CloudTypeValue(t) in DefaultExpertWeights
    ensures var w := DefaultExpertWeights[CloudTypeValue(t)];
      && w.Keys == set e | e in Experts
      && (forall e :: e in w ==> w[e] >= 0.0)
      && WeightSum(w, Experts) == 1.0
  {
    var r := WeightRow(t);
    DefaultExpertWeightsAt(t);
    RowIsDistribution(t);
    WeightsTable(r[0], r[1], r[2], r[3], r[4]);
  }

  /** The table holds each cloud type's row under its string value. */
  lemma DefaultExpertWeightsAt(t: CloudType)
    ensures CloudTypeValue(t) in DefaultExpertWeights
    ensures DefaultExpertWeights[CloudTypeValue(t)] == WeightTable(t)
  {
    match t
    case Clear =>
    case Cirrus =>
    case Fair =>
    case Mixed =>
    case Stratus =>
    case Overcast =>
    case Snow =>
    case Fog =>
    case FogLight =>
  }

  /** Each row is non-negative and sums to 1. */
  lemma RowIsDistribution(t: CloudType)
    ensures var r := WeightRow(t);
      r[0] >= 0.0 && r[1] >= 0.0 && r[2] >= 0.0 && r[3] >= 0.0 && r[4] >= 0.0
      && r[0] + r[1] + r[2] + r[3] + r[4] == 1.0
  {
  }

  /** TRANSMISSION_TAU_BY_CLOUD_TYPE. */
  const TransmissionTau: map<string, real> := map[
    "clear" := 1.00, "cirrus" := 0.80, "fair" := 0.50, "mixed" := 0.35, "stratus" := 0.20,
    "overcast" := 0.10, "snow" := 0.02, "fog" := 0.50, "fog_light" := 0.70]

  /** The coefficient looked up by key, 0.35 for a key the table does not hold. */
  function Tau(key: string): (tau: real)
    ensures key !in TransmissionTau ==> tau == 0.35
    ensures 0.0 <= tau <= 1.0
  {
    if key in TransmissionTau then TransmissionTau[key] else 0.35
  }

  /** Every cloud type has its own coefficient in the table, all within [0, 1]. */
  lemma TauTableCoversCloudTypes(t: CloudType)
    ensures CloudTypeValue(t) in TransmissionTau
    ensures forall k :: k in TransmissionTau ==> 0.0 <= TransmissionTau[k] <= 1.0
  {
  }

  /** The transmission before rounding, clamped to [0, 100]. */
  function TransmissionUnrounded(cloudPercent: real, key: string): (t: real)
    ensures 0.0 <= t <= 100.0
  {
    var tau := Tau(key);
    Max(0.0, Min(100.0, 100.0 * (1.0 - (cloudPercent / 100.0) * (1.0 - tau))))
  }

  /** `cloud_to_transmission(cloud_percent, cloud_type)`, rounded to one decimal. */
  function CloudToTransmissionByKey(cloudPercent: real, key: string): (t: real)
    ensures 0.0 <= t <= 100.0
  {
    var u := TransmissionUnrounded(cloudPercent, key);
    RoundWithin(u, OneDecimal, 0, 1000);
    Round(u, OneDecimal)
  }

  function CloudToTransmission(cloudPercent: real, t: CloudType): (r: real)
    ensures 0.0 <= r <= 100.0
  {
    CloudToTransmissionByKey(cloudPercent, CloudTypeValue(t))
  }

  /** A clear sky transmits everything, whatever the cloud type. */
  lemma NoCloudFullTransmission(key: string)
    ensures CloudToTransmissionByKey(0.0, key) == 100.0
  {
    assert TransmissionUnrounded(0.0, key) == 100.0;
    assert RoundHalfEven(100.0 * OneDecimal) == 1000;
  }

  /** With tau at most 1, a larger cover blocks a larger share. */
  lemma CoverShareAntitone(c1: real, c2: real, tau: real)
    requires 0.0 <= c1 <= c2 && tau <= 1.0
    ensures (c2 / 100.0) * (1.0 - tau) >= (c1 / 100.0) * (1.0 - tau)
  {
    assert (c2 / 100.0 - c1 / 100.0) * (1.0 - tau) >= 0.0;
  }

  /** Within [0, 100] % cover, more cloud never transmits more. */
  lemma TransmissionAntitone(c1: real, c2: real, key: string)
    requires 0.0 <= c1 <= c2 <= 100.0
    ensures TransmissionUnrounded(c2, key) <= TransmissionUnrounded(c1, key)
    ensures CloudToTransmissionByKey(c2, key) <= CloudToTransmissionByKey(c1, key)
  {
    CoverShareAntitone(c1, c2, Tau(key));
    RoundHalfEvenMonotone(TransmissionUnrounded(c2, key) * OneDecimal, TransmissionUnrounded(c1, key) * OneDecimal);
  }

  /** A full overcast of a given type transmits 100·tau %. */
  lemma FullCoverTransmitsTau(key: string)
    ensures TransmissionUnrounded(100.0, key) == 100.0 * Tau(key)
  {
  }
}
