/**
 * Monthly production factors learnt online (ai/ai_seasonal.py): each month
 * starts from a default factor and moves toward the observed ratio of actual
 * to predicted production by an exponential moving average.
 *
 * Loading and saving the factors as JSON is not part of this model.
 */
module SeasonalAdjusting {
  import opened Common

  /** DEFAULT_FACTORS. */
  function DefaultFactor(month: int): (f: real)
    requires 1 <= month <= 12
    ensures 0.85 <= f <= 1.10
  {
    match month
    case 1 => 0.85
    case 2 => 0.90
    case 3 => 0.95
    case 4 => 1.00
    case 5 => 1.05
    case 6 => 1.10
    case 7 => 1.10
    case 8 => 1.05
    case 9 => 1.00
    case 10 => 0.95
    case 11 => 0.90
    case _ => 0.85
  }

  predicate ValidMonth(month: int)
  {
    1 <= month <= 12
  }

  /** The bounds every learnt factor keeps. */
  const MinFactor: real := 0.5
  const MaxFactor: real := 1.5

  /** The observed ratio, clamped to [0.5, 1.5]. */
  function ClampedRatio(actual: real, predicted: real): (r: real)
    requires predicted > 0.0
    ensures MinFactor <= r <= MaxFactor
    ensures MinFactor <= actual / predicted <= MaxFactor ==> r == actual / predicted
  {
    Max(0.5, Min(1.5, actual / predicted))
  }

  /** The smoothing weight: 0.1 for the first ten samples of a month, 0.05 after. */
  function Alpha(count: nat): (a: real)
    ensures a == 0.1 || a == 0.05
    ensures count < 10 <==> a == 0.1
  {
    if count < 10 then 0.1 else 0.05
  }

  /** The factor after one accepted observation. */
  function NextFactor(current: real, count: nat, actual: real, predicted: real): real
    requires predicted > 0.0
  {
    var alpha := Alpha(count);
    current * (1.0 - alpha) + ClampedRatio(actual, predicted) * alpha
  }

  /**
   * The new factor is a convex mix of the old factor and the clamped ratio:
   * it lies between them, so a factor within [0.5, 1.5] stays within it.
   */
  lemma NextFactorIsConvexMix(current: real, count: nat, actual: real, predicted: real)
    requires predicted > 0.0
    ensures var f := NextFactor(current, count, actual, predicted);
      var r := ClampedRatio(actual, predicted);
      Min(current, r) <= f <= Max(current, r)
    ensures MinFactor <= current <= MaxFactor ==> MinFactor <= NextFactor(current, count, actual, predicted) <= MaxFactor
  {
    var alpha := Alpha(count);
    var r := ClampedRatio(actual, predicted);
    var f := current * (1.0 - alpha) + r * alpha;
    assert f == current + alpha * (r - current);
    if current <= r {
      assert alpha * (r - current) <= r - current;
    } else {
      assert alpha * (current - r) <= current - r;
    }
  }

  /** The update moves the factor toward the ratio: never past it, and by alpha of the gap. */
  lemma NextFactorApproachesRatio(current: real, count: nat, actual: real, predicted: real)
    requires predicted > 0.0
    ensures var r := ClampedRatio(actual, predicted);
      NextFactor(current, count, actual, predicted) - r == (1.0 - Alpha(count)) * (current - r)
  {
  }

  /** Whether `update` accepts an observation. */
  predicate Accepted(month: int, actual: real, predicted: real)
  {
    ValidMonth(month) && predicted > 0.0 && actual >= 0.0
  }

  /** The adjuster with its two per-month tables. */
  class SeasonalAdjuster {
    var factors: map<int, real>
    var sampleCounts: map<int, nat>

    /** Every month has a factor within [0.5, 1.5] and a sample count. */
    ghost predicate Valid()
      reads this
    {
      forall m :: ValidMonth(m) ==> m in factors && m in sampleCounts && MinFactor <= factors[m] <= MaxFactor
    }

    constructor ()
      ensures Valid()
      ensures forall m :: ValidMonth(m) ==> factors[m] == DefaultFactor(m) && sampleCounts[m] == 0
    {
      factors := map m | 1 <= m <= 12 :: DefaultFactor(m);
      sampleCounts := map[1 := 0, 2 := 0, 3 := 0, 4 := 0, 5 := 0, 6 := 0, 7 := 0, 8 := 0, 9 := 0, 10 := 0, 11 := 0, 12 := 0];
    }

    /** `get_factor`: 1.0 for a month outside 1..12. */
    method GetFactor(month: int) returns (f: real)
      requires Valid()
      ensures !ValidMonth(month) ==> f == 1.0
      ensures ValidMonth(month) ==> f == factors[month] && MinFactor <= f <= MaxFactor
    {
      if month < 1 || month > 12 {
        return 1.0;
      }
      f := if month in factors then factors[month] else 1.0;
    }

    /**
     * `update`: an invalid month, a non-positive prediction or a negative
     * actual value changes nothing; otherwise only that month's factor and
     * count change.
     */
    method Update(month: int, actual: real, predicted: real)
      requires Valid()
      modifies this
      ensures Valid()
      ensures !Accepted(month, actual, predicted) ==> factors == old(factors) && sampleCounts == old(sampleCounts)
      ensures Accepted(month, actual, predicted) ==>
        && factors == old(factors)[month := NextFactor(old(factors)[month], old(sampleCounts)[month], actual, predicted)]
        && sampleCounts == old(sampleCounts)[month := old(sampleCounts)[month] + 1]
    {
      if month < 1 || month > 12 {
        return;
      }
      if predicted <= 0.0 || actual < 0.0 {
        return;
      }
      var ratio := Max(0.5, Min(1.5, actual / predicted));
      var count := if month in sampleCounts then sampleCounts[month] else 0;
      var current := if month in factors then factors[month] else 1.0;
      var alpha := if count < 10 then 0.1 else 0.05;
      NextFactorIsConvexMix(current, count, actual, predicted);
      factors := factors[month := current * (1.0 - alpha) + ratio * alpha];
      sampleCounts := sampleCounts[month := count + 1];
    }
  }
}
