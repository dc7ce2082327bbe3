/**
 * The update coordinator's helper functions (core/core_coordinator_helpers.py):
 * when to update next, when to force an update, the shape check of the
 * coordinator's data, the merge of a new forecast into the old data, how
 * stale the data is, and the summary of one round of component updates.
 *
 * Instants are seconds on one clock and `now` is a parameter; Python reads
 * the clock afresh on each use, which the model does not distinguish.
 */
module CoordinatorHelpers {
  import opened Common

  // ---------------------------------------------------------------------
  // calculate_next_update_time
  // ---------------------------------------------------------------------

  /**
   * The next update is the interval after the last one, but never in the
   * past; without a last update it is now.
   */
  function NextUpdateTime(lastUpdate: Option<real>, intervalMinutes: int, now: real): (next: real)
    ensures next >= now
    ensures lastUpdate.None? ==> next == now
    ensures lastUpdate.Some? && lastUpdate.value + intervalMinutes as real * 60.0 >= now ==>
      next == lastUpdate.value + intervalMinutes as real * 60.0
    ensures lastUpdate.Some? && lastUpdate.value + intervalMinutes as real * 60.0 < now ==> next == now
  {
    if lastUpdate.None? then now
    else
      var nextUpdate := lastUpdate.value + intervalMinutes as real * 60.0;
      if nextUpdate < now then now else nextUpdate
  }

  /** A later clock never schedules the next update earlier. */
  lemma NextUpdateTimeMonotone(lastUpdate: Option<real>, intervalMinutes: int, now1: real, now2: real)
    requires now1 <= now2
    ensures NextUpdateTime(lastUpdate, intervalMinutes, now1) <= NextUpdateTime(lastUpdate, intervalMinutes, now2)
  {
  }

  // ---------------------------------------------------------------------
  // should_force_update
  // ---------------------------------------------------------------------

  /** Force an update without a last update, or once the data is older than `maxAgeHours`. */
  function ShouldForceUpdate(lastUpdate: Option<real>, maxAgeHours: int, now: real): (force: bool)
    ensures lastUpdate.None? ==> force
    ensures lastUpdate.Some? ==> (force <==> now - lastUpdate.value > maxAgeHours as real * 3600.0)
  {
    lastUpdate.None? || now - lastUpdate.value > maxAgeHours as real * 3600.0
  }

  /** Once forced, an update stays forced as the clock advances or the allowed age shrinks. */
  lemma ForceUpdateStaysForced(lastUpdate: Option<real>, maxAge1: int, maxAge2: int, now1: real, now2: real)
    requires now1 <= now2 && maxAge2 <= maxAge1
    requires ShouldForceUpdate(lastUpdate, maxAge1, now1)
    ensures ShouldForceUpdate(lastUpdate, maxAge2, now2)
  {
  }

  // ---------------------------------------------------------------------
  // validate_coordinator_data
  // ---------------------------------------------------------------------

  /** The keys the coordinator's data must have, in the order they are checked. */
  const RequiredKeys: seq<string> := ["last_update", "forecasts"]

  /** `validate_coordinator_data`: false at the first required key that is missing. */
  method ValidateCoordinatorData(data: map<string, Value>) returns (ok: bool)
    ensures ok <==> "last_update" in data && "forecasts" in data
  {
    var i := 0;
    while i < |RequiredKeys|
      invariant 0 <= i <= |RequiredKeys|
      invariant forall j :: 0 <= j < i ==> RequiredKeys[j] in data
    {
      if RequiredKeys[i] !in data {
        return false;
      }
      i := i + 1;
    }
    assert RequiredKeys[0] in data && RequiredKeys[1] in data;
    return true;
  }

  // ---------------------------------------------------------------------
  // merge_forecast_data
  // ---------------------------------------------------------------------

  /**
   * `merge_forecast_data` on values: the new data's keys overwrite the old
   * ones, except that an old `forecasts` dictionary is updated with the new
   * one's entries; `last_update` becomes the current time as ISO text. None
   * where Python's `update` fails because one of the two forecasts is not a
   * dictionary.
   */
  function MergeForecastData(oldData: map<string, Value>, newData: map<string, Value>, nowIso: string): (r: Option<map<string, Value>>)
    ensures r.None? <==> "forecasts" in oldData && "forecasts" in newData
                         && !(oldData["forecasts"].Dict? && newData["forecasts"].Dict?)
  {
    var merged := oldData + newData;
    if "forecasts" in oldData && "forecasts" in newData then
      if oldData["forecasts"].Dict? && newData["forecasts"].Dict? then
        var forecasts := Dict(oldData["forecasts"].entries + newData["forecasts"].entries);
        Some(merged["forecasts" := forecasts]["last_update" := Str(nowIso)])
      else None
    else Some(merged["last_update" := Str(nowIso)])
  }

  /**
   * A successful merge keeps every old key, takes every new one, stamps the
   * time, and keeps every old forecast entry that the new forecasts do not
   * replace.
   */
  lemma MergeKeepsAndOverwrites(oldData: map<string, Value>, newData: map<string, Value>, nowIso: string)
    requires MergeForecastData(oldData, newData, nowIso).Some?
    ensures var m := MergeForecastData(oldData, newData, nowIso).value;
      && m.Keys == oldData.Keys + newData.Keys + {"last_update"}
      && m["last_update"] == Str(nowIso)
      && (forall k :: k in newData && k != "forecasts" && k != "last_update" ==> m[k] == newData[k])
      && (forall k :: k in oldData && k !in newData && k != "last_update" ==> m[k] == oldData[k])
      && ("forecasts" in oldData && "forecasts" in newData ==>
            m["forecasts"].Dict?
            && m["forecasts"].entries.Keys == oldData["forecasts"].entries.Keys + newData["forecasts"].entries.Keys
            && (forall f :: f in newData["forecasts"].entries ==> m["forecasts"].entries[f] == newData["forecasts"].entries[f])
            && (forall f :: f in oldData["forecasts"].entries && f !in newData["forecasts"].entries ==>
                  m["forecasts"].entries[f] == oldData["forecasts"].entries[f]))
  {
  }

  // ---------------------------------------------------------------------
  // calculate_data_staleness
  // ---------------------------------------------------------------------

  datatype Status = NoData | Fresh | Acceptable | Stale | VeryStale

  /** `age_human` before formatting: the unit and the truncated count. */
  datatype AgeText = NeverUpdated | SecondsAgo(n: int) | MinutesAgo(n: int) | HoursAgo(n: int) | DaysAgo(n: int)

  datatype Staleness = Staleness(stale: bool, ageSeconds: Option<real>, ageHuman: AgeText, status: Status)

  /** The thresholds, in seconds, between fresh, acceptable, stale and very stale. */
  const FreshSeconds: real := 900.0
  const AcceptableSeconds: real := 3600.0
  const StaleSeconds: real := 21600.0

  /** How the status ranks: later ranks mean older data. */
  function Rank(s: Status): nat
  {
    match s
    case Fresh => 0
    case Acceptable => 1
    case Stale => 2
    case VeryStale => 3
    case NoData => 4
  }

  /** The age in the largest unit that fits, truncated as `int()` does. */
  function AgeHuman(ageSeconds: real): (t: AgeText)
    ensures 0.0 <= ageSeconds < 60.0 ==> t.SecondsAgo? && t.n as real <= ageSeconds < t.n as real + 1.0
    ensures 60.0 <= ageSeconds < 3600.0 ==> t.MinutesAgo? && 1 <= t.n < 60 && t.n as real * 60.0 <= ageSeconds < (t.n + 1) as real * 60.0
    ensures 3600.0 <= ageSeconds < 86400.0 ==> t.HoursAgo? && 1 <= t.n < 24 && t.n as real * 3600.0 <= ageSeconds < (t.n + 1) as real * 3600.0
    ensures 86400.0 <= ageSeconds ==> t.DaysAgo? && t.n >= 1 && t.n as real * 86400.0 <= ageSeconds < (t.n + 1) as real * 86400.0
  {
    if ageSeconds < 60.0 then SecondsAgo(Trunc(ageSeconds))
    else if ageSeconds < 3600.0 then MinutesAgo(Trunc(ageSeconds / 60.0))
    else if ageSeconds < 86400.0 then HoursAgo(Trunc(ageSeconds / 3600.0))
    else DaysAgo(Trunc(ageSeconds / 86400.0))
  }

  /** `calculate_data_staleness` at clock reading `now`. */
  function DataStaleness(lastUpdate: Option<real>, now: real): (r: Staleness)
    ensures lastUpdate.None? ==> r == Staleness(true, None, NeverUpdated, NoData)
    ensures lastUpdate.Some? ==> r.ageSeconds == Some(now - lastUpdate.value) && r.ageHuman == AgeHuman(now - lastUpdate.value)
    ensures lastUpdate.Some? ==> (r.stale <==> now - lastUpdate.value >= AcceptableSeconds)
    ensures lastUpdate.Some? ==>
      && (r.status == Fresh <==> now - lastUpdate.value < FreshSeconds)
      && (r.status == Acceptable <==> FreshSeconds <= now - lastUpdate.value < AcceptableSeconds)
      && (r.status == Stale <==> AcceptableSeconds <= now - lastUpdate.value < StaleSeconds)
      && (r.status == VeryStale <==> StaleSeconds <= now - lastUpdate.value)
  {
    if lastUpdate.None? then Staleness(true, None, NeverUpdated, NoData)
    else
      var age := now - lastUpdate.value;
      var (status, stale) :=
        if age < FreshSeconds then (Fresh, false)
        else if age < AcceptableSeconds then (Acceptable, false)
        else if age < StaleSeconds then (Stale, true)
        else (VeryStale, true);
      Staleness(stale, Some(age), AgeHuman(age), status)
  }

  /** Data that is stale by its flag is exactly data whose status is stale, very stale or absent. */
  lemma StaleFlagMatchesStatus(lastUpdate: Option<real>, now: real)
    ensures DataStaleness(lastUpdate, now).stale <==> Rank(DataStaleness(lastUpdate, now).status) >= 2
  {
  }

  /** As the clock advances, the status never becomes fresher. */
  lemma StalenessMonotone(lastUpdate: Option<real>, now1: real, now2: real)
    requires now1 <= now2
    ensures Rank(DataStaleness(lastUpdate, now1).status) <= Rank(DataStaleness(lastUpdate, now2).status)
    ensures DataStaleness(lastUpdate, now1).stale ==> DataStaleness(lastUpdate, now2).stale
  {
  }

  // ---------------------------------------------------------------------
  // format_update_summary
  // ---------------------------------------------------------------------

  /** The summary sentence's three forms. */
  datatype Summary = AllSucceeded(total: nat) | AllFailed(total: nat) | Partial(successful: nat, total: nat)

  /** The components that updated successfully. */
  function Succeeded(results: map<string, bool>): (s: set<string>)
    ensures s <= results.Keys
    ensures forall k :: k in s <==> k in results && results[k]
  {
    set k | k in results && results[k]
  }

  /** The components that failed. */
  function Failed(results: map<string, bool>): (s: set<string>)
    ensures s <= results.Keys
    ensures forall k :: k in s <==> k in results && !results[k]
  {
    set k | k in results && !results[k]
  }

  /** Every component either succeeded or failed, so the two counts add up to the total. */
  lemma CountsAddUp(results: map<string, bool>)
    ensures |Succeeded(results)| + |Failed(results)| == |results|
  {
    var s := Succeeded(results);
    var f := Failed(results);
    assert s + f == results.Keys;
    assert s * f == {};
  }

  /**
   * `format_update_summary`: all successful when nothing failed (so also
   * for no components at all), all failed when nothing succeeded, otherwise
   * the successful count out of the total.
   */
  function FormatUpdateSummary(results: map<string, bool>): (r: Summary)
    ensures r.AllSucceeded? <==> forall k :: k in results ==> results[k]
    ensures r.AllFailed? <==> results != map[] && forall k :: k in results ==> !results[k]
    ensures r.total == |results|
    ensures r.Partial? ==> 0 < r.successful < r.total && r.successful == |Succeeded(results)|
  {
    var total := |results|;
    var successful := |Succeeded(results)|;
    CountsAddUp(results);
    var failed := total - successful;
    if failed == 0 then
      assert Failed(results) == {};
      AllSucceeded(total)
    else if successful == 0 then
      assert Succeeded(results) == {};
      AllFailed(total)
    else
      Partial(successful, total)
  }
}
