/**
 * The list logic of the integration's data manager (data/manager.py): the
 * two clean-ups of the hourly samples file and the check they run before
 * saving, appending a sample or a prediction record, merging a newly fetched
 * weather forecast into the cached one, and the forecast's coverage check.
 *
 * Samples, records and forecast hours are the JSON dictionaries the files
 * hold (`map<string, Value>`). The files themselves, their lock, the backup
 * taken before a clean-up and the clock are not part of this model: the
 * stored lists are fields of `DataStore`, and times and dates come in as
 * parameters, as do the parsers Python borrows from its runtime.
 */
module DataManagement {
  import opened Common
  import opened MlTypes

  type Dict = map<string, Value>

  /** `d.get(key)`. */
  function Get(d: Dict, key: string): (r: Option<Value>)
    ensures r.Some? <==> key in d
    ensures r.Some? ==> r.value == d[key]
  {
    if key in d then Some(d[key]) else None
  }

  /** Python's truth value of a JSON value. */
  predicate Truthy(v: Value)
  {
    match v
    case Null => false
    case Bool(b) => b
    case Int(i) => i != 0
    case Float(f) => f != 0.0
    case Str(s) => s != ""
    case Dict(entries) => entries != map[]
    case List(items) => items != []
  }

  /** Python can hash every JSON value except a list or a dictionary. */
  predicate Hashable(v: Value)
  {
    !v.List? && !v.Dict?
  }

  /** `sample.get('timestamp')` can go into a set: absent, or a hashable value. */
  predicate HashableStamp(s: Dict)
  {
    "timestamp" !in s || Hashable(s["timestamp"])
  }

  /** The keys every hourly sample must carry. */
  predicate HasSampleKeys(s: Dict)
  {
    "timestamp" in s && "actual_kwh" in s && "weather_data" in s && "sensor_data" in s
  }

  // ---------------------------------------------------------------------
  // cleanup_duplicate_samples
  // ---------------------------------------------------------------------

  /** `if ts` on `sample.get('timestamp')`. */
  predicate HasTruthyTimestamp(s: Dict)
  {
    "timestamp" in s && Truthy(s["timestamp"])
  }

  /** The truthy timestamps that occur in a list of samples. */
  function TruthyStamps(samples: seq<Dict>): (r: set<Value>)
    ensures forall v :: v in r ==> Truthy(v)
  {
    if samples == [] then {}
    else
      var k := |samples| - 1;
      TruthyStamps(samples[..k]) + if HasTruthyTimestamp(samples[k]) then {samples[k]["timestamp"]} else {}
  }

  /** A value is one of the truthy timestamps exactly when some sample carries it. */
  lemma {:induction false} TruthyStampsMembers(samples: seq<Dict>, v: Value)
    ensures v in TruthyStamps(samples) <==>
      exists i :: 0 <= i < |samples| && HasTruthyTimestamp(samples[i]) && samples[i]["timestamp"] == v
  {
    if samples != [] {
      var k := |samples| - 1;
      TruthyStampsMembers(samples[..k], v);
      if v in TruthyStamps(samples[..k]) {
        var i :| 0 <= i < k && HasTruthyTimestamp(samples[..k][i]) && samples[..k][i]["timestamp"] == v;
        assert samples[i] == samples[..k][i];
      }
      if exists i :: 0 <= i < |samples| && HasTruthyTimestamp(samples[i]) && samples[i]["timestamp"] == v {
        var i :| 0 <= i < |samples| && HasTruthyTimestamp(samples[i]) && samples[i]["timestamp"] == v;
        if i < k {
          assert samples[..k][i] == samples[i];
        }
      }
    }
  }

  /**
   * The samples the duplicate clean-up keeps: a sample stays exactly when it
   * has a truthy timestamp that no earlier sample had; every other sample,
   * one without a timestamp included, is counted as a duplicate.
   */
  function KeptFirst(samples: seq<Dict>): seq<Dict>
  {
    if samples == [] then []
    else
      var k := |samples| - 1;
      KeptFirst(samples[..k])
      + if HasTruthyTimestamp(samples[k]) && samples[k]["timestamp"] !in TruthyStamps(samples[..k]) then [samples[k]] else []
  }

  /** What the clean-up keeps are samples of the input, each with a truthy timestamp. */
  lemma {:induction false} KeptFirstFromInput(samples: seq<Dict>)
    ensures forall x :: x in KeptFirst(samples) ==> x in samples && HasTruthyTimestamp(x)
  {
    if samples != [] {
      var k := |samples| - 1;
      KeptFirstFromInput(samples[..k]);
      assert samples == samples[..k] + [samples[k]];
    }
  }

  /** Every truthy timestamp of the input is kept, once: one sample per distinct timestamp remains. */
  lemma {:induction false} KeptFirstStamps(samples: seq<Dict>)
    ensures TruthyStamps(KeptFirst(samples)) == TruthyStamps(samples)
    ensures |KeptFirst(samples)| == |TruthyStamps(samples)|
  {
    if samples != [] {
      var k := |samples| - 1;
      var kept := KeptFirst(samples[..k]);
      KeptFirstStamps(samples[..k]);
      if HasTruthyTimestamp(samples[k]) && samples[k]["timestamp"] !in TruthyStamps(samples[..k]) {
        var out := kept + [samples[k]];
        assert KeptFirst(samples) == out;
        assert out[..|kept|] == kept;
        assert TruthyStamps(out) == TruthyStamps(kept) + {samples[k]["timestamp"]};
        assert TruthyStamps(samples) == TruthyStamps(samples[..k]) + {samples[k]["timestamp"]};
      } else {
        assert KeptFirst(samples) == kept;
        assert TruthyStamps(samples) == TruthyStamps(samples[..k]);
      }
    }
  }

  /** No two samples of a list share a timestamp. */
  predicate DistinctStamps(xs: seq<Dict>)
  {
    forall i, j :: 0 <= i < j < |xs| ==> Get(xs[i], "timestamp") != Get(xs[j], "timestamp")
  }

  /** Appending a sample whose truthy timestamp is new keeps the timestamps distinct. */
  lemma DistinctStampsSnoc(kept: seq<Dict>, s: Dict)
    requires DistinctStamps(kept)
    requires forall x :: x in kept ==> HasTruthyTimestamp(x)
    requires HasTruthyTimestamp(s) && s["timestamp"] !in TruthyStamps(kept)
    ensures DistinctStamps(kept + [s])
  {
    var out := kept + [s];
    forall i, j | 0 <= i < j < |out|
      ensures Get(out[i], "timestamp") != Get(out[j], "timestamp")
    {
      if j == |kept| {
        assert out[i] == kept[i] && kept[i] in kept;
        TruthyStampsMembers(kept, kept[i]["timestamp"]);
      } else {
        assert out[i] == kept[i] && out[j] == kept[j];
      }
    }
  }

  /** No two kept samples share a timestamp. */
  lemma {:induction false} KeptFirstDistinct(samples: seq<Dict>)
    ensures DistinctStamps(KeptFirst(samples))
  {
    if samples != [] {
      var k := |samples| - 1;
      var s := samples[k];
      var kept := KeptFirst(samples[..k]);
      KeptFirstDistinct(samples[..k]);
      if HasTruthyTimestamp(s) && s["timestamp"] !in TruthyStamps(samples[..k]) {
        KeptFirstFromInput(samples[..k]);
        KeptFirstStamps(samples[..k]);
        DistinctStampsSnoc(kept, s);
        assert KeptFirst(samples) == kept + [s];
      } else {
        assert KeptFirst(samples) == kept;
      }
    }
  }

  /**
   * The duplicate clean-up's loop reaches `ts not in seen_timestamps` for
   * every truthy timestamp; a list or dictionary there raises TypeError.
   */
  predicate DedupHashable(samples: seq<Dict>)
  {
    forall i :: 0 <= i < |samples| ==> !HasTruthyTimestamp(samples[i]) || Hashable(samples[i]["timestamp"])
  }

  /**
   * The duplicate clean-up's loop: the first sample of each truthy timestamp
   * is kept, in order, and every sample dropped is counted, so the removed
   * and remaining counts add up to the original number. A truthy timestamp
   * that cannot be hashed makes the loop fail.
   */
  method DeduplicateSamples(samples: seq<Dict>) returns (cleaned: seq<Dict>, removed: nat, failed: bool)
    ensures failed <==> !DedupHashable(samples)
    ensures !failed ==> cleaned == KeptFirst(samples) && removed + |cleaned| == |samples|
  {
    var seen: set<Value> := {};
    cleaned := [];
    removed := 0;
    failed := false;
    var i := 0;
    while i < |samples|
      invariant 0 <= i <= |samples|
      invariant DedupHashable(samples[..i])
      invariant seen == TruthyStamps(samples[..i])
      invariant cleaned == KeptFirst(samples[..i])
      invariant removed + |cleaned| == i
    {
      var sample := samples[i];
      assert samples[..i + 1][..i] == samples[..i];
      var ts := Get(sample, "timestamp");
      if ts.Some? && Truthy(ts.value) && !Hashable(ts.value) {
        return cleaned, removed, true;
      }
      if ts.Some? && Truthy(ts.value) && ts.value !in seen {
        seen := seen + {ts.value};
        cleaned := cleaned + [sample];
      } else {
        removed := removed + 1;
      }
      assert samples[..i + 1] == samples[..i] + [sample];
      i := i + 1;
    }
    assert samples[..i] == samples;
  }

  // ---------------------------------------------------------------------
  // cleanup_zero_production_samples
  // ---------------------------------------------------------------------

  /** Python's `float(v)`; None where it raises. Strings go through the runtime's parser. */
  function FloatOf(v: Value, parse: string -> Option<real>): (r: Option<real>)
    ensures IsNumber(v) ==> r == Some(NumberOf(v))
    ensures v.Null? || v.Dict? || v.List? ==> r.None?
  {
    match v
    case Bool(b) => Some(if b then 1.0 else 0.0)
    case Int(i) => Some(i as real)
    case Float(f) => Some(f)
    case Str(s) => parse(s)
    case _ => None
  }

  /** The energy below which a sample counts as zero production, in kWh. */
  const ZeroProductionKwh: real := 0.01

  /**
   * A sample survives the zero-production clean-up when its `actual_kwh`
   * (0.0 when absent) converts to more than 0.01 kWh, or does not convert.
   */
  predicate KeepsProduction(s: Dict, parse: string -> Option<real>)
  {
    var kwh := FloatOf(if "actual_kwh" in s then s["actual_kwh"] else Float(0.0), parse);
    kwh.None? || kwh.value > ZeroProductionKwh
  }

  /** The samples the zero-production clean-up keeps, in their order. */
  function ProducingSamples(samples: seq<Dict>, parse: string -> Option<real>): seq<Dict>
  {
    if samples == [] then []
    else
      var k := |samples| - 1;
      ProducingSamples(samples[..k], parse) + if KeepsProduction(samples[k], parse) then [samples[k]] else []
  }

  /** A sample remains exactly when it was there and produced, or its value did not convert. */
  lemma {:induction false} ProducingSamplesMembers(samples: seq<Dict>, parse: string -> Option<real>, x: Dict)
    ensures x in ProducingSamples(samples, parse) <==> x in samples && KeepsProduction(x, parse)
  {
    if samples != [] {
      var k := |samples| - 1;
      ProducingSamplesMembers(samples[..k], parse, x);
      assert samples == samples[..k] + [samples[k]];
    }
  }

  /** A sample without `actual_kwh`, or with a number of at most 0.01, is removed. */
  lemma MissingOrSmallValueRemoved(samples: seq<Dict>, parse: string -> Option<real>, x: Dict)
    requires "actual_kwh" !in x || (IsNumber(x["actual_kwh"]) && NumberOf(x["actual_kwh"]) <= ZeroProductionKwh)
    ensures x !in ProducingSamples(samples, parse)
  {
    ProducingSamplesMembers(samples, parse, x);
  }

  /** Cleaning a second time removes nothing more. */
  lemma {:induction false} ProducingSamplesIdempotent(samples: seq<Dict>, parse: string -> Option<real>)
    ensures ProducingSamples(ProducingSamples(samples, parse), parse) == ProducingSamples(samples, parse)
  {
    if samples != [] {
      var k := |samples| - 1;
      var p := ProducingSamples(samples[..k], parse);
      ProducingSamplesIdempotent(samples[..k], parse);
      if KeepsProduction(samples[k], parse) {
        var q := p + [samples[k]];
        assert ProducingSamples(samples, parse) == q;
        assert q[..|q| - 1] == p && q[|q| - 1] == samples[k];
        assert ProducingSamples(q, parse) == ProducingSamples(p, parse) + [samples[k]];
      } else {
        assert ProducingSamples(samples, parse) == p;
      }
    }
  }

  /** The zero-production clean-up's loop; removed and remaining add up to the original count. */
  method RemoveZeroProduction(samples: seq<Dict>, parse: string -> Option<real>) returns (cleaned: seq<Dict>, removed: nat)
    ensures cleaned == ProducingSamples(samples, parse)
    ensures removed + |cleaned| == |samples|
  {
    cleaned := [];
    removed := 0;
    var i := 0;
    while i < |samples|
      invariant 0 <= i <= |samples|
      invariant cleaned == ProducingSamples(samples[..i], parse)
      invariant removed + |cleaned| == i
    {
      var sample := samples[i];
      assert samples[..i + 1][..i] == samples[..i];
      var kwh := FloatOf(if "actual_kwh" in sample then sample["actual_kwh"] else Float(0.0), parse);
      if kwh.None? || kwh.value > ZeroProductionKwh {
        cleaned := cleaned + [sample];
      } else {
        removed := removed + 1;
      }
      i := i + 1;
    }
    assert samples[..i] == samples;
  }

  // ---------------------------------------------------------------------
  // _validate_cleaned_samples
  // ---------------------------------------------------------------------

  /** `[s.get('timestamp') for s in samples]`. */
  function StampList(samples: seq<Dict>): (r: seq<Option<Value>>)
    ensures |r| == |samples|
    ensures forall i :: 0 <= i < |samples| ==> r[i] == Get(samples[i], "timestamp")
  {
    if samples == [] then [] else StampList(samples[..|samples| - 1]) + [Get(samples[|samples| - 1], "timestamp")]
  }

  /** `set(xs)`. */
  function ElementsOf(xs: seq<Option<Value>>): set<Option<Value>>
  {
    if xs == [] then {} else ElementsOf(xs[..|xs| - 1]) + {xs[|xs| - 1]}
  }

  predicate Distinct(xs: seq<Option<Value>>)
  {
    forall i, j :: 0 <= i < j < |xs| ==> xs[i] != xs[j]
  }

  lemma {:induction false} ElementsOfMembers(xs: seq<Option<Value>>, x: Option<Value>)
    ensures x in ElementsOf(xs) <==> x in xs
  {
    if xs != [] {
      ElementsOfMembers(xs[..|xs| - 1], x);
      assert xs == xs[..|xs| - 1] + [xs[|xs| - 1]];
    }
  }

  /** A list is as long as its set exactly when no element repeats; never shorter. */
  lemma {:induction false} LengthMatchesSetIffDistinct(xs: seq<Option<Value>>)
    ensures |ElementsOf(xs)| <= |xs|
    ensures |ElementsOf(xs)| == |xs| <==> Distinct(xs)
  {
    if xs != [] {
      var k := |xs| - 1;
      var init := xs[..k];
      var x := xs[k];
      LengthMatchesSetIffDistinct(init);
      ElementsOfMembers(init, x);
      if x in ElementsOf(init) {
        var j :| 0 <= j < k && init[j] == x;
        assert xs[j] == xs[k];
      } else {
        assert Distinct(xs) <==> Distinct(init) by {
          if Distinct(init) {
            forall i, j | 0 <= i < j < |xs|
              ensures xs[i] != xs[j]
            {
              if j == k {
                assert xs[i] == init[i];
              } else {
                assert xs[i] == init[i] && xs[j] == init[j];
              }
            }
          }
          if Distinct(xs) {
            forall i, j | 0 <= i < j < |init|
              ensures init[i] != init[j]
            {
              assert xs[i] == init[i] && xs[j] == init[j];
            }
          }
        }
      }
    }
  }

  /**
   * `_validate_cleaned_samples`: every sample has the four sample keys, and
   * the list of timestamps can be made a set (a list or dictionary raises,
   * which the validation turns into False) and is as long as that set.
   */
  function ValidateCleaned(samples: seq<Dict>): (ok: bool)
    ensures ok <==> (forall i :: 0 <= i < |samples| ==> HasSampleKeys(samples[i]))
                    && (forall i :: 0 <= i < |samples| ==> HashableStamp(samples[i]))
                    && (forall i, j :: 0 <= i < j < |samples| ==> Get(samples[i], "timestamp") != Get(samples[j], "timestamp"))
  {
    var stamps := StampList(samples);
    LengthMatchesSetIffDistinct(stamps);
    && (forall i :: 0 <= i < |samples| ==> HasSampleKeys(samples[i]))
    && (forall i :: 0 <= i < |samples| ==> HashableStamp(samples[i]))
    && |ElementsOf(stamps)| == |stamps|
  }

  /**
   * For samples with the keys, the duplicate clean-up's result validates
   * exactly when the clean-up's own loop does not raise: the validation
   * never refuses what the loop let through.
   */
  lemma DeduplicatedPassesValidation(samples: seq<Dict>)
    requires forall i :: 0 <= i < |samples| ==> HasSampleKeys(samples[i])
    ensures ValidateCleaned(KeptFirst(samples)) <==> DedupHashable(samples)
  {
    var kept := KeptFirst(samples);
    KeptFirstFromInput(samples);
    KeysCarryOver(kept, samples);
    KeptFirstDistinct(samples);
    if DedupHashable(samples) {
      KeptStampsHashable(samples);
    } else {
      KeptStampUnhashable(samples);
    }
  }

  /** Every sample the clean-up keeps came from the input, so its stamp stays hashable. */
  lemma KeptStampsHashable(samples: seq<Dict>)
    requires DedupHashable(samples)
    ensures forall j :: 0 <= j < |KeptFirst(samples)| ==> HashableStamp(KeptFirst(samples)[j])
  {
    var kept := KeptFirst(samples);
    KeptFirstFromInput(samples);
    forall j | 0 <= j < |kept|
      ensures HashableStamp(kept[j])
    {
      assert kept[j] in samples;
      var i :| 0 <= i < |samples| && samples[i] == kept[j];
    }
  }

  /** An unhashable truthy stamp in the input survives into the kept list. */
  lemma KeptStampUnhashable(samples: seq<Dict>)
    requires !DedupHashable(samples)
    ensures exists j :: 0 <= j < |KeptFirst(samples)| && !HashableStamp(KeptFirst(samples)[j])
  {
    var kept := KeptFirst(samples);
    var i :| 0 <= i < |samples| && HasTruthyTimestamp(samples[i]) && !Hashable(samples[i]["timestamp"]);
    var v := samples[i]["timestamp"];
    TruthyStampsMembers(samples, v);
    KeptFirstStamps(samples);
    TruthyStampsMembers(kept, v);
    var j :| 0 <= j < |kept| && HasTruthyTimestamp(kept[j]) && kept[j]["timestamp"] == v;
    assert !HashableStamp(kept[j]);
  }

  /** Samples drawn from a list whose samples all have the keys have them too. */
  lemma KeysCarryOver(xs: seq<Dict>, ys: seq<Dict>)
    requires forall x :: x in xs ==> x in ys
    requires forall i :: 0 <= i < |ys| ==> HasSampleKeys(ys[i])
    ensures forall i :: 0 <= i < |xs| ==> HasSampleKeys(xs[i])
  {
    forall i | 0 <= i < |xs|
      ensures HasSampleKeys(xs[i])
    {
      assert xs[i] in ys;
    }
  }

  // ---------------------------------------------------------------------
  // add_hourly_sample
  // ---------------------------------------------------------------------

  /** `any(s.get('timestamp') == timestamp for s in samples)`. */
  predicate HasTimestamp(samples: seq<Dict>, ts: Option<Value>)
  {
    exists i :: 0 <= i < |samples| && Get(samples[i], "timestamp") == ts
  }

  /**
   * A sample survives the 60-day pruning when its timestamp parses to a
   * local time no earlier than the cutoff; `localTime` stands for the
   * runtime's parsing and conversion (None where it fails or raises).
   */
  predicate IsRecent(s: Dict, cutoff: real, localTime: Value -> Option<real>)
  {
    "timestamp" in s && localTime(s["timestamp"]).Some? && localTime(s["timestamp"]).value >= cutoff
  }

  function RecentSamples(samples: seq<Dict>, cutoff: real, localTime: Value -> Option<real>): seq<Dict>
  {
    if samples == [] then []
    else
      var k := |samples| - 1;
      RecentSamples(samples[..k], cutoff, localTime) + if IsRecent(samples[k], cutoff, localTime) then [samples[k]] else []
  }

  lemma {:induction false} RecentSamplesMembers(samples: seq<Dict>, cutoff: real, localTime: Value -> Option<real>, x: Dict)
    ensures x in RecentSamples(samples, cutoff, localTime) <==> x in samples && IsRecent(x, cutoff, localTime)
  {
    if samples != [] {
      var k := |samples| - 1;
      RecentSamplesMembers(samples[..k], cutoff, localTime, x);
      assert samples == samples[..k] + [samples[k]];
    }
  }

  /** The pruning loop of `add_hourly_sample`. */
  method PruneOldSamples(samples: seq<Dict>, cutoff: real, localTime: Value -> Option<real>) returns (kept: seq<Dict>)
    ensures kept == RecentSamples(samples, cutoff, localTime)
    ensures forall x :: x in kept <==> x in samples && IsRecent(x, cutoff, localTime)
  {
    kept := [];
    var i := 0;
    while i < |samples|
      invariant 0 <= i <= |samples|
      invariant kept == RecentSamples(samples[..i], cutoff, localTime)
    {
      assert samples[..i + 1][..i] == samples[..i];
      var s := samples[i];
      if "timestamp" in s {
        var ts := localTime(s["timestamp"]);
        if ts.Some? && ts.value >= cutoff {
          kept := kept + [s];
        }
      }
      i := i + 1;
    }
    assert samples[..i] == samples;
    forall x
      ensures x in kept <==> x in samples && IsRecent(x, cutoff, localTime)
    {
      RecentSamplesMembers(samples, cutoff, localTime, x);
    }
  }

  /**
   * The samples list after `add_hourly_sample`: unchanged for an incomplete
   * sample or a timestamp already stored; otherwise the sample is appended
   * and the whole list pruned to the last 60 days.
   */
  function SamplesAfterAdd(samples: seq<Dict>, sample: Dict, cutoff: real, localTime: Value -> Option<real>): (r: seq<Dict>)
    ensures !HasSampleKeys(sample) || HasTimestamp(samples, Get(sample, "timestamp")) ==> r == samples
    ensures HasSampleKeys(sample) && !HasTimestamp(samples, Get(sample, "timestamp")) ==>
      forall x :: x in r <==> (x in samples || x == sample) && IsRecent(x, cutoff, localTime)
  {
    if !HasSampleKeys(sample) || HasTimestamp(samples, Get(sample, "timestamp")) then samples
    else
      var r := RecentSamples(samples + [sample], cutoff, localTime);
      assert forall x :: x in r <==> (x in samples || x == sample) && IsRecent(x, cutoff, localTime) by {
        forall x
          ensures x in r <==> (x in samples || x == sample) && IsRecent(x, cutoff, localTime)
        {
          RecentSamplesMembers(samples + [sample], cutoff, localTime, x);
        }
      }
      r
  }

  /** Adding a recent sample twice is the same as adding it once. */
  lemma AddSampleTwice(samples: seq<Dict>, sample: Dict, cutoff: real, localTime: Value -> Option<real>)
    requires HasSampleKeys(sample) && IsRecent(sample, cutoff, localTime)
    ensures var once := SamplesAfterAdd(samples, sample, cutoff, localTime);
      SamplesAfterAdd(once, sample, cutoff, localTime) == once
  {
    var once := SamplesAfterAdd(samples, sample, cutoff, localTime);
    if !HasTimestamp(samples, Get(sample, "timestamp")) {
      assert sample in once;
      var i :| 0 <= i < |once| && once[i] == sample;
      assert Get(once[i], "timestamp") == Get(sample, "timestamp");
    }
  }

  // ---------------------------------------------------------------------
  // add_prediction_record
  // ---------------------------------------------------------------------

  /** MAX_PREDICTION_HISTORY. */
  const MaxPredictionHistory: nat := 365

  /** The history after appending a record: at most 365 entries, the newest last. */
  function AppendBounded(history: seq<Dict>, record: Dict): (r: seq<Dict>)
    ensures |r| <= MaxPredictionHistory || |r| == |history| + 1
    ensures |r| > 0 && r[|r| - 1] == record
    ensures |history| < MaxPredictionHistory ==> r == history + [record]
  {
    var all := history + [record];
    if |all| > MaxPredictionHistory then all[|all| - MaxPredictionHistory..] else all
  }

  /** The last `n` entries of a list, or all of it. */
  function LastN(s: seq<Dict>, n: nat): (r: seq<Dict>)
    ensures |r| == if |s| <= n then |s| else n
  {
    if |s| <= n then s else s[|s| - n..]
  }

  /** Appending one record at a time to a history within the bound keeps exactly the newest 365 records. */
  function AppendAll(history: seq<Dict>, records: seq<Dict>): seq<Dict>
  {
    if records == [] then history
    else AppendBounded(AppendAll(history, records[..|records| - 1]), records[|records| - 1])
  }

  /** Appending to the newest 365 entries gives the newest 365 entries of the longer list. */
  lemma AppendBoundedLastN(p: seq<Dict>, x: Dict)
    ensures AppendBounded(LastN(p, MaxPredictionHistory), x) == LastN(p + [x], MaxPredictionHistory)
  {
    var n := MaxPredictionHistory;
    var all := p + [x];
    if |p| > n {
      assert LastN(p, n) + [x] == all[|all| - n - 1..];
      assert (LastN(p, n) + [x])[1..] == all[|all| - n..];
    }
  }

  lemma {:induction false} AppendAllKeepsNewest(history: seq<Dict>, records: seq<Dict>)
    requires |history| <= MaxPredictionHistory
    ensures AppendAll(history, records) == LastN(history + records, MaxPredictionHistory)
  {
    if records != [] {
      var k := |records| - 1;
      AppendAllKeepsNewest(history, records[..k]);
      assert history + records == (history + records[..k]) + [records[k]];
      AppendBoundedLastN(history + records[..k], records[k]);
    }
  }

  // ---------------------------------------------------------------------
  // _merge_and_deduplicate_forecast
  // ---------------------------------------------------------------------

  /** `entry.get("datetime")` when it is a non-empty string; other entries are dropped. */
  function MergeKey(e: Dict): Option<string>
  {
    if "datetime" in e && e["datetime"].Str? && e["datetime"].s != "" then Some(e["datetime"].s) else None
  }

  /** The sort key `x.get("datetime", "")`. */
  function DatetimeOf(e: Dict): string
  {
    if "datetime" in e && e["datetime"].Str? then e["datetime"].s else ""
  }

  /** Python's `<` on strings: lexicographic by code point, a prefix first. */
  predicate Before(a: string, b: string)
  {
    |b| > 0 && (|a| == 0 || a[0] < b[0] || (a[0] == b[0] && Before(a[1..], b[1..])))
  }

  lemma {:induction false} BeforeIrreflexive(a: string)
    ensures !Before(a, a)
  {
    if |a| > 0 {
      BeforeIrreflexive(a[1..]);
    }
  }

  lemma {:induction false} BeforeTransitive(a: string, b: string, c: string)
    requires Before(a, b) && Before(b, c)
    ensures Before(a, c)
  {
    if |a| > 0 && a[0] == b[0] && b[0] == c[0] {
      BeforeTransitive(a[1..], b[1..], c[1..]);
    }
  }

  lemma {:induction false} BeforeTotal(a: string, b: string)
    requires a != b
    ensures Before(a, b) || Before(b, a)
  {
    if |a| > 0 && |b| > 0 && a[0] == b[0] {
      assert a == [a[0]] + a[1..] && b == [b[0]] + b[1..];
      BeforeTotal(a[1..], b[1..]);
    }
  }

  /** The dictionary after `all_hours[dt_key] = entry` for each keyed entry, in order. */
  function Absorb(m: map<string, Dict>, entries: seq<Dict>): map<string, Dict>
  {
    if entries == [] then m
    else
      var k := |entries| - 1;
      var before := Absorb(m, entries[..k]);
      var key := MergeKey(entries[k]);
      if key.Some? then before[key.value := entries[k]] else before
  }

  /** The keys of a list of entries. */
  function KeysOf(entries: seq<Dict>): set<string>
  {
    if entries == [] then {}
    else
      var k := |entries| - 1;
      var key := MergeKey(entries[k]);
      KeysOf(entries[..k]) + if key.Some? then {key.value} else {}
  }

  /** Every entry of the dictionary is stored under its own datetime. */
  predicate KeyedByDatetime(m: map<string, Dict>)
  {
    forall k :: k in m ==> MergeKey(m[k]) == Some(k)
  }

  /**
   * Absorbing entries adds exactly their keys, stores each under its own
   * datetime, and leaves the entries of other keys as they were.
   */
  lemma {:induction false} AbsorbKeys(m: map<string, Dict>, entries: seq<Dict>)
    requires KeyedByDatetime(m)
    ensures Absorb(m, entries).Keys == m.Keys + KeysOf(entries)
    ensures KeyedByDatetime(Absorb(m, entries))
    ensures forall k :: k in m && k !in KeysOf(entries) ==> Absorb(m, entries)[k] == m[k]
  {
    if entries != [] {
      AbsorbKeys(m, entries[..|entries| - 1]);
    }
  }

  /** An entry is the one kept for its datetime when no later entry has the same datetime. */
  lemma {:induction false} AbsorbLastWins(m: map<string, Dict>, entries: seq<Dict>, j: int)
    requires 0 <= j < |entries| && MergeKey(entries[j]).Some?
    requires forall i :: j < i < |entries| ==> MergeKey(entries[i]) != MergeKey(entries[j])
    ensures MergeKey(entries[j]).value in Absorb(m, entries)
    ensures Absorb(m, entries)[MergeKey(entries[j]).value] == entries[j]
  {
    var k := |entries| - 1;
    if j < k {
      assert entries[..k][j] == entries[j];
      AbsorbLastWins(m, entries[..k], j);
    }
  }

  /** The forecast dictionary: the old hours first, then the new ones. */
  function MergedHours(oldHours: seq<Dict>, newHours: seq<Dict>): map<string, Dict>
  {
    Absorb(Absorb(map[], oldHours), newHours)
  }

  /**
   * The merged dictionary has the keys of both lists; for a datetime that
   * the new forecast has, its last new entry wins; the other datetimes keep
   * the last old entry.
   */
  lemma MergeNewOverwritesOld(oldHours: seq<Dict>, newHours: seq<Dict>)
    ensures MergedHours(oldHours, newHours).Keys == KeysOf(oldHours) + KeysOf(newHours)
    ensures KeyedByDatetime(MergedHours(oldHours, newHours))
    ensures forall j :: (0 <= j < |newHours| && MergeKey(newHours[j]).Some?
        && (forall i :: j < i < |newHours| ==> MergeKey(newHours[i]) != MergeKey(newHours[j]))) ==>
      MergeKey(newHours[j]).value in MergedHours(oldHours, newHours)
      && MergedHours(oldHours, newHours)[MergeKey(newHours[j]).value] == newHours[j]
    ensures forall j :: (0 <= j < |oldHours| && MergeKey(oldHours[j]).Some? && MergeKey(oldHours[j]).value !in KeysOf(newHours)
        && (forall i :: j < i < |oldHours| ==> MergeKey(oldHours[i]) != MergeKey(oldHours[j]))) ==>
      MergeKey(oldHours[j]).value in MergedHours(oldHours, newHours)
      && MergedHours(oldHours, newHours)[MergeKey(oldHours[j]).value] == oldHours[j]
  {
    var first := Absorb(map[], oldHours);
    AbsorbKeys(map[], oldHours);
    AbsorbKeys(first, newHours);
    forall j | 0 <= j < |newHours| && MergeKey(newHours[j]).Some?
        && (forall i :: j < i < |newHours| ==> MergeKey(newHours[i]) != MergeKey(newHours[j]))
      ensures MergeKey(newHours[j]).value in MergedHours(oldHours, newHours)
      ensures MergedHours(oldHours, newHours)[MergeKey(newHours[j]).value] == newHours[j]
    {
      AbsorbLastWins(first, newHours, j);
    }
    forall j | 0 <= j < |oldHours| && MergeKey(oldHours[j]).Some? && MergeKey(oldHours[j]).value !in KeysOf(newHours)
        && (forall i :: j < i < |oldHours| ==> MergeKey(oldHours[i]) != MergeKey(oldHours[j]))
      ensures MergeKey(oldHours[j]).value in MergedHours(oldHours, newHours)
      ensures MergedHours(oldHours, newHours)[MergeKey(oldHours[j]).value] == oldHours[j]
    {
      AbsorbLastWins(map[], oldHours, j);
    }
  }

  /** The two loops that fill `all_hours`. */
  method AbsorbEntries(m: map<string, Dict>, entries: seq<Dict>) returns (r: map<string, Dict>)
    ensures r == Absorb(m, entries)
  {
    r := m;
    var i := 0;
    while i < |entries|
      invariant 0 <= i <= |entries|
      invariant r == Absorb(m, entries[..i])
    {
      assert entries[..i + 1][..i] == entries[..i];
      var key := MergeKey(entries[i]);
      if key.Some? {
        r := r[key.value := entries[i]];
      }
      i := i + 1;
    }
    assert entries[..i] == entries;
  }

  /** Each entry's datetime comes before the next one's. */
  predicate Ascending(hours: seq<Dict>)
  {
    forall i :: 0 <= i < |hours| - 1 ==> Before(DatetimeOf(hours[i]), DatetimeOf(hours[i + 1]))
  }

  /** In an ascending list every earlier datetime comes before every later one, so none repeats. */
  lemma {:induction false} AscendingIsStrict(hours: seq<Dict>)
    requires Ascending(hours)
    ensures forall i, j :: 0 <= i < j < |hours| ==> Before(DatetimeOf(hours[i]), DatetimeOf(hours[j]))
    ensures forall i, j :: 0 <= i < j < |hours| ==> DatetimeOf(hours[i]) != DatetimeOf(hours[j])
  {
    if |hours| > 1 {
      var rest := hours[1..];
      assert Ascending(rest) by {
        forall i | 0 <= i < |rest| - 1
          ensures Before(DatetimeOf(rest[i]), DatetimeOf(rest[i + 1]))
        {
          assert rest[i] == hours[i + 1] && rest[i + 1] == hours[i + 2];
        }
      }
      AscendingIsStrict(rest);
      forall i, j | 0 <= i < j < |hours|
        ensures Before(DatetimeOf(hours[i]), DatetimeOf(hours[j]))
      {
        if i > 0 {
          assert hours[i] == rest[i - 1] && hours[j] == rest[j - 1];
        } else if j > 1 {
          assert hours[1] == rest[0] && hours[j] == rest[j - 1];
          BeforeTransitive(DatetimeOf(hours[0]), DatetimeOf(hours[1]), DatetimeOf(hours[j]));
        }
      }
      forall i, j | 0 <= i < j < |hours|
        ensures DatetimeOf(hours[i]) != DatetimeOf(hours[j])
      {
        BeforeIrreflexive(DatetimeOf(hours[i]));
      }
    }
  }

  /** One entry put into its place in an ascending list. */
  function Insert(hours: seq<Dict>, e: Dict): (r: seq<Dict>)
    ensures |r| == |hours| + 1
    ensures r[0] == e || (hours != [] && r[0] == hours[0])
  {
    if hours == [] then [e]
    else if Before(DatetimeOf(e), DatetimeOf(hours[0])) then [e] + hours
    else [hours[0]] + Insert(hours[1..], e)
  }

  lemma {:induction false} InsertAscending(hours: seq<Dict>, e: Dict)
    requires Ascending(hours)
    requires forall x :: x in hours ==> DatetimeOf(x) != DatetimeOf(e)
    ensures Ascending(Insert(hours, e))
  {
    if hours != [] && !Before(DatetimeOf(e), DatetimeOf(hours[0])) {
      var rest := hours[1..];
      assert hours[0] in hours;
      BeforeTotal(DatetimeOf(e), DatetimeOf(hours[0]));
      assert Ascending(rest) by {
        forall i | 0 <= i < |rest| - 1
          ensures Before(DatetimeOf(rest[i]), DatetimeOf(rest[i + 1]))
        {
          assert rest[i] == hours[i + 1] && rest[i + 1] == hours[i + 2];
        }
      }
      forall x | x in rest
        ensures DatetimeOf(x) != DatetimeOf(e)
      {
        assert x in hours;
      }
      InsertAscending(rest, e);
      var ins := Insert(rest, e);
      var r := [hours[0]] + ins;
      assert Insert(hours, e) == r;
      if rest != [] {
        assert ins[0] == e || ins[0] == hours[1];
      }
      forall i | 0 <= i < |r| - 1
        ensures Before(DatetimeOf(r[i]), DatetimeOf(r[i + 1]))
      {
        if i > 0 {
          assert r[i] == ins[i - 1] && r[i + 1] == ins[i];
        }
      }
    }
  }

  /** Inserting adds exactly the one entry and keeps every other. */
  lemma {:induction false} InsertMembers(hours: seq<Dict>, e: Dict)
    ensures forall x :: x in Insert(hours, e) <==> x in hours || x == e
  {
    if hours != [] && !Before(DatetimeOf(e), DatetimeOf(hours[0])) {
      InsertMembers(hours[1..], e);
      assert hours == [hours[0]] + hours[1..];
    }
  }

  /** The sort's loop invariant: `sorted` holds, in order, the entries of the keys in `done`. */
  predicate SortedSoFar(m: map<string, Dict>, done: set<string>, sorted: seq<Dict>)
  {
    && done <= m.Keys
    && Ascending(sorted)
    && (forall e :: e in sorted ==> MergeKey(e).Some? && MergeKey(e).value in done && m[MergeKey(e).value] == e)
    && (forall k :: k in done ==> m[k] in sorted)
  }

  /** Inserting the entry of one more key keeps the sort's loop invariant. */
  lemma SortStep(m: map<string, Dict>, done: set<string>, sorted: seq<Dict>, k: string)
    requires KeyedByDatetime(m)
    requires SortedSoFar(m, done, sorted)
    requires k in m && k !in done
    ensures SortedSoFar(m, done + {k}, Insert(sorted, m[k]))
  {
    var e := m[k];
    forall x | x in sorted
      ensures DatetimeOf(x) != DatetimeOf(e)
    {
      assert MergeKey(x).value != k;
    }
    InsertAscending(sorted, e);
    InsertMembers(sorted, e);
  }

  /** `sorted(all_hours.values(), key=datetime)`: every entry once, in ascending datetime order. */
  method SortByDatetime(m: map<string, Dict>) returns (sorted: seq<Dict>)
    requires KeyedByDatetime(m)
    ensures Ascending(sorted)
    ensures |sorted| == |m|
    ensures forall e :: e in sorted <==> e in m.Values
  {
    sorted := [];
    var rest := m.Keys;
    ghost var done: set<string> := {};
    while rest != {}
      invariant rest <= m.Keys && done == m.Keys - rest
      invariant SortedSoFar(m, done, sorted)
      invariant |sorted| + |rest| == |m|
      decreases |rest|
    {
      ghost var some := Pick(rest);
      var k :| k in rest;
      SortStep(m, done, sorted, k);
      sorted := Insert(sorted, m[k]);
      rest := rest - {k};
      done := done + {k};
    }
    SortedAll(m, sorted);
  }

  /** Once every key is done, the sorted list holds exactly the map's entries. */
  lemma SortedAll(m: map<string, Dict>, sorted: seq<Dict>)
    requires SortedSoFar(m, m.Keys, sorted)
    ensures forall e :: e in sorted <==> e in m.Values
  {
    forall e | e in m.Values
      ensures e in sorted
    {
      var k :| k in m && m[k] == e;
    }
  }

  /**
   * `_merge_and_deduplicate_forecast`: the merged dictionary's entries in
   * ascending datetime order, hence one entry per datetime.
   */
  method MergeForecast(oldHours: seq<Dict>, newHours: seq<Dict>) returns (merged: seq<Dict>)
    ensures Ascending(merged)
    ensures forall i, j :: 0 <= i < j < |merged| ==> DatetimeOf(merged[i]) != DatetimeOf(merged[j])
    ensures |merged| == |KeysOf(oldHours) + KeysOf(newHours)|
    ensures forall e :: e in merged <==> e in MergedHours(oldHours, newHours).Values
  {
    var all := AbsorbEntries(map[], oldHours);
    all := AbsorbEntries(all, newHours);
    MergeNewOverwritesOld(oldHours, newHours);
    merged := SortByDatetime(all);
    AscendingIsStrict(merged);
  }

  // ---------------------------------------------------------------------
  // _validate_forecast_quality
  // ---------------------------------------------------------------------

  /** The minimum hours of today and of tomorrow for a complete forecast. */
  const MinTodayHours: nat := 6
  const MinTomorrowHours: nat := 12

  /**
   * The local day of an entry's `local_datetime`: None when it is missing
   * or falsy, or when `dayOf`, standing for the parsing and conversion,
   * fails.
   */
  function LocalDay(e: Dict, dayOf: Value -> Option<int>): Option<int>
  {
    if "local_datetime" in e && Truthy(e["local_datetime"]) then dayOf(e["local_datetime"]) else None
  }

  /** The number of forecast hours on a day. */
  function HoursOnDay(hours: seq<Dict>, day: int, dayOf: Value -> Option<int>): nat
  {
    if hours == [] then 0
    else
      var k := |hours| - 1;
      HoursOnDay(hours[..k], day, dayOf) + if LocalDay(hours[k], dayOf) == Some(day) then 1 else 0
  }

  /** Two different days together have at most as many hours as the forecast. */
  lemma {:induction false} HoursOnTwoDaysBounded(hours: seq<Dict>, d1: int, d2: int, dayOf: Value -> Option<int>)
    requires d1 != d2
    ensures HoursOnDay(hours, d1, dayOf) + HoursOnDay(hours, d2, dayOf) <= |hours|
  {
    if hours != [] {
      HoursOnTwoDaysBounded(hours[..|hours| - 1], d1, d2, dayOf);
    }
  }

  datatype ForecastQuality = ForecastQuality(
    todayHours: nat,
    tomorrowHours: nat,
    complete: bool,
    minTodayHours: nat,
    minTomorrowHours: nat)

  /**
   * `_validate_forecast_quality`: the hours of today and of tomorrow, and
   * complete exactly when today has at least 6 and tomorrow at least 12; so a
   * complete forecast has at least 18 entries.
   */
  method ValidateForecastQuality(hours: seq<Dict>, today: int, dayOf: Value -> Option<int>) returns (q: ForecastQuality)
    ensures q.todayHours == HoursOnDay(hours, today, dayOf)
    ensures q.tomorrowHours == HoursOnDay(hours, today + 1, dayOf)
    ensures q.complete <==> q.todayHours >= MinTodayHours && q.tomorrowHours >= MinTomorrowHours
    ensures q.complete ==> |hours| >= MinTodayHours + MinTomorrowHours
    ensures q.minTodayHours == MinTodayHours && q.minTomorrowHours == MinTomorrowHours
  {
    var todayHours := 0;
    var tomorrowHours := 0;
    var i := 0;
    while i < |hours|
      invariant 0 <= i <= |hours|
      invariant todayHours == HoursOnDay(hours[..i], today, dayOf)
      invariant tomorrowHours == HoursOnDay(hours[..i], today + 1, dayOf)
    {
      assert hours[..i + 1][..i] == hours[..i];
      var day := LocalDay(hours[i], dayOf);
      if day == Some(today) {
        todayHours := todayHours + 1;
      } else if day == Some(today + 1) {
        tomorrowHours := tomorrowHours + 1;
      }
      i := i + 1;
    }
    assert hours[..i] == hours;
    HoursOnTwoDaysBounded(hours, today, today + 1, dayOf);
    var complete := todayHours >= MinTodayHours && tomorrowHours >= MinTomorrowHours;
    q := ForecastQuality(todayHours, tomorrowHours, complete, MinTodayHours, MinTomorrowHours);
  }

  // ---------------------------------------------------------------------
  // The stored lists
  // ---------------------------------------------------------------------

  /** The counts a clean-up reports. */
  datatype CleanupCounts = CleanupCounts(removed: nat, remaining: nat)

  /** DataIntegrityException and the reason it is raised. */
  datatype IntegrityError =
    | CleanedSamplesInvalid
    | DuplicateCleanupFailed
    | InvalidRecord(reason: RecordError)

  /** The contents of the hourly samples file and of the prediction history file. */
  class DataStore {
    var samples: seq<Dict>
    var predictions: seq<Dict>

    /** Both files as created on first use: empty lists. */
    constructor ()
      ensures samples == [] && predictions == []
    {
      samples := [];
      predictions := [];
    }

    /**
     * `add_prediction_record`: an invalid record raises and changes nothing;
     * a valid one is appended and the history cut to its newest 365 records.
     */
    method AddPredictionRecord(record: Dict) returns (error: Option<IntegrityError>)
      modifies this
      ensures ValidatePredictionRecord(record).Err? ==>
        error == Some(InvalidRecord(ValidatePredictionRecord(record).error)) && predictions == old(predictions)
      ensures ValidatePredictionRecord(record).Ok? ==>
        error.None? && predictions == AppendBounded(old(predictions), record)
      ensures samples == old(samples)
    {
      var valid := ValidatePredictionRecord(record);
      if valid.Err? {
        return Some(InvalidRecord(valid.error));
      }
      predictions := AppendBounded(predictions, record);
      error := None;
    }

    /** `add_hourly_sample` for a cutoff at local midnight 60 days before today. */
    method AddHourlySample(sample: Dict, cutoff: real, localTime: Value -> Option<real>)
      modifies this
      ensures samples == SamplesAfterAdd(old(samples), sample, cutoff, localTime)
      ensures HasTimestamp(old(samples), Get(sample, "timestamp")) ==> samples == old(samples)
      ensures predictions == old(predictions)
    {
      if !HasSampleKeys(sample) {
        return;
      }
      var timestamp := Get(sample, "timestamp");
      var i := 0;
      while i < |samples|
        invariant 0 <= i <= |samples|
        invariant forall j :: 0 <= j < i ==> Get(samples[j], "timestamp") != timestamp
      {
        if Get(samples[i], "timestamp") == timestamp {
          return;
        }
        i := i + 1;
      }
      samples := PruneOldSamples(samples + [sample], cutoff, localTime);
    }

    /**
     * `cleanup_duplicate_samples`: nothing to do for an empty file; the
     * cleaned list replaces the samples only when it passes validation.
     */
    method CleanupDuplicateSamples() returns (r: Result<CleanupCounts, IntegrityError>)
      modifies this
      ensures old(samples) == [] ==> r == Ok(CleanupCounts(0, 0)) && samples == old(samples)
      ensures old(samples) != [] && !DedupHashable(old(samples)) ==>
        r == Err(DuplicateCleanupFailed) && samples == old(samples)
      ensures old(samples) != [] && DedupHashable(old(samples)) && ValidateCleaned(KeptFirst(old(samples))) ==>
        samples == KeptFirst(old(samples))
        && r.Ok? && r.value.remaining == |samples| && r.value.removed + r.value.remaining == |old(samples)|
      ensures old(samples) != [] && DedupHashable(old(samples)) && !ValidateCleaned(KeptFirst(old(samples))) ==>
        r == Err(CleanedSamplesInvalid) && samples == old(samples)
      ensures predictions == old(predictions)
    {
      if samples == [] {
        return Ok(CleanupCounts(0, 0));
      }
      var cleaned, removed, failed := DeduplicateSamples(samples);
      if failed {
        return Err(DuplicateCleanupFailed);
      }
      if !ValidateCleaned(cleaned) {
        return Err(CleanedSamplesInvalid);
      }
      samples := cleaned;
      r := Ok(CleanupCounts(removed, |cleaned|));
    }

    /** `cleanup_zero_production_samples`, with the same empty case and validation. */
    method CleanupZeroProductionSamples(parse: string -> Option<real>) returns (r: Result<CleanupCounts, IntegrityError>)
      modifies this
      ensures old(samples) == [] ==> r == Ok(CleanupCounts(0, 0)) && samples == old(samples)
      ensures old(samples) != [] && ValidateCleaned(ProducingSamples(old(samples), parse)) ==>
        samples == ProducingSamples(old(samples), parse)
        && r.Ok? && r.value.remaining == |samples| && r.value.removed + r.value.remaining == |old(samples)|
      ensures old(samples) != [] && !ValidateCleaned(ProducingSamples(old(samples), parse)) ==>
        r == Err(CleanedSamplesInvalid) && samples == old(samples)
      ensures predictions == old(predictions)
    {
      if samples == [] {
        return Ok(CleanupCounts(0, 0));
      }
      var cleaned, removed := RemoveZeroProduction(samples, parse);
      if !ValidateCleaned(cleaned) {
        return Err(CleanedSamplesInvalid);
      }
      samples := cleaned;
      r := Ok(CleanupCounts(removed, |cleaned|));
    }
  }
}
