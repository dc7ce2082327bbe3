/**
 * The seven-day maximum of direct normal irradiance per hour of the day
 * (ai/ai_dni_tracker.py). Each tracked hour keeps a short history, one entry
 * per day, whose last entry is today's running maximum.
 *
 * Writing the tracker to disk after the end-of-day update, and loading it, are
 * not part of this model; the end-of-day timestamp is a parameter.
 */
module DniTracking {
  import opened Common

  /** TRACKED_HOURS = range(6, 21). */
  predicate Tracked(hour: int)
  {
    6 <= hour <= 20
  }

  /** Every tracked hour has an entry. */
  ghost predicate CoversTracked<V>(m: map<int, V>)
  {
    forall h :: Tracked(h) ==> h in m
  }

  /** HISTORY_DAYS. */
  const HistoryDays: nat := 7

  /** `max(hist)`, folding from the oldest entry. */
  function MaxOf(s: seq<real>): real
    requires |s| > 0
  {
    if |s| == 1 then s[0] else Max(MaxOf(s[..|s| - 1]), s[|s| - 1])
  }

  /** `max(hist)` is an entry of the history and no entry exceeds it. */
  lemma {:induction false} MaxOfIsMaximum(s: seq<real>)
    requires |s| > 0
    ensures MaxOf(s) in s
    ensures forall i :: 0 <= i < |s| ==> s[i] <= MaxOf(s)
  {
    if |s| > 1 {
      var p := s[..|s| - 1];
      MaxOfIsMaximum(p);
      assert forall i :: 0 <= i < |p| ==> s[i] == p[i];
    }
  }

  /** `hist[-HISTORY_DAYS:]` when the history is longer than that. */
  function LastDays(s: seq<real>): (r: seq<real>)
    ensures |r| == if |s| > HistoryDays then HistoryDays else |s|
  {
    if |s| > HistoryDays then s[|s| - HistoryDays..] else s
  }

  /** Truncation keeps the newest entries, in order. */
  lemma LastDaysIsSuffix(s: seq<real>)
    ensures LastDays(s) == s[|s| - |LastDays(s)|..]
    ensures |s| <= HistoryDays ==> LastDays(s) == s
  {
  }

  /** The history after `record_dni(hour, dni)` for a tracked hour and dni ≥ 0. */
  function Recorded(hist: seq<real>, dni: real): (r: seq<real>)
    ensures |r| == if hist == [] then 1 else |hist|
    ensures hist != [] ==> r[..|r| - 1] == hist[..|hist| - 1]
  {
    if hist == [] then [dni]
    else if dni > hist[|hist| - 1] then hist[..|hist| - 1] + [dni]
    else hist
  }

  /**
   * Recording keeps today's running maximum: the last entry becomes the
   * larger of it and the new value, so it is never lowered.
   */
  lemma RecordedKeepsMaximum(hist: seq<real>, dni: real)
    ensures var r := Recorded(hist, dni);
      r[|r| - 1] == if hist == [] then dni else Max(hist[|hist| - 1], dni)
    ensures hist != [] ==> Recorded(hist, dni)[|hist| - 1] >= hist[|hist| - 1]
  {
  }

  /** The history after `end_of_day_update`: a day without data gets a 0.0 entry, then the last seven days are kept. */
  function EndOfDayHistory(hist: seq<real>): (r: seq<real>)
    ensures 1 <= |r| <= HistoryDays
  {
    var h1 := if hist == [] || hist[|hist| - 1] == 0.0 then hist + [0.0] else hist;
    LastDays(h1)
  }

  /**
   * A day with a non-zero last entry is kept as it is, the oldest days
   * dropped first; a day without data ends in a 0.0 entry.
   */
  lemma EndOfDayKeepsNewest(hist: seq<real>)
    ensures hist != [] && hist[|hist| - 1] != 0.0 ==>
      && EndOfDayHistory(hist) == hist[|hist| - |EndOfDayHistory(hist)|..]
      && EndOfDayHistory(hist)[|EndOfDayHistory(hist)| - 1] == hist[|hist| - 1]
    ensures hist == [] || hist[|hist| - 1] == 0.0 ==> EndOfDayHistory(hist)[|EndOfDayHistory(hist)| - 1] == 0.0
  {
    var h1 := if hist == [] || hist[|hist| - 1] == 0.0 then hist + [0.0] else hist;
    LastDaysIsSuffix(h1);
  }

  /** The history after `start_new_day`: a 0.0 placeholder for today, then the last seven days are kept. */
  function NewDayHistory(hist: seq<real>): (r: seq<real>)
    ensures 1 <= |r| <= HistoryDays
    ensures |r| == if |hist| >= HistoryDays then HistoryDays else |hist| + 1
  {
    LastDays(hist + [0.0])
  }

  /** The new day's history is the newest earlier days followed by today's 0.0 placeholder. */
  lemma NewDayShiftsHistory(hist: seq<real>)
    ensures var r := NewDayHistory(hist);
      r[|r| - 1] == 0.0 && r[..|r| - 1] == hist[|hist| - (|r| - 1)..]
  {
    LastDaysIsSuffix(hist + [0.0]);
  }

  class DniTracker {
    var maxDni: map<int, real>
    var history: map<int, seq<real>>
    var lastUpdated: Option<string>

    /** Every tracked hour has a maximum and a history. */
    ghost predicate Valid()
      reads this
    {
      CoversTracked(maxDni) && CoversTracked(history)
    }

    constructor ()
      ensures Valid() && OnlyTracked()
      ensures forall h :: Tracked(h) ==> maxDni[h] == 0.0 && history[h] == []
      ensures lastUpdated.None?
    {
      var none: seq<real> := [];
      maxDni := map[6 := 0.0, 7 := 0.0, 8 := 0.0, 9 := 0.0, 10 := 0.0, 11 := 0.0, 12 := 0.0, 13 := 0.0,
                    14 := 0.0, 15 := 0.0, 16 := 0.0, 17 := 0.0, 18 := 0.0, 19 := 0.0, 20 := 0.0];
      history := map[6 := none, 7 := none, 8 := none, 9 := none, 10 := none, 11 := none, 12 := none, 13 := none,
                     14 := none, 15 := none, 16 := none, 17 := none, 18 := none, 19 := none, 20 := none];
      lastUpdated := None;
      new;
      forall h
        ensures Tracked(h) ==> h in maxDni && h in history
        ensures h in maxDni ==> Tracked(h)
      {
        assert Tracked(h) <==> h in {6, 7, 8, 9, 10, 11, 12, 13, 14, 15, 16, 17, 18, 19, 20};
      }
    }

    /** No hour outside the tracked ones has a maximum. */
    ghost predicate OnlyTracked()
      reads this
    {
      forall h :: h in maxDni ==> Tracked(h)
    }

    /** `get_max_dni`: 0.0 for an hour without an entry, so for every untracked hour. */
    method GetMaxDni(hour: int) returns (m: real)
      requires Valid() && OnlyTracked()
      ensures !Tracked(hour) ==> m == 0.0
      ensures Tracked(hour) ==> m == maxDni[hour]
    {
      if hour !in maxDni {
        return 0.0;
      }
      m := maxDni[hour];
    }

    /** `record_dni`: untracked hours and negative values are ignored. */
    method RecordDni(hour: int, dni: real)
      requires Valid()
      modifies this
      ensures Valid() && maxDni == old(maxDni) && lastUpdated == old(lastUpdated)
      ensures !Tracked(hour) || dni < 0.0 ==> history == old(history)
      ensures Tracked(hour) && dni >= 0.0 ==> history == old(history)[hour := Recorded(old(history)[hour], dni)]
    {
      if !Tracked(hour) {
        return;
      }
      if dni < 0.0 {
        return;
      }
      var hist := if hour in history then history[hour] else [];
      if |hist| == 0 || dni > hist[|hist| - 1] {
        var before := hist;
        if |hist| == 0 {
          hist := hist + [dni];
        } else {
          hist := hist[..|hist| - 1] + [dni];
        }
        assert hist == Recorded(before, dni);
        history := history[hour := hist];
      } else {
        assert history == history[hour := Recorded(hist, dni)];
      }
    }

    /**
     * `end_of_day_update`: every tracked hour's history is finalised and its
     * maximum set to the largest entry of that history.
     */
    method EndOfDayUpdate(timestamp: string)
      requires Valid()
      modifies this
      ensures Valid()
      ensures forall h :: Tracked(h) ==> history[h] == EndOfDayHistory(old(history)[h])
      ensures forall h :: Tracked(h) ==> maxDni[h] == MaxOf(EndOfDayHistory(old(history)[h]))
      ensures maxDni.Keys == old(maxDni).Keys
      ensures lastUpdated == Some(timestamp)
    {
      ghost var h0 := history;
      ghost var keys0 := maxDni.Keys;
      var hs := history;
      var ms := maxDni;
      var hour := 6;
      while hour <= 20
        invariant 6 <= hour <= 21
        invariant FinalisedBelow(h0, keys0, hs, ms, hour)
      {
        var hist := hs[hour];
        if |hist| == 0 || hist[|hist| - 1] == 0.0 {
          hist := hist + [0.0];
        }
        if |hist| > HistoryDays {
          hist := hist[|hist| - HistoryDays..];
        }
        assert hist == EndOfDayHistory(hs[hour]);
        FinaliseStep(h0, keys0, hs, ms, hour);
        hs := hs[hour := hist];
        ms := ms[hour := MaxOf(hist)];
        hour := hour + 1;
      }
      FinalisedAll(h0, keys0, hs, ms);
      history := hs;
      maxDni := ms;
      lastUpdated := Some(timestamp);
    }

    /** `start_new_day`: a 0.0 placeholder is appended to every tracked history, kept to seven days. */
    method StartNewDay()
      requires Valid()
      modifies this
      ensures Valid() && maxDni == old(maxDni) && lastUpdated == old(lastUpdated)
      ensures forall h :: Tracked(h) ==> history[h] == NewDayHistory(old(history)[h])
    {
      var hs := history;
      var hour := 6;
      while hour <= 20
        invariant 6 <= hour <= 21
        invariant CoversTracked(hs)
        invariant forall h :: Tracked(h) && h < hour ==> hs[h] == NewDayHistory(history[h])
        invariant forall h :: Tracked(h) && hour <= h ==> hs[h] == history[h]
      {
        var hist := hs[hour] + [0.0];
        if |hist| > HistoryDays {
          hist := hist[|hist| - HistoryDays..];
        }
        hs := hs[hour := hist];
        hour := hour + 1;
      }
      history := hs;
    }
  }

  /**
   * The end-of-day loop's invariant: the tracked hours before `hour` are
   * finalised from `h0`, the later ones untouched, and the maxima keep
   * their keys.
   */
  ghost predicate FinalisedBelow(h0: map<int, seq<real>>, keys: set<int>, hs: map<int, seq<real>>, ms: map<int, real>, hour: int)
  {
    && CoversTracked(h0) && CoversTracked(hs) && ms.Keys == keys && CoversTracked(ms)
    && (forall h :: Tracked(h) && h < hour ==> hs[h] == EndOfDayHistory(h0[h]) && ms[h] == MaxOf(hs[h]))
    && (forall h :: Tracked(h) && hour <= h ==> hs[h] == h0[h])
  }

  /** Finalising one more hour keeps the end-of-day loop's invariant. */
  lemma FinaliseStep(h0: map<int, seq<real>>, keys: set<int>, hs: map<int, seq<real>>, ms: map<int, real>, hour: int)
    requires Tracked(hour) && FinalisedBelow(h0, keys, hs, ms, hour)
    ensures hs[hour] == h0[hour]
    ensures var hist := EndOfDayHistory(hs[hour]);
      FinalisedBelow(h0, keys, hs[hour := hist], ms[hour := MaxOf(hist)], hour + 1)
  {
  }

  /** Once every tracked hour is finalised, each holds its end-of-day history and that history's maximum. */
  lemma FinalisedAll(h0: map<int, seq<real>>, keys: set<int>, hs: map<int, seq<real>>, ms: map<int, real>)
    requires FinalisedBelow(h0, keys, hs, ms, 21)
    ensures CoversTracked(hs) && CoversTracked(ms) && ms.Keys == keys
    ensures forall h :: Tracked(h) ==> hs[h] == EndOfDayHistory(h0[h])
    ensures forall h :: Tracked(h) ==> ms[h] == MaxOf(EndOfDayHistory(h0[h]))
  {
  }

  /** After the end-of-day update every tracked hour's maximum is an entry of at most seven recorded days and bounds them all. */
  lemma EndOfDayMaximumBounds(hist: seq<real>)
    ensures var r := EndOfDayHistory(hist);
      MaxOf(r) in r && forall i :: 0 <= i < |r| ==> r[i] <= MaxOf(r)
  {
    MaxOfIsMaximum(EndOfDayHistory(hist));
  }
}
