/**
 * The battery charging statistics of the grid-price monitor
 * (extra_features/grid_price_monitor/core/battery_tracker.py): the energy
 * charged today, this week and this month, integrated from the power sensor
 * with a left Riemann sum and reset when the day, ISO week or month changes.
 *
 * The clock arrives as parameters: `now` in seconds for the integration and
 * the local calendar date for the resets. Loading and saving through the Home
 * Assistant store are modelled only as the restore rule applied to the loaded
 * values; the debounced save is the `savePending` flag.
 */
module BatteryTracking {
  import opened Common

  /** A local calendar date with its ISO week. */
  datatype LocalDate = LocalDate(year: int, month: int, day: int, isoYear: int, isoWeek: int)

  /** A date as the calendar can produce it. */
  predicate ValidDate(d: LocalDate)
  {
    1 <= d.month <= 12 && 1 <= d.day <= 31 && 1 <= d.isoWeek <= 53
  }

  // ---------------------------------------------------------------------
  // Period keys
  // ---------------------------------------------------------------------

  /** The day the source compares: `local_now.day`, the day of the month alone. */
  function DayKeyAsWritten(d: LocalDate): int
  {
    d.day
  }

  /** The week the source compares: `isocalendar()[1]`, the ISO week number alone. */
  function WeekKeyAsWritten(d: LocalDate): int
  {
    d.isoWeek
  }

  /** The month the source compares: `local_now.month`, the month number alone. */
  function MonthKeyAsWritten(d: LocalDate): int
  {
    d.month
  }

  /**
   * The day of the month is not a date: the 5th of January and the 5th of
   * February share it, so a tracker last updated a month ago keeps (or
   * restores) that day's energy as today's.
   */
  lemma DayKeyAsWrittenConfusesMonths()
    ensures var jan5 := LocalDate(2025, 1, 5, 2025, 1);
      var feb5 := LocalDate(2025, 2, 5, 2025, 6);
      ValidDate(jan5) && ValidDate(feb5) && jan5 != feb5
      && DayKeyAsWritten(jan5) == DayKeyAsWritten(feb5)
  {
  }

  /** Likewise the ISO week number and the month number repeat every year. */
  lemma WeekAndMonthKeysAsWrittenConfuseYears()
    ensures var a := LocalDate(2024, 3, 6, 2024, 10);
      var b := LocalDate(2025, 3, 5, 2025, 10);
      ValidDate(a) && ValidDate(b) && a.isoYear != b.isoYear && a.year != b.year
      && WeekKeyAsWritten(a) == WeekKeyAsWritten(b) && MonthKeyAsWritten(a) == MonthKeyAsWritten(b)
  {
  }

  /** The calendar day as one number, year first. */
  function DayKey(d: LocalDate): int
  {
    (d.year * 100 + d.month) * 100 + d.day
  }

  /** The ISO week as one number, ISO year first. */
  function WeekKey(d: LocalDate): int
  {
    d.isoYear * 100 + d.isoWeek
  }

  /** `local_now.month`, with the year in front so that a year later is another month. */
  function MonthKey(d: LocalDate): int
  {
    d.year * 100 + d.month
  }

  /** Two numbers below 100 written after the same prefix agree exactly when both parts do. */
  lemma PackInjective(a: int, x: int, b: int, y: int)
    requires 0 <= x < 100 && 0 <= y < 100
    ensures a * 100 + x == b * 100 + y <==> a == b && x == y
  {
    if a < b {
      assert a * 100 + x < (a + 1) * 100 <= b * 100 + y;
    } else if b < a {
      assert b * 100 + y < (b + 1) * 100 <= a * 100 + x;
    }
  }

  /** The keys name the same day, ISO week and month exactly when the dates do. */
  lemma KeysIdentifyPeriods(d1: LocalDate, d2: LocalDate)
    requires ValidDate(d1) && ValidDate(d2)
    ensures DayKey(d1) == DayKey(d2) <==> d1.year == d2.year && d1.month == d2.month && d1.day == d2.day
    ensures WeekKey(d1) == WeekKey(d2) <==> d1.isoYear == d2.isoYear && d1.isoWeek == d2.isoWeek
    ensures MonthKey(d1) == MonthKey(d2) <==> d1.year == d2.year && d1.month == d2.month
  {
    PackInjective(d1.year, d1.month, d2.year, d2.month);
    PackInjective(MonthKey(d1), d1.day, MonthKey(d2), d2.day);
    PackInjective(d1.isoYear, d1.isoWeek, d2.isoYear, d2.isoWeek);
  }

  // ---------------------------------------------------------------------
  // Integration
  // ---------------------------------------------------------------------

  /** The energy in Wh of `powerW` held from `fromS` to `toS` seconds. */
  function EnergyStep(powerW: real, fromS: real, toS: real): (wh: real)
    ensures powerW >= 0.0 && fromS <= toS ==> wh >= 0.0
    ensures powerW == 0.0 || fromS == toS ==> wh == 0.0
  {
    powerW * ((toS - fromS) / 3600.0)
  }

  /** Steps at an unchanged power add up: extra readings of the same value change nothing. */
  lemma EnergyStepsAdd(powerW: real, t0: real, t1: real, t2: real)
    ensures EnergyStep(powerW, t0, t1) + EnergyStep(powerW, t1, t2) == EnergyStep(powerW, t0, t2)
  {
    assert (t1 - t0) / 3600.0 + (t2 - t1) / 3600.0 == (t2 - t0) / 3600.0;
  }

  /** `energy_today_kwh` and its siblings: Wh shown as kWh to three decimals, within half a Wh. */
  function WhToKwh(wh: real): (kwh: real)
    ensures wh >= 0.0 ==> kwh >= 0.0
    ensures wh / 1000.0 - 0.0005 <= kwh <= wh / 1000.0 + 0.0005
  {
    RoundClose(wh / 1000.0, ThreeDecimals);
    if wh >= 0.0 then
      RoundNonNegative(wh / 1000.0, ThreeDecimals);
      Round(wh / 1000.0, ThreeDecimals)
    else Round(wh / 1000.0, ThreeDecimals)
  }

  /** The reset rule of `_check_date_resets`: a total is cleared when a previous period is known and differs. */
  function PeriodReset(previous: Option<int>, current: int, total: real): (r: real)
    ensures previous.Some? && previous != Some(current) ==> r == 0.0
    ensures previous.None? || previous == Some(current) ==> r == total
  {
    if previous.Some? && previous != Some(current) then 0.0 else total
  }

  /**
   * The reset and the restore as written, with the day of the month as the
   * key: a tracker last updated on the 5th of January that reads power on
   * the 5th of February keeps January's daily total, and a total saved on the
   * 5th of January is restored as today's on the 5th of February. With the
   * corrected key both are cleared.
   */
  lemma DailyTotalAsWrittenSurvivesAMonth(wh: real)
    ensures var jan5 := LocalDate(2025, 1, 5, 2025, 1);
      var feb5 := LocalDate(2025, 2, 5, 2025, 6);
      && PeriodReset(Some(DayKeyAsWritten(jan5)), DayKeyAsWritten(feb5), wh) == wh
      && Restored(Some(DayKeyAsWritten(jan5)), DayKeyAsWritten(feb5), wh) == wh
      && PeriodReset(Some(DayKey(jan5)), DayKey(feb5), wh) == 0.0
      && Restored(Some(DayKey(jan5)), DayKey(feb5), wh) == 0.0
  {
    var jan5 := LocalDate(2025, 1, 5, 2025, 1);
    var feb5 := LocalDate(2025, 2, 5, 2025, 6);
    KeysIdentifyPeriods(jan5, feb5);
  }

  /** The values read back from the store; a missing energy is already 0.0. */
  datatype StoredStats = StoredStats(
    energyTodayWh: real,
    energyWeekWh: real,
    energyMonthWh: real,
    currentDay: Option<int>,
    currentWeek: Option<int>,
    currentMonth: Option<int>)

  /** The restore rule: a stored counter is kept only when it belongs to the current period. */
  function Restored(stored: Option<int>, current: int, value: real): (r: real)
    ensures r == if stored == Some(current) then value else 0.0
  {
    if stored == Some(current) then value else 0.0
  }

  class BatteryTracker {
    var lastPowerW: real
    var lastUpdate: Option<real>
    var energyTodayWh: real
    var energyWeekWh: real
    var energyMonthWh: real
    var currentDay: Option<int>
    var currentWeek: Option<int>
    var currentMonth: Option<int>
    var savePending: bool

    /** The power kept for the next interval is never negative. */
    ghost predicate Valid()
      reads this
    {
      lastPowerW >= 0.0
    }

    /** No counter is negative. */
    ghost predicate Counted()
      reads this
    {
      energyTodayWh >= 0.0 && energyWeekWh >= 0.0 && energyMonthWh >= 0.0
    }

    constructor ()
      ensures Valid() && Counted()
      ensures lastPowerW == 0.0 && lastUpdate.None?
      ensures energyTodayWh == 0.0 && energyWeekWh == 0.0 && energyMonthWh == 0.0
      ensures currentDay.None? && currentWeek.None? && currentMonth.None? && !savePending
    {
      lastPowerW := 0.0;
      lastUpdate := None;
      energyTodayWh := 0.0;
      energyWeekWh := 0.0;
      energyMonthWh := 0.0;
      currentDay := None;
      currentWeek := None;
      currentMonth := None;
      savePending := false;
    }

    /**
     * `_check_date_resets`: a counter whose period has changed since the
     * last call goes back to 0; the first call resets nothing. The periods
     * are compared as full dates (see `DayKey`, `WeekKey`, `MonthKey`).
     */
    method CheckDateResets(date: LocalDate)
      modifies this
      ensures currentDay == Some(DayKey(date)) && currentWeek == Some(WeekKey(date)) && currentMonth == Some(MonthKey(date))
      ensures energyTodayWh == PeriodReset(old(currentDay), DayKey(date), old(energyTodayWh))
      ensures energyWeekWh == PeriodReset(old(currentWeek), WeekKey(date), old(energyWeekWh))
      ensures energyMonthWh == PeriodReset(old(currentMonth), MonthKey(date), old(energyMonthWh))
      ensures lastPowerW == old(lastPowerW) && lastUpdate == old(lastUpdate) && savePending == old(savePending)
      ensures old(Counted()) ==> Counted()
    {
      var day := DayKey(date);
      var week := WeekKey(date);
      var month := MonthKey(date);
      if currentDay.Some? && day != currentDay.value {
        energyTodayWh := 0.0;
      }
      if currentWeek.Some? && week != currentWeek.value {
        energyWeekWh := 0.0;
      }
      if currentMonth.Some? && month != currentMonth.value {
        energyMonthWh := 0.0;
      }
      currentDay := Some(day);
      currentWeek := Some(week);
      currentMonth := Some(month);
    }

    /**
     * `_async_state_changed` for one reading; `None` stands for a missing,
     * unknown, unavailable or unparseable state, which changes nothing.
     * Otherwise the counters are reset as the date requires, then the
     * PREVIOUS power times the hours since the previous reading is added to
     * all three (nothing on the first reading), and the new power, floored
     * at 0, is kept for the next interval.
     */
    method StateChanged(reading: Option<real>, now: real, date: LocalDate)
      requires Valid()
      modifies this
      ensures Valid()
      ensures reading.None? ==> unchanged(this)
      ensures reading.Some? ==>
        && lastPowerW == Max(0.0, reading.value) && lastUpdate == Some(now) && savePending
        && currentDay == Some(DayKey(date)) && currentWeek == Some(WeekKey(date)) && currentMonth == Some(MonthKey(date))
      ensures reading.Some? ==>
        var step := if old(lastUpdate).Some? then EnergyStep(old(lastPowerW), old(lastUpdate).value, now) else 0.0;
        && energyTodayWh == PeriodReset(old(currentDay), DayKey(date), old(energyTodayWh)) + step
        && energyWeekWh == PeriodReset(old(currentWeek), WeekKey(date), old(energyWeekWh)) + step
        && energyMonthWh == PeriodReset(old(currentMonth), MonthKey(date), old(energyMonthWh)) + step
      ensures old(Counted()) && (old(lastUpdate).None? || old(lastUpdate).value <= now) ==> Counted()
    {
      if reading.None? {
        return;
      }
      var powerW := Max(0.0, reading.value);
      CheckDateResets(date);
      if lastUpdate.Some? {
        var energyWh := EnergyStep(lastPowerW, lastUpdate.value, now);
        energyTodayWh := energyTodayWh + energyWh;
        energyWeekWh := energyWeekWh + energyWh;
        energyMonthWh := energyMonthWh + energyWh;
      }
      lastPowerW := powerW;
      lastUpdate := Some(now);
      savePending := true;
    }

    /** The initial reading of `async_setup`: a usable state sets the power and the time; nothing is integrated. */
    method InitialReading(reading: Option<real>, now: real)
      requires Valid()
      modifies this
      ensures Valid()
      ensures reading.None? ==> unchanged(this)
      ensures reading.Some? ==> lastPowerW == Max(0.0, reading.value) && lastUpdate == Some(now)
      ensures energyTodayWh == old(energyTodayWh) && energyWeekWh == old(energyWeekWh) && energyMonthWh == old(energyMonthWh)
      ensures currentDay == old(currentDay) && currentWeek == old(currentWeek) && currentMonth == old(currentMonth)
      ensures savePending == old(savePending)
    {
      if reading.Some? {
        lastPowerW := Max(0.0, reading.value);
        lastUpdate := Some(now);
      }
    }

    /**
     * `_async_load_data`: without stored data nothing changes; otherwise each
     * counter is restored only when it was stored in the current period, and
     * the current periods are recorded.
     */
    method LoadData(data: Option<StoredStats>, date: LocalDate)
      modifies this
      ensures data.None? ==> unchanged(this)
      ensures data.Some? ==>
        && energyTodayWh == Restored(data.value.currentDay, DayKey(date), data.value.energyTodayWh)
        && energyWeekWh == Restored(data.value.currentWeek, WeekKey(date), data.value.energyWeekWh)
        && energyMonthWh == Restored(data.value.currentMonth, MonthKey(date), data.value.energyMonthWh)
        && currentDay == Some(DayKey(date)) && currentWeek == Some(WeekKey(date)) && currentMonth == Some(MonthKey(date))
      ensures lastPowerW == old(lastPowerW) && lastUpdate == old(lastUpdate) && savePending == old(savePending)
    {
      if data.None? {
        return;
      }
      var stored := data.value;
      var day := DayKey(date);
      var week := WeekKey(date);
      var month := MonthKey(date);
      if stored.currentDay == Some(day) {
        energyTodayWh := stored.energyTodayWh;
      } else {
        energyTodayWh := 0.0;
      }
      if stored.currentWeek == Some(week) {
        energyWeekWh := stored.energyWeekWh;
      } else {
        energyWeekWh := 0.0;
      }
      if stored.currentMonth == Some(month) {
        energyMonthWh := stored.energyMonthWh;
      } else {
        energyMonthWh := 0.0;
      }
      currentDay := Some(day);
      currentWeek := Some(week);
      currentMonth := Some(month);
    }
  }

  /** A counter saved on a valid date is restored on a valid date exactly when the two dates share that period. */
  lemma RestoreOnlySamePeriod(saved: LocalDate, today: LocalDate, wh: real)
    requires ValidDate(saved) && ValidDate(today)
    ensures Restored(Some(DayKey(saved)), DayKey(today), wh) == (if saved.year == today.year && saved.month == today.month && saved.day == today.day then wh else 0.0)
    ensures Restored(Some(WeekKey(saved)), WeekKey(today), wh) == (if saved.isoYear == today.isoYear && saved.isoWeek == today.isoWeek then wh else 0.0)
    ensures Restored(Some(MonthKey(saved)), MonthKey(today), wh) == (if saved.year == today.year && saved.month == today.month then wh else 0.0)
  {
    KeysIdentifyPeriods(saved, today);
  }
}
