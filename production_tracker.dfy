/**
 * The live production-time tracker (production/production_tracker.py): a
 * small state machine driven by the inverter's power readings. A phase starts
 * when the power reaches 10 W and ends once the power has stayed below 10 W
 * (or the sensor has been unavailable) for more than five minutes; the hours
 * of finished phases accumulate until midnight.
 *
 * Times are seconds on the local clock, as reals; the clock is a parameter of
 * every handler. Loading and saving the state, the Home Assistant listeners
 * and the peak-power update are not part of this model.
 */
module ProductionTracking {
  import opened Common

  /** MIN_POWER_THRESHOLD_W: the power that starts a phase. */
  const MinPowerThresholdW: real := 10.0
  /** ZERO_POWER_THRESHOLD_W: the power below which a phase may end. */
  const ZeroPowerThresholdW: real := 10.0
  /** ZERO_POWER_TIMEOUT, five minutes in seconds. */
  const ZeroPowerTimeoutSeconds: real := 300.0

  /** The hours between two instants given in seconds. */
  function HoursBetween(from: real, to: real): (h: real)
    ensures from <= to ==> h >= 0.0
    ensures h * 3600.0 == to - from
  {
    (to - from) / 3600.0
  }

  /**
   * `get_production_time` before formatting: whole hours, minutes and
   * seconds of a duration given in hours, each truncated as `int()` does.
   */
  function Clock(totalHours: real): (hms: (int, int, int))
  {
    var hours := Trunc(totalHours);
    var minutes := Trunc((totalHours - hours as real) * 60.0);
    var seconds := Trunc(((totalHours - hours as real) * 60.0 - minutes as real) * 60.0);
    (hours, minutes, seconds)
  }

  /**
   * For a non-negative duration the minutes and seconds lie in 0..59, and
   * the clock reading is the duration rounded down to a whole second.
   */
  lemma ClockReading(totalHours: real)
    requires totalHours >= 0.0
    ensures var (h, m, s) := Clock(totalHours);
      && h >= 0 && 0 <= m < 60 && 0 <= s < 60
      && (h * 3600 + m * 60 + s) as real <= totalHours * 3600.0 < (h * 3600 + m * 60 + s + 1) as real
  {
    var (h, m, s) := Clock(totalHours);
    var f := totalHours - h as real;
    assert 0.0 <= f < 1.0;
    var g := f * 60.0 - m as real;
    assert 0.0 <= g < 1.0;
    assert totalHours * 3600.0 == h as real * 3600.0 + m as real * 60.0 + g * 60.0;
  }

  class ProductionTimeCalculator {
    var isActive: bool
    var startTime: Option<real>
    var accumulatedHours: real
    var zeroPowerStart: Option<real>
    var todayTotalHours: real
    var endTime: Option<real>
    var lastPowerAbove10w: Option<real>
    var zeroPowerStreakMinutes: int
    var needsSave: bool

    /** An active phase has a start time, and the zero-power timer only runs during one. */
    ghost predicate Valid()
      reads this
    {
      (isActive ==> startTime.Some?) && (!isActive ==> zeroPowerStart.None?)
    }

    /** A tracker that has recorded nothing. */
    constructor ()
      ensures Valid()
      ensures !isActive && startTime.None? && accumulatedHours == 0.0 && zeroPowerStart.None?
      ensures todayTotalHours == 0.0 && endTime.None? && lastPowerAbove10w.None?
      ensures zeroPowerStreakMinutes == 0 && !needsSave
    {
      isActive := false;
      startTime := None;
      accumulatedHours := 0.0;
      zeroPowerStart := None;
      todayTotalHours := 0.0;
      endTime := None;
      lastPowerAbove10w := None;
      zeroPowerStreakMinutes := 0;
      needsSave := false;
    }

    /** `get_production_hours`: the finished phases plus the running one up to `now`. */
    function ProductionHours(now: real): (h: real)
      reads this
      ensures !isActive || startTime.None? ==> h == accumulatedHours
      ensures isActive && startTime.Some? && startTime.value <= now ==> h >= accumulatedHours
    {
      accumulatedHours + if isActive && startTime.Some? then HoursBetween(startTime.value, now) else 0.0
    }

    /** `is_currently_producing`. */
    function IsCurrentlyProducing(): (b: bool)
      reads this
      ensures b <==> isActive
    {
      isActive
    }

    /** `_start_production_tracking`: a phase opens at `now`, with no zero-power timer. */
    method StartTracking(now: real)
      modifies this
      ensures isActive && startTime == Some(now) && lastPowerAbove10w == Some(now)
      ensures zeroPowerStreakMinutes == 0 && zeroPowerStart.None? && needsSave
      ensures accumulatedHours == old(accumulatedHours) && todayTotalHours == old(todayTotalHours)
      ensures endTime == old(endTime)
      ensures Valid()
      ensures !old(isActive) ==> ProductionHours(now) == old(ProductionHours(now))
    {
      isActive := true;
      startTime := Some(now);
      lastPowerAbove10w := Some(now);
      zeroPowerStreakMinutes := 0;
      zeroPowerStart := None;
      needsSave := true;
    }

    /**
     * `_stop_production_tracking`: nothing happens without an active phase;
     * otherwise the phase's hours join the accumulated ones and the phase
     * closes at `now`. Stopping never changes the day's total at that moment.
     */
    method StopTracking(now: real)
      requires Valid()
      modifies this
      ensures Valid()
      ensures !old(isActive) ==> unchanged(this)
      ensures old(isActive) ==>
        && !isActive && startTime.None? && endTime == Some(now) && zeroPowerStart.None? && needsSave
        && accumulatedHours == old(accumulatedHours) + HoursBetween(old(startTime).value, now)
        && lastPowerAbove10w == old(lastPowerAbove10w) && zeroPowerStreakMinutes == old(zeroPowerStreakMinutes)
        && todayTotalHours == old(todayTotalHours)
      ensures ProductionHours(now) == old(ProductionHours(now))
    {
      if !isActive {
        return;
      }
      if startTime.Some? {
        var hoursInPhase := HoursBetween(startTime.value, now);
        accumulatedHours := accumulatedHours + hoursInPhase;
      }
      isActive := false;
      startTime := None;
      endTime := Some(now);
      zeroPowerStart := None;
      needsSave := true;
    }

    /**
     * The shared low-power and unavailable branch: the first such reading of
     * an active phase starts the zero-power timer; once more than five
     * minutes have passed on it the phase stops.
     */
    method LowPowerWhileActive(now: real, updateStreak: bool)
      requires Valid() && isActive
      modifies this
      ensures Valid()
      ensures old(zeroPowerStart).None? ==>
        && isActive && zeroPowerStart == Some(now)
        && startTime == old(startTime) && accumulatedHours == old(accumulatedHours)
        && zeroPowerStreakMinutes == old(zeroPowerStreakMinutes)
      ensures old(zeroPowerStart).Some? && now - old(zeroPowerStart).value > ZeroPowerTimeoutSeconds ==>
        && !isActive && endTime == Some(now) && startTime.None? && zeroPowerStart.None?
        && accumulatedHours == old(accumulatedHours) + HoursBetween(old(startTime).value, now)
      ensures old(zeroPowerStart).Some? && now - old(zeroPowerStart).value <= ZeroPowerTimeoutSeconds ==>
        && isActive && zeroPowerStart == old(zeroPowerStart) && startTime == old(startTime)
        && accumulatedHours == old(accumulatedHours)
        && zeroPowerStreakMinutes == (if updateStreak then Trunc((now - old(zeroPowerStart).value) / 60.0) else old(zeroPowerStreakMinutes))
      ensures todayTotalHours == old(todayTotalHours) && lastPowerAbove10w == old(lastPowerAbove10w)
      ensures needsSave == (old(needsSave) || !isActive)
    {
      if zeroPowerStart.None? {
        zeroPowerStart := Some(now);
      } else {
        var elapsed := now - zeroPowerStart.value;
        if elapsed > ZeroPowerTimeoutSeconds {
          StopTracking(now);
        } else if updateStreak {
          zeroPowerStreakMinutes := Trunc(elapsed / 60.0);
        }
      }
    }

    /**
     * `_handle_power_change` for one reading; `None` stands for a missing,
     * unavailable, unknown or unparseable state. At 10 W or more an idle
     * tracker starts a phase and an active one drops its zero-power timer;
     * below 10 W, or without a reading, an active phase ends only after the
     * timeout. Above 10 W the last-power time is refreshed.
     */
    method HandlePowerChange(power: Option<real>, now: real)
      requires Valid()
      modifies this
      ensures Valid()
      ensures power.None? && !old(isActive) ==> unchanged(this)
      ensures power.Some? && power.value >= MinPowerThresholdW && !old(isActive) ==>
        isActive && startTime == Some(now) && zeroPowerStart.None? && accumulatedHours == old(accumulatedHours)
      ensures power.Some? && power.value >= MinPowerThresholdW && old(isActive) ==>
        isActive && startTime == old(startTime) && zeroPowerStart.None? && accumulatedHours == old(accumulatedHours)
      ensures power.Some? && power.value < ZeroPowerThresholdW && !old(isActive) ==>
        !isActive && startTime == old(startTime) && accumulatedHours == old(accumulatedHours)
      ensures (power.None? || power.value < ZeroPowerThresholdW) && old(isActive) ==>
        (isActive <==> old(zeroPowerStart).None? || now - old(zeroPowerStart).value <= ZeroPowerTimeoutSeconds)
      ensures power.Some? && power.value > ZeroPowerThresholdW ==> lastPowerAbove10w == Some(now) && zeroPowerStreakMinutes == 0
      ensures power.Some? ==> needsSave
      ensures todayTotalHours == old(todayTotalHours)
      ensures ProductionHours(now) == old(ProductionHours(now))
    {
      if power.None? {
        if isActive {
          LowPowerWhileActive(now, false);
        }
        return;
      }
      var powerW := power.value;
      if powerW >= MinPowerThresholdW {
        if !isActive {
          StartTracking(now);
        } else if zeroPowerStart.Some? {
          zeroPowerStart := None;
        }
      } else if powerW < ZeroPowerThresholdW {
        if isActive {
          LowPowerWhileActive(now, true);
        }
      }
      if powerW > ZeroPowerThresholdW {
        lastPowerAbove10w := Some(now);
        zeroPowerStreakMinutes := 0;
      }
      needsSave := true;
    }

    /**
     * `_handle_midnight_reset`: the day's total is kept as `todayTotalHours`;
     * a running phase restarts at midnight; the accumulated hours, the end
     * time and the zero-power bookkeeping start afresh.
     */
    method MidnightReset(now: real, midnight: real)
      requires Valid()
      modifies this
      ensures Valid()
      ensures todayTotalHours == old(ProductionHours(now))
      ensures accumulatedHours == 0.0 && endTime.None? && zeroPowerStart.None? && lastPowerAbove10w.None?
      ensures zeroPowerStreakMinutes == 0 && needsSave
      ensures isActive == old(isActive)
      ensures startTime == if old(isActive) then Some(midnight) else old(startTime)
      ensures isActive ==> ProductionHours(now) == HoursBetween(midnight, now)
    {
      todayTotalHours := ProductionHours(now);
      if isActive && startTime.Some? {
        var timeToMidnight := HoursBetween(startTime.value, midnight);
        if timeToMidnight > 0.0 {
          accumulatedHours := accumulatedHours + timeToMidnight;
        }
        startTime := Some(midnight);
      }
      accumulatedHours := 0.0;
      zeroPowerStart := None;
      endTime := None;
      lastPowerAbove10w := None;
      zeroPowerStreakMinutes := 0;
      needsSave := true;
    }
  }
}
