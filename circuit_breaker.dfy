/**
 * The circuit breaker that guards repeated failures of an operation
 * (error_handling_service.py). Times are seconds on a real line; the wall
 * clock the source reads is the `now` parameter of each operation.
 *
 * The transition rules are stated once, as functions on a `Breaker` value;
 * the `CircuitBreaker` class holds the same fields, updates them in place and
 * is proved to follow those functions.
 */
module CircuitBreakers {
  import opened Common

  datatype BreakerState = Closed | Open | HalfOpen

  datatype ErrorType =
    | Configuration | ApiError | NetworkError | MlTraining | MlPrediction
    | DataIntegrity | JsonOperation | SensorError | Dependency | Unknown

  /** Thresholds fixed at construction; the timeout is whole seconds. */
  datatype Config = Config(failureThreshold: int, successThreshold: int, openTimeout: int)

  /** The mutable part of a breaker. */
  datatype Breaker = Breaker(
    state: BreakerState,
    failureCount: nat,
    successCount: nat,
    lastFailureTime: Option<real>,
    openedAt: Option<real>,
    lastStateChange: real,
    errorTypeCounts: map<ErrorType, nat>)

  /** The constructor's guard: every threshold and the timeout at least 1. */
  predicate ConfigAccepted(c: Config)
  {
    c.failureThreshold >= 1 && c.successThreshold >= 1 && c.openTimeout >= 1
  }

  /**
   * What the transition rules keep true: opened_at is recorded exactly while
   * OPEN, a CLOSED breaker has not yet reached its failure threshold, a
   * HALF_OPEN one has not yet reached its success threshold.
   */
  ghost predicate Inv(c: Config, b: Breaker)
  {
    && (b.openedAt.Some? <==> b.state == Open)
    && (b.state == Open ==> b.openedAt == Some(b.lastStateChange) && b.failureCount == 0 && b.successCount == 0)
    && (b.state == Closed ==> b.failureCount < c.failureThreshold && b.successCount == 0)
    && (b.state == HalfOpen ==> b.successCount < c.successThreshold && b.failureCount == 0)
  }

  function Initial(now: real): (b: Breaker)
    ensures b.state == Closed && b.failureCount == 0 && b.successCount == 0
    ensures b.lastFailureTime.None? && b.openedAt.None? && b.errorTypeCounts == map[]
  {
    Breaker(Closed, 0, 0, None, None, now, map[])
  }

  function Count(m: map<ErrorType, nat>, e: ErrorType): nat
  {
    if e in m then m[e] else 0
  }

  /** `_change_state`: only a real change of state does anything. */
  function ChangeState(b: Breaker, s: BreakerState, now: real): (r: Breaker)
    ensures r.state == s
    ensures b.state == s ==> r == b
    ensures b.state != s ==>
      && r.failureCount == 0 && r.successCount == 0
      && r.lastStateChange == now
      && (r.openedAt.Some? <==> s == Open)
      && (s == Open ==> r.openedAt == Some(now))
      && (s == Closed ==> r.errorTypeCounts == map[])
      && (s != Closed ==> r.errorTypeCounts == b.errorTypeCounts)
      && r.lastFailureTime == b.lastFailureTime
  {
    if b.state == s then b
    else
      b.(state := s, lastStateChange := now, failureCount := 0, successCount := 0,
         openedAt := if s == Open then Some(now) else None,
         errorTypeCounts := if s == Closed then map[] else b.errorTypeCounts)
  }

  /** Whether `allow_request` lets the call through. */
  predicate Allowed(c: Config, b: Breaker, now: real)
  {
    match b.state
    case Closed => true
    case HalfOpen => true
    case Open => b.openedAt.Some? && now - b.openedAt.value >= c.openTimeout as real
  }

  /** The breaker after `allow_request`: OPEN becomes HALF_OPEN once the timeout has run out. */
  function AfterAllow(c: Config, b: Breaker, now: real): (r: Breaker)
    ensures b.state != Open ==> r == b
    ensures b.state == Open && Allowed(c, b, now) ==> r.state == HalfOpen && r.openedAt.None?
    ensures b.state == Open && !Allowed(c, b, now) ==> r == b
  {
    if b.state == Open && Allowed(c, b, now) then ChangeState(b, HalfOpen, now) else b
  }

  /** `record_success`. */
  function RecordSuccess(c: Config, b: Breaker, now: real): (r: Breaker)
    ensures b.state != HalfOpen ==> r == b
    ensures b.state == HalfOpen && b.successCount + 1 >= c.successThreshold ==> r.state == Closed
    ensures b.state == HalfOpen && b.successCount + 1 < c.successThreshold ==>
      r.state == HalfOpen && r.successCount == b.successCount + 1
  {
    if b.state == HalfOpen then
      var b1 := b.(successCount := b.successCount + 1);
      if b1.successCount >= c.successThreshold then ChangeState(b1, Closed, now) else b1
    else b
  }

  /** `record_failure(error_type)`. */
  function RecordFailure(c: Config, b: Breaker, now: real, e: ErrorType): (r: Breaker)
    ensures r.lastFailureTime == Some(now)
    ensures r.errorTypeCounts == b.errorTypeCounts[e := Count(b.errorTypeCounts, e) + 1]
    ensures b.state == HalfOpen ==> r.state == Open
    ensures e == Configuration ==> r.state == Open
    ensures b.state == Closed && b.failureCount + 1 >= c.failureThreshold ==> r.state == Open
    ensures b.state == Closed && b.failureCount + 1 < c.failureThreshold && e != Configuration ==>
      r.state == Closed && r.failureCount == b.failureCount + 1
    ensures b.state == Open ==> r.state == Open && r.openedAt == b.openedAt
  {
    var b1 := b.(lastFailureTime := Some(now),
                 errorTypeCounts := b.errorTypeCounts[e := Count(b.errorTypeCounts, e) + 1]);
    var b2 :=
      if b1.state == Closed then
        var b3 := b1.(failureCount := b1.failureCount + 1);
        if b3.failureCount >= c.failureThreshold then ChangeState(b3, Open, now) else b3
      else if b1.state == HalfOpen then ChangeState(b1, Open, now)
      else b1;
    if e == Configuration && b2.state != Open then ChangeState(b2, Open, now) else b2
  }

  /** `reset`: back to CLOSED and the last failure forgotten. */
  function Reset(b: Breaker, now: real): (r: Breaker)
    ensures r.state == Closed && r.lastFailureTime.None?
    ensures b.state != Closed ==> r.openedAt.None? && r.failureCount == 0 && r.errorTypeCounts == map[]
    ensures b.state == Closed ==> r == b.(lastFailureTime := None)
  {
    ChangeState(b, Closed, now).(lastFailureTime := None)
  }

  lemma InitialInv(c: Config, now: real)
    requires ConfigAccepted(c)
    ensures Inv(c, Initial(now))
  {
  }

  /** Every operation keeps the invariant. */
  lemma OperationsKeepInv(c: Config, b: Breaker, now: real, e: ErrorType)
    requires ConfigAccepted(c) && Inv(c, b)
    ensures Inv(c, AfterAllow(c, b, now))
    ensures Inv(c, RecordSuccess(c, b, now))
    ensures Inv(c, RecordFailure(c, b, now, e))
    ensures Inv(c, Reset(b, now))
  {
  }

  /** A request is refused exactly while OPEN and the timeout has not run out. */
  lemma OpenBlocksUntilTimeout(c: Config, b: Breaker, now: real)
    requires ConfigAccepted(c) && Inv(c, b) && b.state == Open
    ensures Allowed(c, b, now) <==> now >= b.lastStateChange + c.openTimeout as real
    ensures Allowed(c, b, now) ==> AfterAllow(c, b, now).state == HalfOpen
    ensures !Allowed(c, b, now) ==> AfterAllow(c, b, now) == b
  {
  }

  /** The breaker after a series of failures of one type, at the given times. */
  function RecordFailures(c: Config, b: Breaker, times: seq<real>, e: ErrorType): (r: Breaker)
    decreases |times|
  {
    if times == [] then b
    else RecordFailures(c, RecordFailure(c, b, times[0], e), times[1..], e)
  }

  /**
   * Starting CLOSED, k non-configuration failures with k below the threshold
   * leave the breaker CLOSED with failure count k more.
   */
  lemma {:induction false} FailuresBelowThresholdStayClosed(c: Config, b: Breaker, times: seq<real>, e: ErrorType)
    requires ConfigAccepted(c) && Inv(c, b) && b.state == Closed && e != Configuration
    requires b.failureCount + |times| < c.failureThreshold
    ensures RecordFailures(c, b, times, e).state == Closed
    ensures RecordFailures(c, b, times, e).failureCount == b.failureCount + |times|
    decreases |times|
  {
    if times != [] {
      var b1 := RecordFailure(c, b, times[0], e);
      OperationsKeepInv(c, b, times[0], e);
      FailuresBelowThresholdStayClosed(c, b1, times[1..], e);
    }
  }

  /**
   * From a fresh CLOSED breaker, failure_threshold consecutive failures of
   * one non-configuration type open it.
   */
  lemma {:induction false} ThresholdFailuresOpen(c: Config, b: Breaker, times: seq<real>, e: ErrorType)
    requires ConfigAccepted(c) && Inv(c, b) && b.state == Closed && e != Configuration
    requires |times| > 0 && b.failureCount + |times| == c.failureThreshold
    ensures RecordFailures(c, b, times, e).state == Open
  {
    var last := |times| - 1;
    FailuresBelowThresholdStayClosed(c, b, times[..last], e);
    RecordFailuresSplit(c, b, times[..last], [times[last]], e);
    assert times[..last] + [times[last]] == times;
  }

  lemma {:induction false} RecordFailuresSplit(c: Config, b: Breaker, xs: seq<real>, ys: seq<real>, e: ErrorType)
    ensures RecordFailures(c, b, xs + ys, e) == RecordFailures(c, RecordFailures(c, b, xs, e), ys, e)
    decreases |xs|
  {
    if xs != [] {
      assert (xs + ys)[0] == xs[0];
      assert (xs + ys)[1..] == xs[1..] + ys;
      RecordFailuresSplit(c, RecordFailure(c, b, xs[0], e), xs[1..], ys, e);
    } else {
      assert xs + ys == ys;
    }
  }

  /** The breaker after a series of successes at the given times. */
  function RecordSuccesses(c: Config, b: Breaker, times: seq<real>): (r: Breaker)
    decreases |times|
  {
    if times == [] then b
    else RecordSuccesses(c, RecordSuccess(c, b, times[0]), times[1..])
  }

  /** A success while CLOSED (or OPEN) changes nothing, however many there are. */
  lemma {:induction false} SuccessesOutsideHalfOpenChangeNothing(c: Config, b: Breaker, times: seq<real>)
    requires b.state != HalfOpen
    ensures RecordSuccesses(c, b, times) == b
    decreases |times|
  {
    if times != [] {
      SuccessesOutsideHalfOpenChangeNothing(c, RecordSuccess(c, b, times[0]), times[1..]);
    }
  }

  /**
   * In HALF_OPEN, success_threshold successes (counting those already seen)
   * close the breaker, and every later success leaves it CLOSED.
   */
  lemma {:induction false} ThresholdSuccessesClose(c: Config, b: Breaker, times: seq<real>)
    requires ConfigAccepted(c) && Inv(c, b) && b.state == HalfOpen
    requires b.successCount + |times| >= c.successThreshold
    ensures RecordSuccesses(c, b, times).state == Closed
    decreases |times|
  {
    var b1 := RecordSuccess(c, b, times[0]);
    OperationsKeepInv(c, b, times[0], Unknown);
    if b1.state == Closed {
      SuccessesOutsideHalfOpenChangeNothing(c, b1, times[1..]);
    } else {
      ThresholdSuccessesClose(c, b1, times[1..]);
    }
  }

  /** The breaker object of the source; its fields are the `Breaker` value's. */
  class CircuitBreaker {
    const name: string
    const failureThreshold: int
    const successThreshold: int
    const openTimeout: int
    var state: BreakerState
    var failureCount: nat
    var successCount: nat
    var lastFailureTime: Option<real>
    var openedAt: Option<real>
    var lastStateChange: real
    var errorTypeCounts: map<ErrorType, nat>

    function Cfg(): Config
      reads this
    {
      Config(failureThreshold, successThreshold, openTimeout)
    }

    function Snapshot(): Breaker
      reads this
    {
      Breaker(state, failureCount, successCount, lastFailureTime, openedAt, lastStateChange, errorTypeCounts)
    }

    ghost predicate Valid()
      reads this
    {
      ConfigAccepted(Cfg()) && Inv(Cfg(), Snapshot())
    }

    /** `__init__`, after its guard has accepted the configuration. */
    constructor (name: string, failureThreshold: int, successThreshold: int, openTimeout: int, now: real)
      requires ConfigAccepted(Config(failureThreshold, successThreshold, openTimeout))
      ensures Valid()
      ensures Cfg() == Config(failureThreshold, successThreshold, openTimeout)
      ensures Snapshot() == Initial(now)
    {
      this.name := name;
      this.failureThreshold := failureThreshold;
      this.successThreshold := successThreshold;
      this.openTimeout := openTimeout;
      state := Closed;
      failureCount := 0;
      successCount := 0;
      lastFailureTime := None;
      openedAt := None;
      lastStateChange := now;
      errorTypeCounts := map[];
    }

    /** `__init__` with its ValueError: None when a threshold or the timeout is below 1. */
    static method Create(name: string, failureThreshold: int, successThreshold: int, openTimeout: int, now: real)
      returns (r: Option<CircuitBreaker>)
      ensures r.None? <==> failureThreshold < 1 || successThreshold < 1 || openTimeout < 1
      ensures r.Some? ==> fresh(r.value) && r.value.Valid() && r.value.Snapshot() == Initial(now)
    {
      if failureThreshold < 1 || successThreshold < 1 || openTimeout < 1 {
        return None;
      }
      var cb := new CircuitBreaker(name, failureThreshold, successThreshold, openTimeout, now);
      return Some(cb);
    }

    method ChangeStateTo(s: BreakerState, now: real)
      modifies this
      ensures Cfg() == old(Cfg()) && Snapshot() == ChangeState(old(Snapshot()), s, now)
    {
      if state != s {
        state := s;
        lastStateChange := now;
        failureCount := 0;
        successCount := 0;
        openedAt := if s == Open then Some(now) else None;
        if s == Closed {
          errorTypeCounts := map[];
        }
      }
    }

    method AllowRequest(now: real) returns (allowed: bool)
      requires Valid()
      modifies this
      ensures Valid() && Cfg() == old(Cfg())
      ensures allowed == Allowed(Cfg(), old(Snapshot()), now)
      ensures Snapshot() == AfterAllow(Cfg(), old(Snapshot()), now)
    {
      OperationsKeepInv(Cfg(), Snapshot(), now, Unknown);
      match state
      case Closed => allowed := true;
      case Open =>
        if openedAt.Some? && now - openedAt.value >= openTimeout as real {
          ChangeStateTo(HalfOpen, now);
          allowed := true;
        } else {
          allowed := false;
        }
      case HalfOpen => allowed := true;
    }

    method RecordSuccessAt(now: real)
      requires Valid()
      modifies this
      ensures Valid() && Cfg() == old(Cfg())
      ensures Snapshot() == RecordSuccess(Cfg(), old(Snapshot()), now)
    {
      OperationsKeepInv(Cfg(), Snapshot(), now, Unknown);
      if state == HalfOpen {
        successCount := successCount + 1;
        if successCount >= successThreshold {
          ChangeStateTo(Closed, now);
        }
      }
    }

    method RecordFailureAt(now: real, e: ErrorType)
      requires Valid()
      modifies this
      ensures Valid() && Cfg() == old(Cfg())
      ensures Snapshot() == RecordFailure(Cfg(), old(Snapshot()), now, e)
    {
      OperationsKeepInv(Cfg(), Snapshot(), now, e);
      lastFailureTime := Some(now);
      errorTypeCounts := errorTypeCounts[e := Count(errorTypeCounts, e) + 1];
      if state == Closed {
        failureCount := failureCount + 1;
        if failureCount >= failureThreshold {
          ChangeStateTo(Open, now);
        }
      } else if state == HalfOpen {
        ChangeStateTo(Open, now);
      }
      if e == Configuration && state != Open {
        ChangeStateTo(Open, now);
      }
    }

    method ResetAt(now: real)
      requires Valid()
      modifies this
      ensures Valid() && Cfg() == old(Cfg())
      ensures Snapshot() == Reset(old(Snapshot()), now)
    {
      OperationsKeepInv(Cfg(), Snapshot(), now, Unknown);
      ChangeStateTo(Closed, now);
      lastFailureTime := None;
    }
  }
}
