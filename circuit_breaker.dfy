/**
 * The circuit breaker of app/circuit_breaker.py: a per-operation failure counter with three
 * states. A guarded call is rejected while the breaker is open and its recovery timeout has not
 * yet elapsed; otherwise the wrapped operation runs, a success resets the counter and closes the
 * breaker, and a failure bumps the counter and may open it. Every failure, whether a rejection or
 * a failed invocation, reaches the caller as `CircuitOpenException(service)`.
 *
 * The clock is a parameter: `now` is the reading taken on entry, `after` the second reading taken
 * when a failure opens the breaker.
 */
module CircuitBreakers {
  import opened Options

  /** The breaker's `state` field: "closed", "open" or "half-open". */
  datatype CircuitState = Closed | Open | HalfOpen

  /** What the wrapped operation does when it is invoked: return a value, or raise. */
  datatype Outcome<T> = Ok(value: T) | Fail

  /**
   * What a guarded call gives its caller. `Rejected` is the exception raised without running the
   * operation, `Unavailable` the one raised after it failed; both are
   * `CircuitOpenException(service)` to the caller.
   */
  datatype CallResult<T> = Success(value: T) | Rejected(service: string) | Unavailable(service: string)
  {
    /** The caller sees `CircuitOpenException`. */
    predicate IsCircuitOpen() { !Success? }
  }

  /** The value of a breaker: its configuration and its three mutable fields. */
  datatype Breaker = Breaker(
    service: string,
    failureThreshold: int,
    recoveryTimeout: int,
    failCount: nat,
    state: CircuitState,
    openSince: Option<int>)
  {
    /** `open_since` is set whenever the breaker is not closed (it is set on every move to open). */
    predicate Valid() { state != Closed ==> openSince.Some? }

    /** The breaker refuses to run the operation: open, and the timeout has not elapsed. */
    predicate Blocks(now: int)
      requires Valid()
    {
      state == Open && now - openSince.value < recoveryTimeout
    }
  }

  /** A freshly constructed breaker. */
  function Initial(service: string, failureThreshold: int, recoveryTimeout: int): Breaker
  {
    Breaker(service, failureThreshold, recoveryTimeout, 0, Closed, None)
  }

  /** The effect of one guarded call: the breaker afterwards, the caller's result, and whether the operation ran. */
  datatype Step<T> = Step(next: Breaker, result: CallResult<T>, invoked: bool)

  /**
   * One guarded call on breaker `b` at clock reading `now`, where `outcome` is what the operation
   * does if it is invoked and `after` is the clock reading taken after a failure.
   */
  function StepCall<T>(b: Breaker, now: int, outcome: Outcome<T>, after: int): (s: Step<T>)
    requires b.Valid()
    ensures s.next.Valid()
    ensures s.next.service == b.service
    ensures s.next.failureThreshold == b.failureThreshold && s.next.recoveryTimeout == b.recoveryTimeout
    // Open and within the timeout: rejected, the operation does not run, nothing changes.
    ensures b.Blocks(now) ==> s == Step(b, Rejected(b.service), false)
    // In every other case the operation runs (an open breaker passes through half-open).
    ensures !b.Blocks(now) ==> s.invoked
    // A success returns the operation's value unchanged, resets the counter and closes the breaker.
    ensures s.invoked && outcome.Ok? ==>
      s.result == Success(outcome.value) && s.next == b.(failCount := 0, state := Closed)
    // A failure is always surfaced as CircuitOpenException and adds exactly one to the counter.
    ensures s.invoked && outcome.Fail? ==>
      s.result == Unavailable(b.service) && s.next.failCount == b.failCount + 1
    // A failure of the half-open probe reopens the breaker at the post-call reading, whatever the count.
    ensures s.invoked && outcome.Fail? && b.state != Closed ==>
      s.next.state == Open && s.next.openSince == Some(after)
    // A failure while closed opens the breaker exactly when the new count reaches the threshold.
    ensures outcome.Fail? && b.state == Closed ==>
      (s.next.state == Open <==> b.failCount + 1 >= b.failureThreshold) &&
      (s.next.state == Open ==> s.next.openSince == Some(after)) &&
      (s.next.state != Open ==> s.next.state == Closed && s.next.openSince == b.openSince)
  {
    if b.Blocks(now) then
      Step(b, Rejected(b.service), false)
    else
      var entered := if b.state == Open then HalfOpen else b.state;
      match outcome
      case Ok(v) =>
        Step(b.(failCount := 0, state := Closed), Success(v), true)
      case Fail =>
        var count := b.failCount + 1;
        if entered == HalfOpen || count >= b.failureThreshold then
          Step(b.(failCount := count, state := Open, openSince := Some(after)), Unavailable(b.service), true)
        else
          Step(b.(failCount := count, state := entered), Unavailable(b.service), true)
  }

  /** One call through a breaker: the clock on entry, what the operation does, the clock after. */
  datatype Attempt<T> = Attempt(now: int, outcome: Outcome<T>, after: int)

  /** The breaker after a sequence of guarded calls, oldest first. */
  function Run<T>(b: Breaker, attempts: seq<Attempt<T>>): (r: Breaker)
    requires b.Valid()
    ensures r.Valid()
    ensures r.service == b.service
    ensures r.failureThreshold == b.failureThreshold && r.recoveryTimeout == b.recoveryTimeout
    decreases |attempts|
  {
    if attempts == [] then b
    else
      var last := attempts[|attempts| - 1];
      StepCall(Run(b, attempts[..|attempts| - 1]), last.now, last.outcome, last.after).next
  }

  /** Every call in `attempts` fails when invoked. */
  predicate AllFail<T>(attempts: seq<Attempt<T>>)
  {
    forall i :: 0 <= i < |attempts| ==> attempts[i].outcome.Fail?
  }

  /** Failures while closed only count up, as long as they stay below the threshold. */
  lemma {:induction false} FailuresBelowThresholdCount<T>(b: Breaker, attempts: seq<Attempt<T>>)
    requires b.Valid() && b.state == Closed && AllFail(attempts)
    requires b.failCount + |attempts| < b.failureThreshold
    ensures Run(b, attempts) == b.(failCount := b.failCount + |attempts|)
  {
    if attempts != [] {
      var init := attempts[..|attempts| - 1];
      assert AllFail(init) by {
        forall i | 0 <= i < |init| ensures init[i].outcome.Fail? {
          assert init[i] == attempts[i];
        }
      }
      FailuresBelowThresholdCount(b, init);
      assert attempts[|attempts| - 1].outcome.Fail?;
    }
  }

  /**
   * Starting from a fresh breaker, `failureThreshold` consecutive failures open it at the last
   * failure's post-call reading, and the next call before the timeout is rejected without running
   * the operation and without changing the breaker.
   */
  lemma {:induction false} ThresholdFailuresOpen<T>(
    service: string, threshold: int, timeout: int, attempts: seq<Attempt<T>>,
    now: int, next: Outcome<T>, after: int)
    requires threshold >= 1 && |attempts| == threshold && AllFail(attempts)
    requires now - attempts[|attempts| - 1].after < timeout
    ensures var r := Run(Initial(service, threshold, timeout), attempts);
      r.state == Open && r.failCount == threshold &&
      r.openSince == Some(attempts[|attempts| - 1].after) &&
      StepCall(r, now, next, after) == Step(r, Rejected(service), false)
  {
    var b := Initial(service, threshold, timeout);
    var init := attempts[..|attempts| - 1];
    assert AllFail(init) by {
      forall i | 0 <= i < |init| ensures init[i].outcome.Fail? {
        assert init[i] == attempts[i];
      }
    }
    FailuresBelowThresholdCount(b, init);
    assert attempts[|attempts| - 1].outcome.Fail?;
  }

  /** The mutable breaker object; its behaviour is `StepCall` on its value. */
  class CircuitBreaker {
    const service: string
    const failureThreshold: int
    const recoveryTimeout: int
    var failCount: nat
    var state: CircuitState
    var openSince: Option<int>

    /** The breaker's current value. */
    function Value(): Breaker
      reads this
    {
      Breaker(service, failureThreshold, recoveryTimeout, failCount, state, openSince)
    }

    predicate Valid()
      reads this
    {
      Value().Valid()
    }

    /** A new breaker is closed, has counted no failure and has no `open_since`. */
    constructor (service: string, failureThreshold: int := 5, recoveryTimeout: int := 30)
      ensures Valid()
      ensures Value() == Initial(service, failureThreshold, recoveryTimeout)
    {
      this.service := service;
      this.failureThreshold := failureThreshold;
      this.recoveryTimeout := recoveryTimeout;
      failCount := 0;
      state := Closed;
      openSince := None;
    }

    /**
     * `call`: run the operation (whose behaviour is `outcome`) under the breaker. Returns what
     * the caller sees and whether the operation was invoked.
     */
    method Call<T>(now: int, outcome: Outcome<T>, after: int) returns (r: CallResult<T>, invoked: bool)
      requires Valid()
      modifies this
      ensures Valid()
      ensures Step(Value(), r, invoked) == StepCall(old(Value()), now, outcome, after)
    {
      if state == Open {
        if now - openSince.value >= recoveryTimeout {
          state := HalfOpen;
        } else {
          return Rejected(service), false;
        }
      }
      invoked := true;
      match outcome {
        case Fail =>
          failCount := failCount + 1;
          if state == HalfOpen {
            state := Open;
            openSince := Some(after);
            return Unavailable(service), invoked;
          }
          if failCount >= failureThreshold {
            state := Open;
            openSince := Some(after);
            return Unavailable(service), invoked;
          }
          r := Unavailable(service);
        case Ok(v) =>
          failCount := 0;
          state := Closed;
          r := Success(v);
      }
    }
  }
}
