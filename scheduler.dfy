/**
 * The consecutive-failure counter of the polling loop (`retry_count` in
 * `run_forever`), shared by both bots: what one pass of the loop does to the
 * counter and which sleeps it requests at its end.
 */
module Scheduler {

  /** `max_retries` in `run_forever`. */
  const MaxRetries: nat := 5

  /**
   * How a pass of the loop ended: the identity check failed (`continue`), the
   * pass ran to its end, or an exception reached the loop's `except`. An
   * exception raised after the successful identity check has reset the
   * counter to zero (`afterReset`) counts from zero, not from the counter at
   * the loop head.
   */
  datatype Outcome = LoginFailed | Completed | Raised(afterReset: bool)

  /**
   * The next value of the counter and the requested sleeps: a completed pass
   * resets the counter and sleeps the interval; a failed pass counts, and the
   * failure that reaches the threshold sleeps twice the interval once and
   * resets the counter. A failed identity check sleeps only at the threshold;
   * an exception after the reset leaves the counter at one and sleeps the
   * interval.
   */
  function Backoff(retryCount: nat, outcome: Outcome, checkInterval: nat): (r: (nat, seq<nat>))
    ensures retryCount < MaxRetries ==> r.0 < MaxRetries
    ensures outcome != Raised(true) ==> (r.0 == 0 <==> outcome == Completed || retryCount + 1 >= MaxRetries)
    ensures outcome == Raised(true) ==> r == (1, [checkInterval])
    ensures outcome == Completed ==> r == (0, [checkInterval])
    ensures outcome == LoginFailed && retryCount + 1 < MaxRetries ==> r == (retryCount + 1, [])
    ensures outcome == Raised(false) && retryCount + 1 < MaxRetries ==> r == (retryCount + 1, [checkInterval])
    ensures (outcome == LoginFailed || outcome == Raised(false)) && retryCount + 1 >= MaxRetries ==>
              r == (0, [checkInterval * 2])
    ensures |r.1| <= 1
  {
    match outcome
    case Completed => (0, [checkInterval])
    case LoginFailed =>
      if retryCount + 1 >= MaxRetries then (0, [checkInterval * 2]) else (retryCount + 1, [])
    case Raised(afterReset) =>
      var counted := (if afterReset then 0 else retryCount) + 1;
      if counted >= MaxRetries then (0, [checkInterval * 2]) else (counted, [checkInterval])
  }

  /** A run of passes: the final counter and all the sleeps, in order. */
  function Passes(retryCount: nat, outcomes: seq<Outcome>, checkInterval: nat): (nat, seq<nat>)
    decreases |outcomes|
  {
    if outcomes == [] then (retryCount, [])
    else
      var (r, sleeps) := Passes(retryCount, outcomes[..|outcomes| - 1], checkInterval);
      var (r', more) := Backoff(r, outcomes[|outcomes| - 1], checkInterval);
      (r', sleeps + more)
  }

  /** Failures that count from the counter at the loop head. */
  predicate AllFailures(outcomes: seq<Outcome>)
  {
    forall i :: 0 <= i < |outcomes| ==> outcomes[i] == LoginFailed || outcomes[i] == Raised(false)
  }

  /** `n` copies of `x`. */
  function Repeat(x: nat, n: nat): (r: seq<nat>)
    ensures |r| == n && forall i :: 0 <= i < n ==> r[i] == x
  {
    if n == 0 then [] else Repeat(x, n - 1) + [x]
  }

  /** The counter stays below the threshold at every loop head, whatever happened. */
  lemma {:induction false} PassesKeepCounterBelowMax(retryCount: nat, outcomes: seq<Outcome>, checkInterval: nat)
    requires retryCount < MaxRetries
    ensures Passes(retryCount, outcomes, checkInterval).0 < MaxRetries
    decreases |outcomes|
  {
    if outcomes != [] {
      PassesKeepCounterBelowMax(retryCount, outcomes[..|outcomes| - 1], checkInterval);
    }
  }

  /** After `n` consecutive counted failures from a fresh start the counter is `n mod 5`. */
  lemma {:induction false} ConsecutiveFailuresCount(outcomes: seq<Outcome>, checkInterval: nat)
    requires AllFailures(outcomes)
    ensures Passes(0, outcomes, checkInterval).0 == |outcomes| % MaxRetries
    decreases |outcomes|
  {
    if outcomes != [] {
      ConsecutiveFailuresCount(outcomes[..|outcomes| - 1], checkInterval);
    }
  }

  /**
   * `n` consecutive identity-check failures from a fresh start sleep only at
   * every fifth failure, each time for twice the interval.
   */
  lemma {:induction false} LoginFailuresSleepPattern(outcomes: seq<Outcome>, checkInterval: nat)
    requires forall i :: 0 <= i < |outcomes| ==> outcomes[i] == LoginFailed
    ensures Passes(0, outcomes, checkInterval).1 == Repeat(checkInterval * 2, |outcomes| / MaxRetries)
    decreases |outcomes|
  {
    if outcomes != [] {
      var init := outcomes[..|outcomes| - 1];
      LoginFailuresSleepPattern(init, checkInterval);
      ConsecutiveFailuresCount(init, checkInterval);
    }
  }

  /**
   * Reaching the threshold: the fifth consecutive counted failure
   * sleeps exactly twice the interval and the counter starts again from zero.
   */
  lemma ThresholdDoublesSleep(outcomes: seq<Outcome>, checkInterval: nat)
    requires |outcomes| == MaxRetries && AllFailures(outcomes)
    ensures Passes(0, outcomes, checkInterval).0 == 0
    ensures Passes(0, outcomes, checkInterval).1 ==
      Passes(0, outcomes[..MaxRetries - 1], checkInterval).1 + [checkInterval * 2]
  {
    ConsecutiveFailuresCount(outcomes[..MaxRetries - 1], checkInterval);
  }

  /** The sleep after the `i`-th of a run of exceptions raised before the reset: doubled at every fifth. */
  function RaisedSleep(i: nat, checkInterval: nat): nat
  {
    if (i + 1) % MaxRetries == 0 then checkInterval * 2 else checkInterval
  }

  /**
   * `n` consecutive exceptions raised before the counter reset, from a fresh
   * start, each sleep once: the plain interval, except twice the interval at
   * every fifth one.
   */
  lemma {:induction false} RaisedBeforeResetSleepPattern(outcomes: seq<Outcome>, checkInterval: nat)
    requires forall i :: 0 <= i < |outcomes| ==> outcomes[i] == Raised(false)
    ensures |Passes(0, outcomes, checkInterval).1| == |outcomes|
    ensures forall i :: 0 <= i < |outcomes| ==>
      Passes(0, outcomes, checkInterval).1[i] == RaisedSleep(i, checkInterval)
    decreases |outcomes|
  {
    if outcomes != [] {
      var init := outcomes[..|outcomes| - 1];
      RaisedBeforeResetSleepPattern(init, checkInterval);
      ConsecutiveFailuresCount(init, checkInterval);
    }
  }

  /**
   * Exceptions raised after the identity check succeeded never reach the
   * threshold: however many follow each other, the counter stays at one and
   * every pass sleeps the plain interval.
   */
  lemma {:induction false} RaisedAfterResetNeverDoubles(retryCount: nat, outcomes: seq<Outcome>, checkInterval: nat)
    requires |outcomes| > 0
    requires forall i :: 0 <= i < |outcomes| ==> outcomes[i] == Raised(true)
    ensures Passes(retryCount, outcomes, checkInterval) == (1, Repeat(checkInterval, |outcomes|))
    decreases |outcomes|
  {
    var init := outcomes[..|outcomes| - 1];
    if init != [] {
      RaisedAfterResetNeverDoubles(retryCount, init, checkInterval);
    }
  }
}
