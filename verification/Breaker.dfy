/** The circuit breaker: creates stop for a growing cooldown after consecutive failures. */
module Breaker {
  import opened Basics
  import opened Backoff

  const CIRCUIT_BREAKER_THRESHOLD: nat := 3
  const CIRCUIT_BREAKER_COOLDOWN: Time := 5 * MINUTE
  const CIRCUIT_BREAKER_MAX_COOLDOWN: Time := 30 * MINUTE
  const CIRCUIT_BREAKER_JITTER: nat := 25

  /** The end of one create attempt. */
  datatype Event = Failed(at: Time, u: Random) | Succeeded(at: Time)

  datatype State = State(failures: nat, until: Time, bo: BackOff) {

    predicate Valid() {
      && bo.Valid() && bo.initial == CIRCUIT_BREAKER_COOLDOWN && bo.max == CIRCUIT_BREAKER_MAX_COOLDOWN
      && bo.percent == CIRCUIT_BREAKER_JITTER
    }

    /** Dispatch holds creates back. */
    predicate Blocks(now: Time) {
      failures >= CIRCUIT_BREAKER_THRESHOLD && now < until
    }

    function After(e: Event): (s: State)
      requires Valid()
      ensures s.Valid()
    {
      match e
      case Failed(at, u) =>
        if failures + 1 < CIRCUIT_BREAKER_THRESHOLD || at < until then this.(failures := failures + 1)
        else State(failures + 1, at + bo.Draw(u), bo.Grown())
      case Succeeded(_) => this.(failures := 0, bo := bo.Reset())
    }
  }

  const CLOSED := State(0, 0, New(CIRCUIT_BREAKER_COOLDOWN, CIRCUIT_BREAKER_MAX_COOLDOWN, CIRCUIT_BREAKER_JITTER))

  type Live = s: State | s.Valid() witness CLOSED

  function Run(events: seq<Event>): (s: State)
    ensures s.Valid()
  {
    if events == [] then CLOSED else Run(events[..|events| - 1]).After(events[|events| - 1])
  }

  /** Failed creates since the last one that succeeded. */
  function FailuresSinceSuccess(events: seq<Event>): nat {
    if events == [] || events[|events| - 1].Succeeded? then 0 else FailuresSinceSuccess(events[..|events| - 1]) + 1
  }

  /** Event i trips the breaker: it moves the end of the cooldown. */
  predicate Trips(events: seq<Event>, i: nat)
    requires i < |events|
  {
    Run(events[..i + 1]).until != Run(events[..i]).until
  }

  function TripsSinceSuccess(events: seq<Event>): nat {
    if events == [] || events[|events| - 1].Succeeded? then 0
    else TripsSinceSuccess(events[..|events| - 1]) + if Trips(events, |events| - 1) then 1 else 0
  }

  /** The counter and the backoff say how many failures and trips followed the last success. */
  lemma {:induction false} CountsAreExact(events: seq<Event>)
    ensures Run(events).failures == FailuresSinceSuccess(events)
    ensures Run(events).bo.After(TripsSinceSuccess(events))
  {
    if events != [] {
      var i := |events| - 1;
      CountsAreExact(events[..i]);
      assert events[..i + 1] == events;
      Run(events[..i]).bo.GrownAfter(TripsSinceSuccess(events[..i]));
    }
  }

  /**
   * A trip is exactly a failure that reaches the threshold outside any cooldown. The n-th since a success
   * lasts min(5min * 2^(n-1), 30min) up to a quarter either way.
   */
  lemma TripExactly(events: seq<Event>, e: Event)
    ensures var was, now := Run(events), Run(events + [e]);
            && (Trips(events + [e], |events|) <==>
                  e.Failed? && FailuresSinceSuccess(events) + 1 >= CIRCUIT_BREAKER_THRESHOLD && e.at >= was.until)
            && (Trips(events + [e], |events|) ==>
                  && now.Blocks(e.at)
                  && Jittered(now.until - e.at,
                              Capped(CIRCUIT_BREAKER_COOLDOWN, CIRCUIT_BREAKER_MAX_COOLDOWN, TripsSinceSuccess(events)),
                              CIRCUIT_BREAKER_JITTER))
            && now.until >= was.until
  {
    assert (events + [e])[..|events|] == events;
    assert (events + [e])[..|events| + 1] == events + [e];
    CountsAreExact(events);
  }

  /** The cooldown's end never moves back over a whole run. */
  lemma {:induction false} UntilNeverDecreases(events: seq<Event>, i: nat)
    requires i <= |events|
    ensures Run(events[..i]).until <= Run(events).until
    decreases |events| - i
  {
    if i == |events| {
      assert events[..i] == events;
    } else {
      UntilNeverDecreases(events, i + 1);
      assert events[..i + 1] == events[..i] + [events[i]];
      TripExactly(events[..i], events[i]);
    }
  }

  class CircuitBreaker {
    var consecutiveCreateFailures: nat
    var circuitBreakerUntil: Time
    var cbBackoff: BackOff

    ghost function View(): State
      reads this
    {
      State(consecutiveCreateFailures, circuitBreakerUntil, cbBackoff)
    }

    constructor ()
      ensures View() == CLOSED
    {
      consecutiveCreateFailures, circuitBreakerUntil := 0, 0;
      cbBackoff := New(CIRCUIT_BREAKER_COOLDOWN, CIRCUIT_BREAKER_MAX_COOLDOWN, CIRCUIT_BREAKER_JITTER);
    }

    method RecordCreateFailure(now: Time, u: Random)
      requires View().Valid()
      modifies this
      ensures View() == old(View()).After(Failed(now, u))
    {
      consecutiveCreateFailures := consecutiveCreateFailures + 1;
      if consecutiveCreateFailures < CIRCUIT_BREAKER_THRESHOLD || now < circuitBreakerUntil {
        return;
      }
      var cooldown := cbBackoff.Draw(u);
      cbBackoff := cbBackoff.Grown();
      circuitBreakerUntil := now + cooldown;
    }

    method RecordCreateSuccess(now: Time)
      requires View().Valid()
      modifies this
      ensures View() == old(View()).After(Succeeded(now))
    {
      consecutiveCreateFailures := 0;
      cbBackoff := cbBackoff.Reset();
    }
  }
}
