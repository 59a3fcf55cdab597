/** The gate that pauses vCD work after the organization's operation limit is hit. */
module Throttle {
  import opened Basics
  import opened Backoff

  const THROTTLE_INITIAL_PAUSE: Time := 15 * SECOND
  const THROTTLE_MAX_PAUSE: Time := 5 * MINUTE
  const THROTTLE_JITTER: nat := 50

  /** What happens at a gate: an operation-limit rejection, or an operation that completed. */
  datatype Event = Rejected(at: Time, u: Random) | Succeeded(at: Time)

  /** The gate as a value: when the current pause ends, and the backoff. */
  datatype Gate = Gate(pausedUntil: Time, bo: BackOff) {

    predicate Valid() {
      && bo.Valid() && bo.initial == THROTTLE_INITIAL_PAUSE && bo.max == THROTTLE_MAX_PAUSE
      && bo.percent == THROTTLE_JITTER
    }

    /** A rejection at this time belongs to a pause that is already active. */
    predicate IsPaused(now: Time) {
      now < pausedUntil
    }

    function After(e: Event): (g: Gate)
      requires Valid()
      ensures g.Valid()
    {
      match e
      case Rejected(at, u) => if at < pausedUntil then this else Gate(at + bo.Draw(u), bo.Grown())
      case Succeeded(_) => this.(bo := bo.Reset())
    }
  }

  const OPEN_GATE := Gate(0, New(THROTTLE_INITIAL_PAUSE, THROTTLE_MAX_PAUSE, THROTTLE_JITTER))

  function Run(g: Gate, events: seq<Event>): (g': Gate)
    requires g.Valid()
    ensures g'.Valid()
  {
    if events == [] then g else Run(g, events[..|events| - 1]).After(events[|events| - 1])
  }

  /** This rejection starts a new pause: none is active when it arrives. */
  predicate StartsEpisode(events: seq<Event>, i: nat)
    requires i < |events|
  {
    events[i].Rejected? && events[i].at >= Run(OPEN_GATE, events[..i]).pausedUntil
  }

  /** Pauses started since the last completed operation. */
  function Episodes(events: seq<Event>): nat {
    if events == [] then 0
    else
      var i := |events| - 1;
      if events[i].Succeeded? then 0
      else if StartsEpisode(events, i) then Episodes(events[..i]) + 1
      else Episodes(events[..i])
  }

  /** After any events the next pause is drawn around min(15s * 2^k, 5min), k being the episodes since the last success. */
  lemma {:induction false} PauseGrowsPerEpisode(events: seq<Event>)
    ensures Run(OPEN_GATE, events).bo.After(Episodes(events))
  {
    if events != [] {
      var i := |events| - 1;
      PauseGrowsPerEpisode(events[..i]);
      Run(OPEN_GATE, events[..i]).bo.GrownAfter(Episodes(events[..i]));
    }
  }

  /** A new pause lasts between half and one and a half times the capped interval. */
  lemma EpisodePause(events: seq<Event>, e: Event)
    requires e.Rejected? && StartsEpisode(events + [e], |events|)
    ensures Jittered(Run(OPEN_GATE, events + [e]).pausedUntil - e.at,
                     Capped(THROTTLE_INITIAL_PAUSE, THROTTLE_MAX_PAUSE, Episodes(events)), THROTTLE_JITTER)
  {
    assert (events + [e])[..|events|] == events;
    PauseGrowsPerEpisode(events);
  }

  /** After a rejection that starts a pause the gate is closed for at least half the interval, and open after one and a half. */
  lemma PauseLasts(events: seq<Event>, e: Event, t: Time)
    requires e.Rejected? && StartsEpisode(events + [e], |events|)
    ensures var g, interval := Run(OPEN_GATE, events + [e]), Capped(THROTTLE_INITIAL_PAUSE, THROTTLE_MAX_PAUSE, Episodes(events));
            && (100 * (t - e.at) < (100 - THROTTLE_JITTER) * interval ==> g.IsPaused(t))
            && (100 * (t - e.at) >= (100 + THROTTLE_JITTER) * interval ==> !g.IsPaused(t))
  {
    EpisodePause(events, e);
  }

  /** Any number of rejections inside one pause leave the gate as it was. */
  lemma {:induction false} RejectionsInOnePauseCountOnce(g: Gate, events: seq<Event>)
    requires g.Valid()
    requires forall i :: 0 <= i < |events| ==> events[i].Rejected? && events[i].at < g.pausedUntil
    ensures Run(g, events) == g
  {
    if events != [] {
      RejectionsInOnePauseCountOnce(g, events[..|events| - 1]);
    }
  }

  /** The end of the pause never moves back, whatever the events and their times. */
  lemma {:induction false} PausedUntilNeverDecreases(g: Gate, events: seq<Event>)
    requires g.Valid()
    ensures Run(g, events).pausedUntil >= g.pausedUntil
  {
    if events != [] {
      PausedUntilNeverDecreases(g, events[..|events| - 1]);
    }
  }

  class ThrottleGate {
    var bo: BackOff
    var pausedUntil: Time

    ghost function State(): Gate
      reads this
    {
      Gate(pausedUntil, bo)
    }

    ghost predicate Valid()
      reads this
    {
      State().Valid()
    }

    constructor ()
      ensures Valid() && State() == OPEN_GATE
    {
      bo := New(THROTTLE_INITIAL_PAUSE, THROTTLE_MAX_PAUSE, THROTTLE_JITTER);
      pausedUntil := 0;
    }

    method Throttled(now: Time, u: Random)
      requires Valid()
      modifies this
      ensures Valid() && State() == old(State()).After(Event.Rejected(now, u))
    {
      if now < pausedUntil {
        return;
      }
      var pause := bo.Draw(u);
      bo := bo.Grown();
      pausedUntil := now + pause;
    }

    method Succeeded(now: Time)
      requires Valid()
      modifies this
      ensures Valid() && State() == old(State()).After(Event.Succeeded(now))
    {
      bo := bo.Reset();
    }

    /** The gate is paused exactly when a rejection now would change nothing; else it would start a pause. */
    method Paused(now: Time) returns (paused: bool)
      requires Valid()
      ensures paused <==> forall u: Random :: State().After(Event.Rejected(now, u)) == State()
      ensures !paused ==> forall u: Random :: State().After(Event.Rejected(now, u)).IsPaused(now)
    {
      paused := now < pausedUntil;
      assert !paused ==> State().After(Event.Rejected(now, 0.0)) != State();
    }

    /** When the gate opens: it is closed at every time from now up to then, and at none from then on. */
    method Until(now: Time) returns (end: Option<Time>)
      ensures forall t: Time :: t >= now ==> (State().IsPaused(t) <==> end.Some? && t < end.value)
      ensures end.Some? <==> State().IsPaused(now)
    {
      return if now < pausedUntil then Some(pausedUntil) else None;
    }

    /**
     * Blocks until no pause is active. `naps` says what other goroutines do to the gate during each
     * sleep and when the sleeper wakes; after the last one the context ends. `ended` is the state of
     * the context when no pause is left.
     */
    method Wait(start: Time, naps: seq<(seq<Event>, Time)>, ended: bool) returns (ok: bool, now: Time, slept: nat)
      requires Valid()
      modifies this
      ensures Valid() && slept <= |naps|
      ensures old(pausedUntil) <= pausedUntil
      ensures ok ==> !ended && now >= pausedUntil
      ensures !ok ==> ended || (slept == |naps| && now < pausedUntil)
    {
      now, slept := start, 0;
      while true
        invariant Valid() && slept <= |naps| && old(pausedUntil) <= pausedUntil
        decreases |naps| - slept
      {
        if pausedUntil - now <= 0 {
          return !ended, now, slept;
        }
        if slept == |naps| {
          return false, now, slept;
        }
        var (events, wake) := naps[slept];
        Others(events);
        now, slept := wake, slept + 1;
      }
    }

    /** Other goroutines report to the gate while this one sleeps. */
    method Others(events: seq<Event>)
      requires Valid()
      modifies this
      ensures Valid() && State() == Run(old(State()), events)
      ensures old(pausedUntil) <= pausedUntil
    {
      ghost var was := State();
      var i := 0;
      while i < |events|
        invariant 0 <= i <= |events|
        invariant Valid() && State() == Run(was, events[..i])
      {
        match events[i] {
          case Rejected(at, u) => Throttled(at, u);
          case Succeeded(at) => Succeeded(at);
        }
        assert events[..i + 1][..i] == events[..i];
        i := i + 1;
      }
      assert events[..|events|] == events;
      PausedUntilNeverDecreases(was, events);
    }
  }
}
