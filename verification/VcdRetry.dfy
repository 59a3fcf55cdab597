/** When a call goes on and when it gives up. */
module VcdRetry {
  import opened Basics
  import opened VcdCall

  /** The next attempt ends in this error. */
  predicate Fails<T>(s: Script<T>, c: Cursor, e: Error) {
    Within(s, c) && c.done < |s.attempts| && ResultOf(s.attempts[c.done]) == Err(e)
  }

  /** The error is a rejection that the gate makes wait for. */
  predicate Gated(e: Error, gate: bool) {
    gate && e.operationLimit
  }

  /** A function that returns ends the call with its value, however it is called. */
  lemma SucceedsAtOnce<T>(s: Script<T>, c: Cursor, gate: bool, retry: bool, value: T)
    requires Within(s, c) && c.done < |s.attempts| && s.attempts[c.done].Runs? && s.attempts[c.done].outcome == Returns(value)
    ensures CallOf(s, c, gate, retry) == Step(Ok(value), c.(done := c.done + 1))
  {
  }

  /** A rejected attempt is made again once the gate has opened, and the operation ends when the wait does not end well. */
  lemma RejectionWaits<T>(s: Script<T>, c: Cursor, gate: bool, retry: bool, e: Error)
    requires Fails(s, c, e) && Gated(e, gate) && c.waits < |s.waits|
    ensures var d := c.(done := c.done + 1, waits := c.waits + 1);
            if s.waits[c.waits] then OpOf(s, c, gate, retry) == OpOf(s, d, gate, retry)
            else OpOf(s, c, gate, retry) == Step(Err(e.(stop := true)), d)
  {
  }

  /** After a 401 the session is renewed once; where retries are allowed the function then runs again, and its value counts. */
  lemma UnauthorizedRenews<T>(s: Script<T>, c: Cursor, gate: bool, retry: bool, e: Error)
    requires Fails(s, c, e) && e.unauthorized && !Gated(e, gate) && c.renewals < |s.renewals|
    ensures var d := c.(done := c.done + 1, renewals := c.renewals + 1);
            var st := OpOf(s, c, gate, retry);
            && st.at.renewals == c.renewals + 1
            && (s.renewals[c.renewals].Some? || !retry ==> st.r.Err? && st.at == d)
            && (s.renewals[c.renewals].None? && retry && d.done < |s.attempts| ==>
                  && st.at == d.(done := d.done + 1)
                  && match ResultOf(s.attempts[d.done])
                     case Ok(value) => st.r == Ok(value)
                     case Err(f) => st.r == Err(f.(stop := f.stop || f.permanent)))
  {
  }

  /** A transient error with time left makes a retrying call try again. */
  lemma TransientGoesOn<T>(s: Script<T>, c: Cursor, gate: bool, e: Error)
    requires Fails(s, c, e) && !e.unauthorized && !e.permanent && !e.stop && !Gated(e, gate)
    requires c.pauses < |s.pauses| && s.pauses[c.pauses] == Again
    ensures RetryOf(s, c, gate) == RetryOf(s, c.(done := c.done + 1, pauses := c.pauses + 1), gate)
  {
    assert OpOf(s, c, gate, true) == Step(Err(e), c.(done := c.done + 1));
  }

  /** An error that no retry can cure ends it. */
  lemma PermanentEnds<T>(s: Script<T>, c: Cursor, gate: bool, e: Error)
    requires Fails(s, c, e) && !e.unauthorized && (e.permanent || e.stop) && !Gated(e, gate)
    ensures RetryOf(s, c, gate) == Step(Err(e.(stop := true)), c.(done := c.done + 1))
  {
    assert OpOf(s, c, gate, true) == Step(Err(e.(stop := true)), c.(done := c.done + 1));
  }

  // Whole calls.

  /** The time for retries was up: the last pause was none, or there was no further one. */
  predicate OutOfTime<T>(s: Script<T>, a: Cursor, b: Cursor)
    requires Onward(s, a, b)
  {
    b.pauses == |s.pauses| || (a.pauses < b.pauses && s.pauses[b.pauses - 1] != Again)
  }

  /** Some attempt ended in an error that no retry can cure, or a wait at the gate did not end well. */
  predicate Hopeless<T>(s: Script<T>, a: Cursor, b: Cursor)
    requires Onward(s, a, b)
  {
    || (exists i :: a.done <= i < b.done && ResultOf(s.attempts[i]).Err? && (ResultOf(s.attempts[i]).error.permanent || ResultOf(s.attempts[i]).error.stop))
    || (exists j :: a.waits <= j < b.waits && !s.waits[j])
    || (b.waits == |s.waits| && exists i :: a.done <= i < b.done && ResultOf(s.attempts[i]).Err? && ResultOf(s.attempts[i]).error.operationLimit)
  }

  predicate StopsFor<T>(s: Script<T>, c: Cursor, st: Step<T>)
    requires Onward(s, c, st.at)
  {
    && (st.r.Err? && (st.r.error.stop || st.r.error.permanent) ==> Hopeless(s, c, st.at))
    && (Limited(st.r) ==> exists i :: c.done <= i < st.at.done && ResultOf(s.attempts[i]).Err? && ResultOf(s.attempts[i]).error.operationLimit)
  }

  lemma {:induction false} ReplayStopsFor<T>(s: Script<T>, c: Cursor, st: Step<T>, gate: bool)
    requires Onward(s, c, st.at) && StopsFor(s, c, st)
    ensures StopsFor(s, c, Replay(s, st, gate).st)
    decreases |s.attempts| - st.at.done, Limited(st.r)
  {
    if gate && Limited(st.r) {
      var (waited, d) := WaitAt(s, st.at);
      if waited {
        ReplayStopsFor(s, c, AttemptAt(s, d), gate);
      }
    }
  }

  lemma OpStopsFor<T>(s: Script<T>, c: Cursor, gate: bool)
    requires Within(s, c)
    ensures var st := OpOf(s, c, gate, true); st.r.Err? && st.r.error.stop ==> Hopeless(s, c, st.at)
  {
    ReplayStopsFor(s, c, AttemptAt(s, c), gate);
  }

  lemma HopelessLater<T>(s: Script<T>, a: Cursor, b: Cursor, c: Cursor)
    requires Onward(s, a, b) && Onward(s, b, c) && Hopeless(s, b, c)
    ensures Hopeless(s, a, c)
  {
  }

  /** A retrying call fails only when its time was up or when going on was hopeless. */
  lemma {:induction false} RetryFailsFor<T>(s: Script<T>, c: Cursor, gate: bool)
    requires Within(s, c) && RetryOf(s, c, gate).r.Err?
    ensures var st := RetryOf(s, c, gate); OutOfTime(s, c, st.at) || Hopeless(s, c, st.at)
    decreases |s.pauses| - c.pauses
  {
    OpStopsFor(s, c, gate);
    var st := OpOf(s, c, gate, true);
    if !st.r.error.stop {
      var (pause, d) := PauseAt(s, st.at);
      if pause == Again {
        RetryFailsFor(s, d, gate);
        if Hopeless(s, d, RetryOf(s, d, gate).at) {
          HopelessLater(s, c, d, RetryOf(s, d, gate).at);
        }
      }
    }
  }

  /** There is an attempt before each pause, as long as there are any. */
  lemma {:induction false} RetryKeepsTrying<T>(s: Script<T>, c: Cursor, gate: bool)
    requires Within(s, c)
    ensures var at := RetryOf(s, c, gate).at;
            at.done == |s.attempts| || (at.done > c.done && at.done - c.done >= at.pauses - c.pauses)
    decreases |s.pauses| - c.pauses
  {
    var st := OpOf(s, c, gate, true);
    if st.r.Err? && !st.r.error.stop {
      var (pause, d) := PauseAt(s, st.at);
      if pause == Again {
        RetryKeepsTrying(s, d, gate);
      }
    }
  }
}
