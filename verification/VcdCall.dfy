/**
 * The wrapper around every vCD call: throttle replay, session renewal, retries, and rollback of the
 * payloads a failed SDK call leaves behind. What the outside world answers is a script; a script is
 * finite, and when it runs out the context has ended, so each script is one run of any length.
 */
module VcdCall {
  import opened Basics

  /** What the classifiers see in an error; one error text may match several of them. */
  datatype Error = Error(
    operationLimit: bool,  // rejected by the organization's operation limit
    unauthorized: bool,
    permanent: bool,       // matches a pattern that no retry can cure
    alreadyExists: bool,
    sentinel: bool,        // wraps the SDK's ErrorEntityNotFound
    saysNotFound: bool,    // its text reads as not found
    stop: bool)            // marked backoff.Permanent: stops the retry loop
  {
    /** What isEntityNotFoundError says. */
    const notFound: bool := sentinel || saysNotFound
  }

  const CONTEXT_ENDED := Error(false, false, false, false, false, false, false)

  datatype Result<+T> = Ok(value: T) | Err(error: Error)

  datatype Body = Body(href: Id, name: Id)

  /** An SDK object whose payload a call may replace. */
  class Payload {
    var body: Body

    constructor (body: Body)
      ensures this.body == body
    {
      this.body := body;
    }
  }

  /** One attempt: the session cannot be locked, or the function runs and leaves something in the payloads. */
  datatype Attempt<+T> = LockFails(error: Error) | Runs(outcome: Outcome<T>, left: Body)

  /** A recovered panic becomes an error; its text can match any classifier. */
  datatype Outcome<+T> = Returns(value: T) | Fails(error: Error) | Panics(error: Error)

  /** What the retry loop meets after a failed operation. */
  datatype Pause = Again | Elapsed | ContextDone

  datatype Script<+T> = Script(attempts: seq<Attempt<T>>, waits: seq<bool>, renewals: seq<Option<Error>>, pauses: seq<Pause>)

  /** How much of a script has been used. */
  datatype Cursor = Cursor(done: nat, waits: nat, renewals: nat, pauses: nat)

  const START := Cursor(0, 0, 0, 0)

  predicate Within<T>(s: Script<T>, c: Cursor) {
    c.done <= |s.attempts| && c.waits <= |s.waits| && c.renewals <= |s.renewals| && c.pauses <= |s.pauses|
  }

  /** From one point of a script to another. */
  predicate Onward<T>(s: Script<T>, a: Cursor, b: Cursor) {
    && Within(s, a) && Within(s, b)
    && a.done <= b.done && a.waits <= b.waits && a.renewals <= b.renewals && a.pauses <= b.pauses
  }

  // The call as a function of the script: its result, and how much of the script it used.

  datatype Step<+T> = Step(r: Result<T>, at: Cursor)

  /** An error of which only the text is kept; the text of the sentinel itself reads as not found. */
  function AsText(e: Error): Error {
    e.(sentinel := false, saysNotFound := e.notFound)
  }

  function ResultOf<T>(a: Attempt<T>): Result<T> {
    match a
    case LockFails(e) => Err(e)
    case Runs(Returns(v), _) => Ok(v)
    case Runs(Fails(e), _) => Err(e)
    case Runs(Panics(e), _) => Err(AsText(e))
  }

  function AttemptAt<T>(s: Script<T>, c: Cursor): (st: Step<T>)
    requires Within(s, c)
    ensures Onward(s, c, st.at) && st.at.renewals == c.renewals && st.at.pauses == c.pauses
  {
    if c.done == |s.attempts| then Step(Err(CONTEXT_ENDED), c) else Step(ResultOf(s.attempts[c.done]), c.(done := c.done + 1))
  }

  predicate Limited<T>(r: Result<T>) {
    r.Err? && r.error.operationLimit
  }

  /** Waiting at the throttle gate: false when the context ends first. */
  function WaitAt<T>(s: Script<T>, c: Cursor): (w: (bool, Cursor))
    requires Within(s, c)
    ensures Onward(s, c, w.1) && w.1 == c.(waits := w.1.waits)
  {
    if c.waits == |s.waits| then (false, c) else (s.waits[c.waits], c.(waits := c.waits + 1))
  }

  /** Renewing the session; Some is the error of a renewal that failed. */
  function RenewAt<T>(s: Script<T>, c: Cursor): (n: (Option<Error>, Cursor))
    requires Within(s, c)
    ensures Onward(s, c, n.1) && n.1 == c.(renewals := n.1.renewals)
    ensures n.1.renewals <= c.renewals + 1
  {
    if c.renewals == |s.renewals| then (Some(CONTEXT_ENDED), c) else (s.renewals[c.renewals], c.(renewals := c.renewals + 1))
  }

  function PauseAt<T>(s: Script<T>, c: Cursor): (p: (Pause, Cursor))
    requires Within(s, c)
    ensures Onward(s, c, p.1) && p.1 == c.(pauses := p.1.pauses)
    ensures p.0 == Again ==> p.1.pauses > c.pauses
  {
    if c.pauses == |s.pauses| then (ContextDone, c) else (s.pauses[c.pauses], c.(pauses := c.pauses + 1))
  }

  /** Throttle replays: while attempts are rejected by the limit, wait and try again. `halted` ends the operation. */
  datatype Replayed<+T> = Replayed(st: Step<T>, halted: bool)

  function Replay<T>(s: Script<T>, st: Step<T>, gate: bool): (p: Replayed<T>)
    requires Within(s, st.at)
    ensures Onward(s, st.at, p.st.at) && p.st.at.renewals == st.at.renewals && p.st.at.pauses == st.at.pauses
    ensures p.halted ==> p.st.r.Err?
    decreases |s.attempts| - st.at.done, Limited(st.r)
  {
    if !gate || !Limited(st.r) then Replayed(st, false)
    else
      var (waited, c) := WaitAt(s, st.at);
      if !waited then Replayed(Step(Err(st.r.error.(stop := true)), c), true)
      else Replay(s, AttemptAt(s, c), gate)
  }

  /** A permanent error stops the retry loop. */
  function Judged<T>(st: Step<T>): Step<T> {
    if st.r.Err? && st.r.error.permanent then st.(r := Err(st.r.error.(stop := true))) else st
  }

  /** An error that wraps one error and quotes the text of another. */
  function Joined(e: Error, quoted: Error): Error {
    Error(e.operationLimit || quoted.operationLimit, e.unauthorized || quoted.unauthorized,
          e.permanent || quoted.permanent, e.alreadyExists || quoted.alreadyExists,
          e.sentinel, e.saysNotFound || quoted.notFound, e.stop)
  }

  /**
   * A renewal that fails is quoted behind the error that asked for it. The retry loop reports what was marked as
   * permanent and drops what stands around it.
   */
  function Unrenewed(e: Error, quoted: Error, retry: bool): Error {
    if retry && e.stop then e else Joined(e, quoted)
  }

  predicate Unauthorized<T>(p: Replayed<T>) {
    !p.halted && p.st.r.Err? && p.st.r.error.unauthorized
  }

  /** After a 401 the session is renewed, and the function runs again only where that is allowed. */
  function AfterRenewal<T>(s: Script<T>, st: Step<T>, retry: bool): (t: Step<T>)
    requires Within(s, st.at) && st.r.Err?
    ensures Onward(s, st.at, t.at) && t.at.pauses == st.at.pauses && t.at.renewals <= st.at.renewals + 1
  {
    var (failure, c) := RenewAt(s, st.at);
    if failure.Some? then Step(Err(Unrenewed(st.r.error, failure.value, retry)), c)
    else Judged(if retry then AttemptAt(s, c) else Step(st.r, c))
  }

  function OpOf<T>(s: Script<T>, c: Cursor, gate: bool, retry: bool): (st: Step<T>)
    requires Within(s, c)
    ensures Onward(s, c, st.at) && st.at.pauses == c.pauses && st.at.renewals <= c.renewals + 1
  {
    var p := Replay(s, AttemptAt(s, c), gate);
    if p.halted then p.st else if Unauthorized(p) then AfterRenewal(s, p.st, retry) else Judged(p.st)
  }

  function RetryOf<T>(s: Script<T>, c: Cursor, gate: bool): (st: Step<T>)
    requires Within(s, c)
    ensures Onward(s, c, st.at)
    decreases |s.pauses| - c.pauses
  {
    var st := OpOf(s, c, gate, true);
    if st.r.Ok? || st.r.error.stop then st
    else
      var (pause, d) := PauseAt(s, st.at);
      match pause
      case Elapsed => st.(at := d)
      case ContextDone => Step(Err(CONTEXT_ENDED), d)
      case Again => RetryOf(s, d, gate)
  }

  function CallOf<T>(s: Script<T>, c: Cursor, gate: bool, retry: bool): (st: Step<T>)
    requires Within(s, c)
    ensures Onward(s, c, st.at)
  {
    if retry then RetryOf(s, c, gate) else OpOf(s, c, gate, false)
  }

  // What ran.

  /** What a wrapped function asks for, and the name or task it asks about. */
  datatype Operation = Operation(desc: string, subject: Id)

  /** One run of a wrapped function: which one, the payloads it started from, and how it ended. */
  datatype Run<+T> = Run(op: Operation, start: seq<Body>, outcome: Outcome<T>)

  /** The runs among some attempts, in order. */
  function RunsOf<T>(attempts: seq<Attempt<T>>, op: Operation, start: seq<Body>): seq<Run<T>> {
    if attempts == [] then []
    else
      var n := |attempts| - 1;
      RunsOf(attempts[..n], op, start) + if attempts[n].Runs? then [Run(op, start, attempts[n].outcome)] else []
  }

  /** What runs between two points of a script. */
  function RunsBetween<T>(s: Script<T>, a: Cursor, b: Cursor, op: Operation, start: seq<Body>): seq<Run<T>>
    requires Onward(s, a, b)
  {
    RunsOf(s.attempts[a.done..b.done], op, start)
  }

  lemma {:induction false} RunsJoin<T>(s: Script<T>, a: Cursor, b: Cursor, c: Cursor, op: Operation, start: seq<Body>)
    requires Onward(s, a, b) && Onward(s, b, c)
    ensures RunsBetween(s, a, c, op, start) == RunsBetween(s, a, b, op, start) + RunsBetween(s, b, c, op, start)
    decreases c.done
  {
    if b.done < c.done {
      var d := c.(done := c.done - 1);
      RunsJoin(s, a, b, d, op, start);
      assert s.attempts[a.done..c.done][..c.done - 1 - a.done] == s.attempts[a.done..d.done];
      assert s.attempts[b.done..c.done][..c.done - 1 - b.done] == s.attempts[b.done..d.done];
    }
  }

  /** A log that grew by what ran from a to b. */
  ghost predicate Logged<T>(s: Script<T>, was: seq<Run<T>>, a: Cursor, now: seq<Run<T>>, b: Cursor, op: Operation, start: seq<Body>) {
    Onward(s, a, b) && now == was + RunsBetween(s, a, b, op, start)
  }

  lemma LoggedJoin<T>(s: Script<T>, was: seq<Run<T>>, a: Cursor, mid: seq<Run<T>>, b: Cursor, now: seq<Run<T>>, c: Cursor, op: Operation, start: seq<Body>)
    requires Logged(s, was, a, mid, b, op, start) && Logged(s, mid, b, now, c, op, start)
    ensures Logged(s, was, a, now, c, op, start)
  {
    RunsJoin(s, a, b, c, op, start);
  }

  lemma RunsOfAttempt<T>(s: Script<T>, c: Cursor, op: Operation, start: seq<Body>)
    requires Within(s, c) && c.done < |s.attempts|
    ensures RunsBetween(s, c, AttemptAt(s, c).at, op, start)
         == if s.attempts[c.done].Runs? then [Run(op, start, s.attempts[c.done].outcome)] else []
  {
    var one := s.attempts[c.done..c.done + 1];
    assert one == [s.attempts[c.done]] && one[..0] == [];
    assert RunsOf(one[..0], op, start) == [];
  }

  predicate Rejected<T>(run: Run<T>) {
    !run.outcome.Returns? && run.outcome.error.operationLimit
  }

  /** A function that ran again had just been rejected by the operation limit, with a gate to wait at. */
  predicate RerunOnlyAfterRejection<T>(runs: seq<Run<T>>, gate: bool) {
    forall i :: 0 <= i < |runs| - 1 ==> Rejected(runs[i]) && gate
  }

  function Unrejected<T>(runs: seq<Run<T>>): nat {
    if runs == [] then 0 else Unrejected(runs[1..]) + if Rejected(runs[0]) then 0 else 1
  }

  /** However often the function runs, at most one run was not rejected before it took effect. */
  lemma {:induction false} AtMostOneUnrejected<T>(runs: seq<Run<T>>, gate: bool)
    requires RerunOnlyAfterRejection(runs, gate)
    ensures Unrejected(runs) <= 1
  {
    if |runs| > 1 {
      assert Rejected(runs[0]);
      AtMostOneUnrejected(runs[1..], gate);
    } else if |runs| == 1 {
      assert runs[1..] == [];
    }
  }

  // What every call satisfies, whatever the script.

  /** None of these attempts succeeded. */
  predicate NoneOk<T>(s: Script<T>, from: nat, to: nat)
    requires to <= |s.attempts|
  {
    forall i :: from <= i < to ==> ResultOf(s.attempts[i]).Err?
  }

  /** A result comes from the last attempt made, and it ends the attempts. */
  ghost predicate Ended<T>(s: Script<T>, c: Cursor, st: Step<T>)
    requires Onward(s, c, st.at)
  {
    if st.r.Err? then NoneOk(s, c.done, st.at.done)
    else c.done < st.at.done && ResultOf(s.attempts[st.at.done - 1]) == st.r && NoneOk(s, c.done, st.at.done - 1)
  }

  lemma {:induction false} ReplayEnds<T>(s: Script<T>, c: Cursor, st: Step<T>, gate: bool)
    requires Onward(s, c, st.at) && Ended(s, c, st)
    ensures Ended(s, c, Replay(s, st, gate).st)
    decreases |s.attempts| - st.at.done, Limited(st.r)
  {
    if gate && Limited(st.r) {
      var (waited, d) := WaitAt(s, st.at);
      if waited {
        ReplayEnds(s, c, AttemptAt(s, d), gate);
      }
    }
  }

  lemma OpEnds<T>(s: Script<T>, c: Cursor, gate: bool, retry: bool)
    requires Within(s, c)
    ensures Ended(s, c, OpOf(s, c, gate, retry))
  {
    ReplayEnds(s, c, AttemptAt(s, c), gate);
  }

  lemma {:induction false} RetryEnds<T>(s: Script<T>, c: Cursor, gate: bool)
    requires Within(s, c)
    ensures Ended(s, c, RetryOf(s, c, gate))
    decreases |s.pauses| - c.pauses
  {
    OpEnds(s, c, gate, true);
    var st := OpOf(s, c, gate, true);
    if st.r.Err? && !st.r.error.stop {
      var (pause, d) := PauseAt(s, st.at);
      if pause == Again {
        RetryEnds(s, d, gate);
      }
    }
  }

  /** The value of a call is what its last attempt returned; a call that fails made no attempt that succeeded. */
  lemma CallEnds<T>(s: Script<T>, c: Cursor, gate: bool, retry: bool)
    requires Within(s, c)
    ensures Ended(s, c, CallOf(s, c, gate, retry))
  {
    if retry {
      RetryEnds(s, c, gate);
    } else {
      OpEnds(s, c, gate, false);
    }
  }

  /** Some attempt between the two points ended in a not-found error, or some renewal did. */
  predicate Heard<T>(s: Script<T>, a: Cursor, b: Cursor)
    requires Onward(s, a, b)
  {
    || (exists i :: a.done <= i < b.done && ResultOf(s.attempts[i]).Err? && ResultOf(s.attempts[i]).error.notFound)
    || (exists j :: a.renewals <= j < b.renewals && s.renewals[j].Some? && s.renewals[j].value.notFound)
  }

  /** A not-found error is one that was heard. */
  predicate Sourced<T>(s: Script<T>, c: Cursor, st: Step<T>)
    requires Onward(s, c, st.at)
  {
    st.r.Err? && st.r.error.notFound ==> Heard(s, c, st.at)
  }

  lemma {:induction false} ReplaySourced<T>(s: Script<T>, c: Cursor, st: Step<T>, gate: bool)
    requires Onward(s, c, st.at) && Sourced(s, c, st)
    ensures Sourced(s, c, Replay(s, st, gate).st)
    decreases |s.attempts| - st.at.done, Limited(st.r)
  {
    if gate && Limited(st.r) {
      var (waited, d) := WaitAt(s, st.at);
      if waited {
        ReplaySourced(s, c, AttemptAt(s, d), gate);
      }
    }
  }

  lemma OpSourced<T>(s: Script<T>, c: Cursor, gate: bool, retry: bool)
    requires Within(s, c)
    ensures Sourced(s, c, OpOf(s, c, gate, retry))
  {
    ReplaySourced(s, c, AttemptAt(s, c), gate);
  }

  /** Whatever a call reports as not found, some attempt or some session renewal of it said so. */
  lemma {:induction false} RetrySourced<T>(s: Script<T>, c: Cursor, gate: bool)
    requires Within(s, c)
    ensures Sourced(s, c, RetryOf(s, c, gate))
    decreases |s.pauses| - c.pauses
  {
    OpSourced(s, c, gate, true);
    var st := OpOf(s, c, gate, true);
    if st.r.Err? && !st.r.error.stop {
      var (pause, d) := PauseAt(s, st.at);
      if pause == Again {
        RetrySourced(s, d, gate);
      }
    }
  }

  /** Some attempt between the two points wrapped the sentinel. */
  predicate SentinelHeard<T>(s: Script<T>, a: Cursor, b: Cursor)
    requires Onward(s, a, b)
  {
    exists i :: a.done <= i < b.done && ResultOf(s.attempts[i]).Err? && ResultOf(s.attempts[i]).error.sentinel
  }

  predicate SentinelSourced<T>(s: Script<T>, c: Cursor, st: Step<T>)
    requires Onward(s, c, st.at)
  {
    st.r.Err? && st.r.error.sentinel ==> SentinelHeard(s, c, st.at)
  }

  lemma {:induction false} ReplaySentinel<T>(s: Script<T>, c: Cursor, st: Step<T>, gate: bool)
    requires Onward(s, c, st.at) && SentinelSourced(s, c, st)
    ensures SentinelSourced(s, c, Replay(s, st, gate).st)
    decreases |s.attempts| - st.at.done, Limited(st.r)
  {
    if gate && Limited(st.r) {
      var (waited, d) := WaitAt(s, st.at);
      if waited {
        ReplaySentinel(s, c, AttemptAt(s, d), gate);
      }
    }
  }

  /** The sentinel is wrapped only by errors of attempts; quoting an error does not wrap it. */
  lemma {:induction false} RetrySentinel<T>(s: Script<T>, c: Cursor, gate: bool)
    requires Within(s, c)
    ensures SentinelSourced(s, c, RetryOf(s, c, gate))
    decreases |s.pauses| - c.pauses
  {
    ReplaySentinel(s, c, AttemptAt(s, c), gate);
    var st := OpOf(s, c, gate, true);
    assert SentinelSourced(s, c, st);
    if st.r.Err? && !st.r.error.stop {
      var (pause, d) := PauseAt(s, st.at);
      if pause == Again {
        RetrySentinel(s, d, gate);
      }
    }
  }

  lemma CallSentinel<T>(s: Script<T>, c: Cursor, gate: bool, retry: bool)
    requires Within(s, c)
    ensures SentinelSourced(s, c, CallOf(s, c, gate, retry))
  {
    if retry {
      RetrySentinel(s, c, gate);
    } else {
      ReplaySentinel(s, c, AttemptAt(s, c), gate);
    }
  }

  // At most once.

  /** So far the function reran only after rejections, and if the last result is a rejection all runs were rejected. */
  predicate Replayable<T>(runs: seq<Run<T>>, st: Step<T>, gate: bool) {
    && RerunOnlyAfterRejection(runs, gate)
    && (Limited(st.r) ==> forall i :: 0 <= i < |runs| ==> Rejected(runs[i]))
  }

  lemma {:induction false} ReplayReruns<T>(s: Script<T>, c: Cursor, st: Step<T>, gate: bool, op: Operation, start: seq<Body>)
    requires Onward(s, c, st.at) && Replayable(RunsBetween(s, c, st.at, op, start), st, gate)
    ensures RerunOnlyAfterRejection(RunsBetween(s, c, Replay(s, st, gate).st.at, op, start), gate)
    decreases |s.attempts| - st.at.done, Limited(st.r)
  {
    if gate && Limited(st.r) {
      var (waited, d) := WaitAt(s, st.at);
      if waited {
        var next := AttemptAt(s, d);
        if d.done < |s.attempts| {
          RunsJoin(s, c, d, next.at, op, start);
          RunsOfAttempt(s, d, op, start);
        }
        ReplayReruns(s, c, next, gate, op, start);
      }
    }
  }

  /** Without retries the function runs again only after the operation limit rejected it, for every script. */
  lemma NeverReplayed<T>(s: Script<T>, c: Cursor, gate: bool, op: Operation, start: seq<Body>)
    requires Within(s, c)
    ensures var runs := RunsBetween(s, c, OpOf(s, c, gate, false).at, op, start);
            RerunOnlyAfterRejection(runs, gate) && Unrejected(runs) <= 1
  {
    var first := AttemptAt(s, c);
    if c.done < |s.attempts| {
      RunsOfAttempt(s, c, op, start);
    }
    ReplayReruns(s, c, first, gate, op, start);
    AtMostOneUnrejected(RunsBetween(s, c, OpOf(s, c, gate, false).at, op, start), gate);
  }

  /** The runs of an interval are those of its attempts: they return only where an attempt succeeds. */
  lemma {:induction false} RunsMatch<T>(attempts: seq<Attempt<T>>, op: Operation, start: seq<Body>)
    ensures forall i :: 0 <= i < |RunsOf(attempts, op, start)| ==>
              var run := RunsOf(attempts, op, start)[i];
              run.op == op && run.start == start &&
              exists j :: 0 <= j < |attempts| && attempts[j].Runs? && attempts[j].outcome == run.outcome
    ensures forall j :: 0 <= j < |attempts| && attempts[j].Runs? ==> Run(op, start, attempts[j].outcome) in RunsOf(attempts, op, start)
  {
    if attempts != [] {
      RunsMatch(attempts[..|attempts| - 1], op, start);
    }
  }

  // A conversation: calls one after the other.

  /** One call as it was made: the operation, the payloads given to it, how it may repeat, and where the script stood. */
  datatype Call = Call(op: Operation, start: seq<Body>, gate: bool, retry: bool, from: Cursor)

  function StepOf<T>(s: Script<T>, call: Call): (st: Step<T>)
    ensures Within(s, call.from) ==> Onward(s, call.from, st.at)
  {
    if Within(s, call.from) then CallOf(s, call.from, call.gate, call.retry) else Step(Err(CONTEXT_ENDED), call.from)
  }

  function RunsOfCall<T>(s: Script<T>, call: Call): seq<Run<T>> {
    if Within(s, call.from) then RunsBetween(s, call.from, StepOf(s, call).at, call.op, call.start) else []
  }

  /** The name that the last attempt left in the payloads. */
  function NameLeft<T>(s: Script<T>, c: Cursor): Id {
    if 0 < c.done <= |s.attempts| && s.attempts[c.done - 1].Runs? then s.attempts[c.done - 1].left.name else NO_ID
  }

  /** vCD as a conversation sees it: how it answers a call, what ran for it, and the name left in the payloads. */
  datatype Vcd<T> = Vcd(ask: Call -> Step<T>, ran: Call -> seq<Run<T>>, left: Call -> Id)

  function VcdOf<T>(s: Script<T>): Vcd<T> {
    Vcd(call => StepOf(s, call), call => RunsOfCall(s, call), call => NameLeft(s, StepOf(s, call).at))
  }

  /** A request that succeeds leaves, under the HREF it was made for, what vCD knows of the object. */
  function Refreshed(saved: seq<Body>, name: Id): (bodies: seq<Body>)
    ensures |bodies| == |saved| && forall i :: 0 <= i < |saved| ==> bodies[i] == Body(saved[i].href, name)
  {
    seq(|saved|, i requires 0 <= i < |saved| => Body(saved[i].href, name))
  }

  /** The payloads after a call: as they were when it failed. */
  function LeftIn<T>(v: Vcd<T>, call: Call): seq<Body> {
    if v.ask(call).r.Err? then call.start else Refreshed(call.start, v.left(call))
  }

  /** Each call starts where the one before it ended. */
  predicate Linked<T>(v: Vcd<T>, a: Cursor, calls: seq<Call>, b: Cursor) {
    if calls == [] then a == b
    else
      var n := |calls| - 1;
      Linked(v, a, calls[..n], calls[n].from) && v.ask(calls[n]).at == b
  }

  /** What the calls ran, in order. */
  function AllRuns<T>(v: Vcd<T>, calls: seq<Call>): seq<Run<T>> {
    if calls == [] then []
    else
      var n := |calls| - 1;
      AllRuns(v, calls[..n]) + v.ran(calls[n])
  }

  lemma {:induction false} LinkedJoin<T>(v: Vcd<T>, a: Cursor, xs: seq<Call>, b: Cursor, ys: seq<Call>, c: Cursor)
    requires Linked(v, a, xs, b) && Linked(v, b, ys, c)
    ensures Linked(v, a, xs + ys, c)
  {
    if ys == [] {
      assert xs + ys == xs;
    } else {
      var n := |ys| - 1;
      LinkedJoin(v, a, xs, b, ys[..n], ys[n].from);
      assert (xs + ys)[..|xs| + n] == xs + ys[..n];
    }
  }

  lemma {:induction false} RanJoin<T>(v: Vcd<T>, xs: seq<Call>, ys: seq<Call>)
    ensures AllRuns(v, xs + ys) == AllRuns(v, xs) + AllRuns(v, ys)
  {
    if ys == [] {
      assert xs + ys == xs;
    } else {
      var n := |ys| - 1;
      RanJoin(v, xs, ys[..n]);
      assert (xs + ys)[..|xs| + n] == xs + ys[..n];
    }
  }

  /** The runs of a conversation are those of its calls. */
  lemma {:induction false} RanByCalls<T>(v: Vcd<T>, calls: seq<Call>, run: Run<T>)
    ensures run in AllRuns(v, calls) <==> exists k :: 0 <= k < |calls| && run in v.ran(calls[k])
  {
    if calls != [] {
      var n := |calls| - 1;
      RanByCalls(v, calls[..n], run);
      if k :| 0 <= k < |calls| && run in v.ran(calls[k]) {
        if k < n {
          assert calls[..n][k] == calls[k];
        }
      }
    }
  }

  lemma OneCall<T>(v: Vcd<T>, call: Call)
    ensures AllRuns(v, [call]) == v.ran(call) && Linked(v, call.from, [call], v.ask(call).at)
  {
    assert [call][..0] == [];
    assert AllRuns(v, [call][..0]) == [] && Linked(v, call.from, [call][..0], call.from);
  }

  /** A conversation with one call more. */
  lemma OneMoreCall<T>(v: Vcd<T>, a: Cursor, calls: seq<Call>, call: Call)
    requires Linked(v, a, calls, call.from)
    ensures Linked(v, a, calls + [call], v.ask(call).at)
    ensures AllRuns(v, calls + [call]) == AllRuns(v, calls) + v.ran(call)
  {
    OneCall(v, call);
    LinkedJoin(v, a, calls, call.from, [call], v.ask(call).at);
    RanJoin(v, calls, [call]);
  }

  /** What holds of every call, whatever the script. */
  ghost predicate LawfulCall<T(!new)>(v: Vcd<T>, call: Call) {
    && (v.ask(call).r.Ok? ==> Run(call.op, call.start, Returns(v.ask(call).r.value)) in v.ran(call))
    && (forall run :: run in v.ran(call) ==> run.op == call.op && run.start == call.start)
    && (!call.retry ==> RerunOnlyAfterRejection(v.ran(call), call.gate) && Unrejected(v.ran(call)) <= 1)
  }

  ghost predicate Lawful<T(!new)>(v: Vcd<T>) {
    forall call :: LawfulCall(v, call)
  }

  /** A run of a call is one of its operation, from its payloads, and ended as one of its attempts did. */
  lemma RunOfCall<T>(s: Script<T>, call: Call, run: Run<T>) returns (i: nat)
    requires run in RunsOfCall(s, call)
    ensures Within(s, call.from) && run.op == call.op && run.start == call.start
    ensures call.from.done <= i < StepOf(s, call).at.done && s.attempts[i].Runs? && s.attempts[i].outcome == run.outcome
  {
    var b := StepOf(s, call).at;
    var tried := s.attempts[call.from.done..b.done];
    RunsMatch(tried, call.op, call.start);
    var n :| 0 <= n < |RunsOfCall(s, call)| && RunsOfCall(s, call)[n] == run;
    var j :| 0 <= j < |tried| && tried[j].Runs? && tried[j].outcome == run.outcome;
    i := call.from.done + j;
  }

  /** An attempt of a call that ran is a run of it. */
  lemma AttemptIsRun<T>(s: Script<T>, call: Call, i: nat)
    requires Within(s, call.from) && call.from.done <= i < StepOf(s, call).at.done && s.attempts[i].Runs?
    ensures Run(call.op, call.start, s.attempts[i].outcome) in RunsOfCall(s, call)
  {
    var tried := s.attempts[call.from.done..StepOf(s, call).at.done];
    RunsMatch(tried, call.op, call.start);
    assert tried[i - call.from.done] == s.attempts[i];
  }

  lemma CallIsLawful<T(!new)>(s: Script<T>, call: Call)
    ensures LawfulCall(VcdOf(s), call)
  {
    if Within(s, call.from) {
      var st := StepOf(s, call);
      if st.r.Ok? {
        CallEnds(s, call.from, call.gate, call.retry);
        AttemptIsRun(s, call, st.at.done - 1);
      }
      forall run | run in RunsOfCall(s, call)
        ensures run.op == call.op && run.start == call.start
      {
        var i := RunOfCall(s, call, run);
      }
      if !call.retry {
        NeverReplayed(s, call.from, call.gate, call.op, call.start);
      }
    }
  }

  /** Calls that succeed run in the order in which they are made. */
  lemma RunsInOrder<T(!new)>(v: Vcd<T>, calls: seq<Call>, i: nat, j: nat) returns (a: nat, b: nat)
    requires Lawful(v) && i < j < |calls| && v.ask(calls[i]).r.Ok? && v.ask(calls[j]).r.Ok?
    ensures a < b < |AllRuns(v, calls)|
    ensures AllRuns(v, calls)[a] == Run(calls[i].op, calls[i].start, Returns(v.ask(calls[i]).r.value))
    ensures AllRuns(v, calls)[b] == Run(calls[j].op, calls[j].start, Returns(v.ask(calls[j]).r.value))
  {
    assert LawfulCall(v, calls[i]) && LawfulCall(v, calls[j]);
    assert calls == calls[..j] + calls[j..];
    RanJoin(v, calls[..j], calls[j..]);
    assert calls[..j][i] == calls[i] && calls[j..][0] == calls[j];
    var first := Run(calls[i].op, calls[i].start, Returns(v.ask(calls[i]).r.value));
    var second := Run(calls[j].op, calls[j].start, Returns(v.ask(calls[j]).r.value));
    RanByCalls(v, calls[..j], first);
    RanByCalls(v, calls[j..], second);
    a :| 0 <= a < |AllRuns(v, calls[..j])| && AllRuns(v, calls[..j])[a] == first;
    var n :| 0 <= n < |AllRuns(v, calls[j..])| && AllRuns(v, calls[j..])[n] == second;
    b := |AllRuns(v, calls[..j])| + n;
  }

  /** Every script answers lawfully. */
  lemma ScriptsAreLawful<T(!new)>(s: Script<T>)
    ensures Lawful(VcdOf(s))
  {
    forall call
      ensures LawfulCall(VcdOf(s), call)
    {
      CallIsLawful(s, call);
    }
  }

  /** Every error that `which` accepts was brought by a run of the call that failed with such an error. */
  ghost predicate RanInto<T(!new)>(v: Vcd<T>, call: Call, which: Error -> bool) {
    v.ask(call).r.Err? && which(v.ask(call).r.error) ==>
      exists run :: run in v.ran(call) && run.outcome.Fails? && which(run.outcome.error)
  }

  /** Every error of the session itself (locking it, renewing it) and of a recovered panic satisfies `may`. */
  predicate SessionErrors<T>(s: Script<T>, may: Error -> bool) {
    && (forall i :: 0 <= i < |s.attempts| ==>
          match s.attempts[i]
          case LockFails(e) => may(e)
          case Runs(Panics(e), _) => may(e)
          case _ => true)
    && (forall j :: 0 <= j < |s.renewals| && s.renewals[j].Some? ==> may(s.renewals[j].value))
  }

  function ReadsNotFound(): Error -> bool {
    (e: Error) => e.notFound
  }

  function NeverNotFound(): Error -> bool {
    (e: Error) => !e.notFound
  }

  /** When no session error and no panic reads as not found, a call that does ran into it. */
  lemma NotFoundIsRun<T(!new)>(s: Script<T>, call: Call)
    requires SessionErrors(s, NeverNotFound())
    ensures RanInto(VcdOf(s), call, ReadsNotFound())
  {
    var st := StepOf(s, call);
    if Within(s, call.from) && st.r.Err? && st.r.error.notFound {
      CallSourced(s, call.from, call.gate, call.retry);
      if i :| call.from.done <= i < st.at.done && ResultOf(s.attempts[i]).Err? && ResultOf(s.attempts[i]).error.notFound {
        assert s.attempts[i].Runs? && s.attempts[i].outcome.Fails?;
        AttemptIsRun(s, call, i);
      }
    }
  }

  lemma CallSourced<T>(s: Script<T>, c: Cursor, gate: bool, retry: bool)
    requires Within(s, c)
    ensures Sourced(s, c, CallOf(s, c, gate, retry))
  {
    if retry {
      RetrySourced(s, c, gate);
    } else {
      OpSourced(s, c, gate, false);
    }
  }

  // The code.

  ghost function Bodies(payloads: seq<Payload>): (bodies: seq<Body>)
    reads payloads
    ensures |bodies| == |payloads|
  {
    seq(|payloads|, i requires 0 <= i < |payloads| reads payloads => payloads[i].body)
  }

  /** What the rollback closures capture when the call is made. */
  method Save(payloads: seq<Payload>) returns (saved: seq<Body>)
    ensures saved == Bodies(payloads)
  {
    saved := [];
    var i := 0;
    while i < |payloads|
      invariant 0 <= i <= |payloads|
      invariant saved == Bodies(payloads)[..i]
    {
      saved := saved + [payloads[i].body];
      i := i + 1;
    }
  }

  lemma SameSame(payloads: seq<Payload>, saved: seq<Body>)
    requires Bodies(payloads) == saved
    ensures forall i, j :: 0 <= i < j < |payloads| && payloads[i] == payloads[j] ==> saved[i] == saved[j]
  {
    forall i, j | 0 <= i < j < |payloads| && payloads[i] == payloads[j]
      ensures saved[i] == saved[j]
    {
      assert Bodies(payloads)[i] == payloads[i].body && Bodies(payloads)[j] == payloads[j].body;
    }
  }

  /** The rollback closures, in order. */
  method Restore(payloads: seq<Payload>, saved: seq<Body>)
    requires |saved| == |payloads|
    requires forall i, j :: 0 <= i < j < |payloads| && payloads[i] == payloads[j] ==> saved[i] == saved[j]
    modifies payloads
    ensures Bodies(payloads) == saved
  {
    var i := 0;
    while i < |payloads|
      invariant 0 <= i <= |payloads|
      invariant forall j :: 0 <= j < i ==> payloads[j].body == saved[j]
    {
      payloads[i].body := saved[i];
      i := i + 1;
    }
  }

  /** The SDK replaces the payloads before it knows how the request ends. */
  method Scribble(payloads: seq<Payload>, left: Body)
    modifies payloads
  {
    for i := 0 to |payloads| {
      payloads[i].body := left;
    }
  }

  /** The payloads after some attempts. */
  function LeftAt<T>(s: Script<T>, st: Step<T>, saved: seq<Body>): seq<Body> {
    if st.r.Err? then saved else Refreshed(saved, NameLeft(s, st.at))
  }

  /** `v` is the vCD that this script stands for. */
  ghost predicate Speaks<T>(v: Vcd<T>, s: Script<T>) {
    forall call {:trigger StepOf(s, call)} ::
      v.ask(call) == StepOf(s, call) && v.ran(call) == RunsOfCall(s, call) && v.left(call) == NameLeft(s, StepOf(s, call).at)
  }

  lemma SpeakersAreLawful<T(!new)>(v: Vcd<T>, s: Script<T>)
    requires Speaks(v, s)
    ensures Lawful(v)
  {
    forall call
      ensures LawfulCall(v, call)
    {
      assert v.ask(call) == StepOf(s, call);
      CallIsLawful(s, call);
    }
  }

  /** The outside world: what it will answer, how far it has come, and what it was asked to run. */
  class World<T> {
    const script: Script<T>
    var at: Cursor
    var runs: seq<Run<T>>
    ghost const v: Vcd<T>
    ghost var calls: seq<Call>  // the calls made so far

    ghost predicate Valid()
      reads this
    {
      Within(script, at)
    }

    /** Between calls: the script was used, and the runs were made, by exactly the calls made so far. */
    ghost predicate Idle()
      reads this
    {
      Valid() && Speaks(v, script) && Linked(v, START, calls, at) && runs == AllRuns(v, calls)
    }

    constructor (script: Script<T>)
      ensures Idle() && this.script == script && v == VcdOf(script) && at == START && runs == [] && calls == []
    {
      this.script := script;
      v := VcdOf(script);
      at := START;
      runs := [];
      calls := [];
    }

    /** One attempt under the session's read lock. A run that fails or panics leaves the payloads as saved. */
    method VcdCallAttempt(op: Operation, payloads: seq<Payload>, saved: seq<Body>) returns (r: Result<T>)
      requires Valid() && Bodies(payloads) == saved
      modifies this`at, this`runs, payloads
      ensures Valid() && Step(r, at) == AttemptAt(script, old(at))
      ensures Logged(script, old(runs), old(at), runs, at, op, saved)
      ensures Bodies(payloads) == LeftAt(script, Step(r, at), saved)
    {
      if at.done == |script.attempts| {
        return Err(CONTEXT_ENDED);
      }
      RunsOfAttempt(script, at, op, saved);
      var a := script.attempts[at.done];
      at := at.(done := at.done + 1);
      match a {
        case LockFails(e) => r := Err(e);
        case Runs(outcome, left) =>
          var start := Save(payloads);
          runs := runs + [Run(op, start, outcome)];
          r := Execute(outcome, left, payloads, saved);
      }
    }

    /** The wrapped function, with the recovery from panics and the rollback around it. */
    static method Execute(outcome: Outcome<T>, left: Body, payloads: seq<Payload>, saved: seq<Body>) returns (r: Result<T>)
      requires Bodies(payloads) == saved
      modifies payloads
      ensures r == ResultOf(Runs(outcome, left))
      ensures Bodies(payloads) == if r.Err? then saved else Refreshed(saved, left.name)
    {
      SameSame(payloads, saved);
      Scribble(payloads, left);
      match outcome {
        case Returns(v) => r := Ok(v);
        case Fails(e) => r := Err(e);
        case Panics(e) => r := Err(AsText(e));
      }
      Restore(payloads, if r.Err? then saved else Refreshed(saved, left.name));
    }

    method Wait() returns (ok: bool)
      requires Valid()
      modifies this`at
      ensures Valid() && (ok, at) == WaitAt(script, old(at))
    {
      if at.waits == |script.waits| {
        return false;
      }
      ok := script.waits[at.waits];
      at := at.(waits := at.waits + 1);
    }

    method Renew() returns (failure: Option<Error>)
      requires Valid()
      modifies this`at
      ensures Valid() && (failure, at) == RenewAt(script, old(at))
    {
      if at.renewals == |script.renewals| {
        return Some(CONTEXT_ENDED);
      }
      failure := script.renewals[at.renewals];
      at := at.(renewals := at.renewals + 1);
    }

    method NextPause() returns (pause: Pause)
      requires Valid()
      modifies this`at
      ensures Valid() && (pause, at) == PauseAt(script, old(at))
    {
      if at.pauses == |script.pauses| {
        return ContextDone;
      }
      pause := script.pauses[at.pauses];
      at := at.(pauses := at.pauses + 1);
    }

    /** Attempts until one is not rejected by the operation limit; `halted` when the context ends at the gate. */
    method Replays(op: Operation, gate: bool, payloads: seq<Payload>, saved: seq<Body>) returns (r: Result<T>, halted: bool)
      requires Valid() && Bodies(payloads) == saved
      modifies this`at, this`runs, payloads
      ensures Valid() && Replayed(Step(r, at), halted) == Replay(script, AttemptAt(script, old(at)), gate)
      ensures Logged(script, old(runs), old(at), runs, at, op, saved)
      ensures Bodies(payloads) == LeftAt(script, Step(r, at), saved)
    {
      ghost var c, was := at, runs;
      r := VcdCallAttempt(op, payloads, saved);
      halted := false;
      while gate && Limited(r)
        invariant Valid() && !halted && Onward(script, c, at)
        invariant Replay(script, Step(r, at), gate) == Replay(script, AttemptAt(script, c), gate)
        invariant Logged(script, was, c, runs, at, op, saved)
        invariant Bodies(payloads) == LeftAt(script, Step(r, at), saved)
        decreases |script.attempts| - at.done, Limited(r)
      {
        var waited := Wait();
        if !waited {
          return Err(r.error.(stop := true)), true;
        }
        ghost var d, mid := at, runs;
        r := VcdCallAttempt(op, payloads, saved);
        LoggedJoin(script, was, c, mid, d, runs, at, op, saved);
      }
    }

    /** The operation that the retry loop repeats: one attempt, throttle replays, and a renewal after a 401. */
    method Op(op: Operation, gate: bool, retry: bool, payloads: seq<Payload>, saved: seq<Body>) returns (r: Result<T>)
      requires Valid() && Bodies(payloads) == saved
      modifies this`at, this`runs, payloads
      ensures Valid() && Step(r, at) == OpOf(script, old(at), gate, retry)
      ensures Logged(script, old(runs), old(at), runs, at, op, saved)
      ensures Bodies(payloads) == LeftAt(script, Step(r, at), saved)
    {
      ghost var c, was := at, runs;
      var halted;
      r, halted := Replays(op, gate, payloads, saved);
      if halted {
        return;
      }
      if r.Err? && r.error.unauthorized {
        ghost var d, mid := at, runs;
        r := RenewAndRetry(op, retry, payloads, saved, r.error);
        LoggedJoin(script, was, c, mid, d, runs, at, op, saved);
        return;
      }
      if r.Err? && r.error.permanent {
        r := Err(r.error.(stop := true));
      }
    }

    method RenewAndRetry(op: Operation, retry: bool, payloads: seq<Payload>, saved: seq<Body>, e: Error) returns (r: Result<T>)
      requires Valid() && Bodies(payloads) == saved
      modifies this`at, this`runs, payloads
      ensures Valid() && Step(r, at) == AfterRenewal(script, Step(Err(e), old(at)), retry)
      ensures Logged(script, old(runs), old(at), runs, at, op, saved)
      ensures Bodies(payloads) == LeftAt(script, Step(r, at), saved)
    {
      var failure := Renew();
      if failure.Some? {
        return Err(Unrenewed(e, failure.value, retry));
      }
      r := Err(e);
      if retry {
        r := VcdCallAttempt(op, payloads, saved);
      }
      if r.Err? && r.error.permanent {
        r := Err(r.error.(stop := true));
      }
    }

    /** One turn of the retry loop: whether it goes on, and with what. */
    method Turn(op: Operation, gate: bool, payloads: seq<Payload>, saved: seq<Body>) returns (r: Result<T>, again: bool)
      requires Valid() && Bodies(payloads) == saved
      modifies this`at, this`runs, payloads
      ensures Valid() && Onward(script, old(at), at)
      ensures if again then at.pauses > old(at).pauses && RetryOf(script, at, gate) == RetryOf(script, old(at), gate)
              else Step(r, at) == RetryOf(script, old(at), gate)
      ensures Logged(script, old(runs), old(at), runs, at, op, saved)
      ensures Bodies(payloads) == LeftAt(script, Step(r, at), saved) && (again ==> r.Err?)
    {
      r := Op(op, gate, true, payloads, saved);
      if r.Ok? || r.error.stop {
        return r, false;
      }
      var pause := NextPause();
      match pause {
        case Elapsed => return r, false;
        case ContextDone => return Err(CONTEXT_ENDED), false;
        case Again => return r, true;
      }
    }

    /** Retries the operation until it succeeds, is marked permanent, or runs out of time. */
    method RetryWithData(op: Operation, gate: bool, payloads: seq<Payload>, saved: seq<Body>) returns (r: Result<T>)
      requires Valid() && Bodies(payloads) == saved
      modifies this`at, this`runs, payloads
      ensures Valid() && Step(r, at) == RetryOf(script, old(at), gate)
      ensures Logged(script, old(runs), old(at), runs, at, op, saved)
      ensures Bodies(payloads) == LeftAt(script, Step(r, at), saved)
      decreases |script.pauses| - at.pauses
    {
      ghost var c, was := at, runs;
      var again;
      r, again := Turn(op, gate, payloads, saved);
      if again {
        ghost var d, mid := at, runs;
        r := RetryWithData(op, gate, payloads, saved);
        LoggedJoin(script, was, c, mid, d, runs, at, op, saved);
      }
    }

    /**
     * The call: its result is the one of CallOf, it is the one call added to those made so far, and its runs
     * are the runs added. Every run starts from the payloads the call was given; a call that fails gives them back.
     */
    method VcdCall(op: Operation, gate: bool, retry: bool, payloads: seq<Payload>) returns (r: Result<T>)
      requires Idle()
      modifies this, payloads
      ensures var call := Call(op, old(Bodies(payloads)), gate, retry, old(at));
              && Idle() && calls == old(calls) + [call] && Step(r, at) == v.ask(call) && Bodies(payloads) == LeftIn(v, call)
    {
      ghost var call := Call(op, Bodies(payloads), gate, retry, at);
      assert v.ask(call) == StepOf(script, call);
      var saved := Save(payloads);
      if retry {
        r := RetryWithData(op, gate, payloads, saved);
      } else {
        r := Op(op, gate, false, payloads, saved);
      }
      OneMoreCall(v, START, calls, call);
      calls := calls + [call];
    }

    method SafeCall(op: Operation, gate: bool, payloads: seq<Payload>) returns (r: Result<T>)
      requires Idle()
      modifies this, payloads
      ensures var call := Call(op, old(Bodies(payloads)), gate, true, old(at));
              && Idle() && calls == old(calls) + [call] && Step(r, at) == v.ask(call) && Bodies(payloads) == LeftIn(v, call)
    {
      r := VcdCall(op, gate, true, payloads);
    }

    /** A mutation: the call is made without retries. */
    method SingleCall(op: Operation, gate: bool, payloads: seq<Payload>) returns (r: Result<T>)
      requires Idle()
      modifies this, payloads
      ensures var call := Call(op, old(Bodies(payloads)), gate, false, old(at));
              && Idle() && calls == old(calls) + [call] && Step(r, at) == v.ask(call) && Bodies(payloads) == LeftIn(v, call)
              && RerunOnlyAfterRejection(v.ran(call), gate) && Unrejected(v.ran(call)) <= 1
    {
      ghost var call := Call(op, Bodies(payloads), gate, false, at);
      assert v.ran(call) == RunsOfCall(script, call) by {
        assert v.ask(call) == StepOf(script, call);
      }
      NeverReplayed(script, at, gate, op, Bodies(payloads));
      r := VcdCall(op, gate, false, payloads);
    }
  }
}
