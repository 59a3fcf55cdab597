/**
 * The shared vCD session: a client behind a read/write lock, renewed by token exchanges. Any number of
 * threads interleave; each Step is one atomic action of one thread, and between two actions of a method
 * other threads take any number of theirs.
 */
module Session {
  import opened Basics

  type Thread = nat

  /** Why a token was exchanged: to make the client, because the session was too old, or for a call that got a 401. */
  datatype Cause = First | Expired | Unauthorized(seen: nat)

  /** One token exchange: the generation in place when it was made, and whether it succeeded. */
  datatype Exchange = Exchange(cause: Cause, generation: nat, ok: bool)

  /**
   * `readers` maps a thread holding the read lock to the generation it reported, once it has one; `seen` keeps
   * the last generation each thread reported, which is what it brings to a renewal.
   */
  datatype Shared = Shared(
    hasClient: bool, lastAuthenticated: Option<Time>, authGeneration: nat, refreshInterval: Time,
    readers: map<Thread, Option<nat>>, writer: Option<Thread>, seen: map<Thread, nat>,
    log: seq<Exchange>, now: Time)

  const DEFAULT_SESSION_REFRESH_INTERVAL: Time := 20 * 60 * MINUTE

  function Interval(s: Shared): Time {
    if s.refreshInterval <= 0 then DEFAULT_SESSION_REFRESH_INTERVAL else s.refreshInterval
  }

  predicate TooOld(s: Shared) {
    s.lastAuthenticated.None? || s.now - s.lastAuthenticated.value >= Interval(s)
  }

  datatype Act =
    | RLock
    | RUnlock
    | Lock
    | Unlock
    | Report                          // read the generation under the read lock; the SDK call that follows belongs to it
    | Connect(ok: bool)               // getVCDClient makes the client
    | Expire(ok: bool)                // an expired session is renewed
    | Refresh(seen: nat, ok: bool)    // refreshSession renews the session that a call saw fail
    | Tick(d: nat)

  datatype Step = Step(who: Thread, act: Act)

  /** The generations a thread can bring to refreshSession: its last call's, or 0 when no session could be locked. */
  predicate Brings(s: Shared, t: Thread, seen: nat) {
    seen == 0 || (t in s.seen && s.seen[t] == seen)
  }

  predicate Can(s: Shared, st: Step) {
    match st.act
    case RLock => s.writer.None? && st.who !in s.readers
    case RUnlock => st.who in s.readers
    case Lock => s.writer.None? && s.readers == map[]
    case Unlock => s.writer == Some(st.who)
    case Report => st.who in s.readers
    case Connect(_) => s.writer == Some(st.who) && !s.hasClient
    case Expire(_) => s.writer == Some(st.who) && s.hasClient && TooOld(s)
    case Refresh(seen, _) =>
      s.writer == Some(st.who) && s.hasClient && Brings(s, st.who, seen) && s.authGeneration == seen
    case Tick(_) => true
  }

  function Do(s: Shared, st: Step): Shared {
    match st.act
    case RLock => s.(readers := s.readers[st.who := None])
    case RUnlock => s.(readers := s.readers - {st.who})
    case Lock => s.(writer := Some(st.who))
    case Unlock => s.(writer := None)
    case Report => s.(readers := s.readers[st.who := Some(s.authGeneration)], seen := s.seen[st.who := s.authGeneration])
    case Connect(ok) => Exchanged(s, First, ok)
    case Expire(ok) => Exchanged(s, Expired, ok)
    case Refresh(seen, ok) => Exchanged(s, Unauthorized(seen), ok)
    case Tick(d) => s.(now := s.now + d)
  }

  /** A success starts a new generation; a failure leaves a client that must authenticate again. */
  function Exchanged(s: Shared, cause: Cause, ok: bool): Shared {
    var tried := s.(log := s.log + [Exchange(cause, s.authGeneration, ok)]);
    if ok then tried.(hasClient := true, authGeneration := s.authGeneration + 1, lastAuthenticated := Some(s.now))
    else if s.hasClient then tried.(lastAuthenticated := None)
    else tried
  }

  function Successes(log: seq<Exchange>): nat {
    if log == [] then 0 else Successes(log[..|log| - 1]) + if log[|log| - 1].ok then 1 else 0
  }

  predicate LogOk(s: Shared) {
    && Successes(s.log) == s.authGeneration
    && (forall i :: 0 <= i < |s.log| ==> s.log[i].generation == Successes(s.log[..i]))
    && (forall i :: 0 <= i < |s.log| && s.log[i].cause.Unauthorized? ==> s.log[i].cause.seen == s.log[i].generation)
  }

  predicate Inv(s: Shared) {
    && (s.writer.Some? ==> s.readers == map[])
    && (forall t :: t in s.readers && s.readers[t].Some? ==> s.readers[t].value == s.authGeneration)
    && (forall t :: t in s.seen ==> s.seen[t] <= s.authGeneration)
    && (s.hasClient <==> s.authGeneration > 0)
    && LogOk(s)
  }

  lemma ExchangeKeepsLog(s: Shared, cause: Cause, ok: bool)
    requires LogOk(s) && (cause.Unauthorized? ==> cause.seen == s.authGeneration)
    ensures LogOk(Exchanged(s, cause, ok))
  {
    var t := Exchanged(s, cause, ok);
    assert t.log[..|s.log|] == s.log;
    forall i | 0 <= i < |t.log|
      ensures t.log[i].generation == Successes(t.log[..i])
    {
      assert t.log[..i] == s.log[..i];
    }
  }

  lemma StepKeepsInv(s: Shared, st: Step)
    requires Inv(s) && Can(s, st)
    ensures Inv(Do(s, st))
  {
    match st.act
    case Connect(ok) => ExchangeKeepsLog(s, First, ok);
    case Expire(ok) => ExchangeKeepsLog(s, Expired, ok);
    case Refresh(seen, ok) => ExchangeKeepsLog(s, Unauthorized(seen), ok);
    case _ =>
  }

  function Initial(refreshInterval: Time): Shared {
    Shared(false, None, 0, refreshInterval, map[], None, map[], [], 0)
  }

  predicate IsRun(s: Shared, steps: seq<Step>)
    decreases |steps|
  {
    steps == [] || (Can(s, steps[0]) && IsRun(Do(s, steps[0]), steps[1..]))
  }

  function After(s: Shared, steps: seq<Step>): Shared
    requires IsRun(s, steps)
    decreases |steps|
  {
    if steps == [] then s else After(Do(s, steps[0]), steps[1..])
  }

  lemma {:induction false} RunKeepsInv(s: Shared, steps: seq<Step>)
    requires Inv(s) && IsRun(s, steps)
    ensures Inv(After(s, steps))
    decreases |steps|
  {
    if steps != [] {
      StepKeepsInv(s, steps[0]);
      RunKeepsInv(Do(s, steps[0]), steps[1..]);
    }
  }

  lemma {:induction false} SuccessesGrow(log: seq<Exchange>, i: nat, j: nat)
    requires i <= j <= |log|
    ensures Successes(log[..i]) <= Successes(log[..j])
    decreases j
  {
    if i < j {
      SuccessesGrow(log, i, j - 1);
      assert log[..j][..j - 1] == log[..j - 1];
    }
  }

  /** The generation an exchange answers: the one its caller saw fail, or the one it replaces. */
  function Answers(e: Exchange): nat {
    if e.cause.Unauthorized? then e.cause.seen else e.generation
  }

  /**
   * For any number of callers that saw the same generation, in any order, at most one successful exchange
   * answers it, renewals of expired sessions included; and the generation counts the successes.
   */
  lemma OneSuccessPerGeneration(interval: Time, steps: seq<Step>, i: nat, j: nat)
    requires IsRun(Initial(interval), steps)
    requires i < j < |After(Initial(interval), steps).log|
    ensures var s := After(Initial(interval), steps);
            && (s.log[i].ok ==> Answers(s.log[j]) > Answers(s.log[i]))
            && s.authGeneration == Successes(s.log)
  {
    RunKeepsInv(Initial(interval), steps);
    var log := After(Initial(interval), steps).log;
    SuccessesGrow(log, i + 1, j);
    assert log[..i + 1][..i] == log[..i];
  }

  /** A caller that comes to renew a generation already answered exchanges nothing, and neither does one that saw none. */
  lemma AnsweredIsNotRenewed(interval: Time, steps: seq<Step>, i: nat, t: Thread, seen: nat, ok: bool)
    requires IsRun(Initial(interval), steps) && i < |After(Initial(interval), steps).log|
    requires var s := After(Initial(interval), steps); s.log[i].ok && Answers(s.log[i]) == seen
    ensures !Can(After(Initial(interval), steps), Step(t, Refresh(seen, ok)))
    ensures !Can(After(Initial(interval), steps), Step(t, Refresh(0, ok)))
  {
    RunKeepsInv(Initial(interval), steps);
    var log := After(Initial(interval), steps).log;
    SuccessesGrow(log, i + 1, |log|);
    assert log[..|log|] == log && log[..i + 1][..i] == log[..i];
  }

  predicate Exchanges(act: Act) {
    act.Connect? || act.Expire? || act.Refresh?
  }

  /** No thread is inside an SDK call while a token is exchanged. */
  lemma RenewalExcludesCalls(interval: Time, steps: seq<Step>, st: Step)
    requires IsRun(Initial(interval), steps) && Can(After(Initial(interval), steps), st) && Exchanges(st.act)
    ensures After(Initial(interval), steps).readers == map[]
  {
    RunKeepsInv(Initial(interval), steps);
  }

  // What other threads can do.

  predicate Holds(s: Shared, t: Thread) {
    t in s.readers || s.writer == Some(t)
  }

  /** b can be a after steps of threads other than t. */
  predicate Rely(t: Thread, a: Shared, b: Shared) {
    && Grows(a, b)
    && (t in a.readers <==> t in b.readers) && (t in a.readers ==> b.readers[t] == a.readers[t])
    && (t in a.seen ==> t in b.seen && b.seen[t] == a.seen[t])
    && b.refreshInterval == a.refreshInterval
    && (a.writer == Some(t) <==> b.writer == Some(t))
    && (Holds(a, t) ==> b.authGeneration == a.authGeneration && b.hasClient == a.hasClient
                        && b.lastAuthenticated == a.lastAuthenticated && b.log == a.log)
  }

  lemma StepGrows(s: Shared, st: Step)
    requires Can(s, st)
    ensures Grows(s, Do(s, st))
  {
    var b := Do(s, st);
    if |b.log| > |s.log| {
      assert b.log[|s.log|].ok || FailedSince(b.log, |s.log|);
    }
  }

  lemma OtherStepRelies(t: Thread, s: Shared, st: Step)
    requires Inv(s) && Can(s, st) && st.who != t
    ensures Rely(t, s, Do(s, st))
  {
    StepGrows(s, st);
  }

  lemma RelyTransitive(t: Thread, a: Shared, b: Shared, c: Shared)
    requires Rely(t, a, b) && Rely(t, b, c)
    ensures Rely(t, a, c)
  {
    GrowsTransitive(a, b, c);
  }

  /** Over time: exchanges accumulate, generations only rise, and a client stays. */
  predicate Grows(a: Shared, b: Shared) {
    && a.authGeneration <= b.authGeneration && (a.hasClient ==> b.hasClient) && a.log <= b.log
    && a.now <= b.now && b.refreshInterval == a.refreshInterval && Dated(a, b)
  }

  predicate FailedSince(log: seq<Exchange>, n: nat) {
    exists i :: n <= i < |log| && !log[i].ok
  }

  /** The session is as old as it was, or was authenticated since, or an exchange failed since. */
  predicate Dated(a: Shared, b: Shared) {
    || (b.lastAuthenticated == a.lastAuthenticated && b.hasClient == a.hasClient)
    || (b.lastAuthenticated.Some? && b.lastAuthenticated.value >= a.now)
    || FailedSince(b.log, |a.log|)
  }

  lemma GrowsTransitive(a: Shared, b: Shared, c: Shared)
    requires Grows(a, b) && Grows(b, c)
    ensures Grows(a, c)
  {
    if FailedSince(b.log, |a.log|) {
      var i :| |a.log| <= i < |b.log| && !b.log[i].ok;
      assert !c.log[i].ok;
    }
  }

  /** The session had not expired by this time, unless an exchange has failed since. */
  predicate FreshAt(s: Shared, time: Time, n: nat) {
    s.hasClient ==> (s.lastAuthenticated.Some? && time - s.lastAuthenticated.value < Interval(s)) || FailedSince(s.log, n)
  }

  /** What an exchange leaves: a client whose session is new, or a failure in the log. */
  lemma ExchangeLeaves(s: Shared, cause: Cause, ok: bool)
    ensures var t := Exchanged(s, cause, ok);
            if ok then t.hasClient && !TooOld(t)
            else |t.log| == |s.log| + 1 && !t.log[|s.log|].ok && FailedSince(t.log, |s.log|)
  {
    assert Exchanged(s, cause, ok).log[|s.log|].ok == ok;
  }

  lemma FreshNow(a: Shared, b: Shared)
    requires Grows(a, b) && !TooOld(b)
    ensures FreshAt(b, a.now, |a.log|)
  {
  }

  lemma FailedBefore(log: seq<Exchange>, m: nat, n: nat)
    requires m <= n && FailedSince(log, n)
    ensures FailedSince(log, m)
  {
  }

  lemma FreshLater(a: Shared, b: Shared, time: Time, n: nat)
    requires Grows(a, b) && FreshAt(a, time, n) && time <= a.now && n <= |a.log|
    ensures FreshAt(b, time, n)
  {
    if FailedSince(a.log, n) {
      var i :| n <= i < |a.log| && !a.log[i].ok;
      assert !b.log[i].ok;
    }
  }

  class SessionLock {
    var s: Shared

    constructor (refreshInterval: Time)
      ensures s == Initial(refreshInterval) && Inv(s)
    {
      s := Initial(refreshInterval);
    }

    method Take(st: Step)
      requires Inv(s) && Can(s, st)
      modifies this
      ensures Inv(s) && s == Do(old(s), st) && Grows(old(s), s)
    {
      StepKeepsInv(s, st);
      StepGrows(s, st);
      s := Do(s, st);
    }

    /** Other threads take any number of steps. */
    method Interfere(t: Thread)
      requires Inv(s)
      modifies this
      ensures Inv(s) && Rely(t, old(s), s)
    {
      var n: nat := *;
      while n > 0
        invariant Inv(s) && Rely(t, old(s), s)
      {
        var st: Step := *;
        if st.who != t && Can(s, st) {
          OtherStepRelies(t, s, st);
          RelyTransitive(t, old(s), s, Do(s, st));
          Take(st);
        }
        n := n - 1;
      }
    }

    /** Blocks until the read lock is granted. */
    method AwaitRLock(t: Thread)
      requires Inv(s) && !Holds(s, t)
      modifies this
      ensures Inv(s) && t in s.readers && s.readers[t] == None
      ensures Grows(old(s), s)
    {
      Interfere(t);
      if s.writer.Some? {
        Take(Step(s.writer.value, Unlock));
      }
      Take(Step(t, RLock));
    }

    /** Blocks until the write lock is granted: until every reader has let go. */
    method AwaitLock(t: Thread)
      requires Inv(s) && !Holds(s, t)
      modifies this
      ensures Inv(s) && s.writer == Some(t)
      ensures Grows(old(s), s) && (t in old(s).seen ==> t in s.seen && s.seen[t] == old(s).seen[t])
    {
      Interfere(t);
      if s.writer.Some? {
        Take(Step(s.writer.value, Unlock));
      }
      while s.readers != map[]
        invariant Inv(s) && s.writer.None?
        invariant Grows(old(s), s) && (t in old(s).seen ==> t in s.seen && s.seen[t] == old(s).seen[t])
        decreases s.readers.Keys
      {
        assert s.readers.Keys != {};
        var u :| u in s.readers;
        Take(Step(u, RUnlock));
      }
      Take(Step(t, Lock));
    }

    predicate SessionExpired()
      reads this
    {
      TooOld(s)
    }

    /** Holding the write lock: one exchange, answered by `ok`. */
    method AuthenticateLocked(t: Thread, act: Act)
      requires Inv(s) && Can(s, Step(t, act)) && (act.Expire? || act.Refresh?)
      modifies this
      ensures Inv(s) && s == Do(old(s), Step(t, act)) && Grows(old(s), s)
      ensures s.authGeneration == old(s).authGeneration + if act.ok then 1 else 0
      ensures s.lastAuthenticated == if act.ok then Some(s.now) else None
    {
      Take(Step(t, act));
    }

    /** The critical section of a renewal: a session that another thread renewed meanwhile is left alone. */
    method RenewExpired(t: Thread, ok: bool) returns (failed: bool)
      requires Inv(s) && !Holds(s, t) && s.hasClient
      modifies this
      ensures Inv(s) && !Holds(s, t) && Grows(old(s), s)
      ensures failed ==> !ok && FailedSince(s.log, |old(s.log)|)
      ensures !failed ==> FreshAt(s, old(s.now), |old(s.log)|)
    {
      ghost var a := s;
      AwaitLock(t);
      ghost var b := s;
      failed := RenewLocked(t, ok);
      ghost var c := s;
      GrowsTransitive(a, b, c);
      if failed {
        FailedBefore(c.log, |a.log|, |b.log|);
      } else {
        FreshNow(a, c);
      }
      Take(Step(t, Unlock));
      GrowsTransitive(a, c, s);
    }

    method RenewLocked(t: Thread, ok: bool) returns (failed: bool)
      requires Inv(s) && s.writer == Some(t) && s.hasClient
      modifies this
      ensures Inv(s) && s.writer == Some(t) && Grows(old(s), s)
      ensures if failed then !ok && FailedSince(s.log, |old(s.log)|) else s.hasClient && !TooOld(s)
    {
      failed := false;
      if SessionExpired() {
        ExchangeLeaves(s, Expired, ok);
        AuthenticateLocked(t, Expire(ok));
        failed := !ok;
      }
    }

    /**
     * Returns with the read lock held, and the current generation reported, exactly when it returns no error. A session
     * that had expired when the call began is renewed by then.
     */
    method LockSession(t: Thread, ended: bool, ok: bool) returns (generation: Option<nat>)
      requires Inv(s) && !Holds(s, t)
      modifies this
      ensures Inv(s) && s.writer != Some(t)
      ensures generation.Some? <==> t in s.readers
      ensures generation.Some? ==> s.readers[t] == generation == Some(s.authGeneration) && Brings(s, t, generation.value)
      ensures ended ==> generation.None?
      ensures generation.None? ==> ended || (!ok && FailedSince(s.log, |old(s.log)|))
      ensures generation.Some? ==> FreshAt(s, old(s.now), |old(s.log)|)
    {
      AwaitRLock(t);
      if ended {
        Take(Step(t, RUnlock));
        return None;
      }
      Interfere(t);
      if !s.hasClient || !SessionExpired() {
        Take(Step(t, Report));
        return Some(s.authGeneration);
      }
      ghost var a := s;
      Take(Step(t, RUnlock));
      var failed := RenewExpired(t, ok);
      if failed {
        return None;
      }
      ghost var b := s;
      LockAgain(t);
      FreshLater(b, s, a.now, |a.log|);
      return Some(s.authGeneration);
    }

    method LockAgain(t: Thread)
      requires Inv(s) && !Holds(s, t)
      modifies this
      ensures Inv(s) && s.writer != Some(t) && t in s.readers && Grows(old(s), s)
      ensures s.readers[t] == Some(s.authGeneration) && Brings(s, t, s.authGeneration)
    {
      ghost var a := s;
      AwaitRLock(t);
      ghost var b := s;
      Take(Step(t, Report));
      GrowsTransitive(a, b, s);
    }

    /**
     * Renews unless the session has moved on from the generation the caller saw: success means that a
     * newer generation is in place, and an exchange is made only for that very generation.
     */
    method RefreshSession(t: Thread, ended: bool, generation: nat, ok: bool) returns (failed: bool, exchanged: bool)
      requires Inv(s) && !Holds(s, t) && Brings(s, t, generation)
      modifies this
      ensures Inv(s) && !Holds(s, t)
      ensures !failed ==> s.authGeneration > generation
      ensures failed ==> ended || !s.hasClient || (exchanged && !ok)
      ensures LastAnswers(exchanged, generation, ok) && (exchanged ==> (failed <==> !ok))
    {
      AwaitLock(t);
      failed, exchanged := RefreshLocked(t, ended, generation, ok);
      Take(Step(t, Unlock));
    }

    /** If there was an exchange, it is the last one made, for this generation, which is one that some call saw. */
    predicate LastAnswers(exchanged: bool, generation: nat, ok: bool)
      reads this
    {
      exchanged ==> generation > 0 && s.log != [] && s.log[|s.log| - 1] == Exchange(Unauthorized(generation), generation, ok)
    }

    /** refreshSession's body, holding the write lock: other threads are shut out until it is released. */
    method RefreshLocked(t: Thread, ended: bool, generation: nat, ok: bool) returns (failed: bool, exchanged: bool)
      requires Inv(s) && s.writer == Some(t) && Brings(s, t, generation)
      modifies this
      ensures Inv(s) && s.writer == Some(t)
      ensures exchanged <==> !ended && Can(old(s), Step(t, Refresh(generation, ok)))
      ensures s == if exchanged then Do(old(s), Step(t, Refresh(generation, ok))) else old(s)
      ensures !failed ==> s.authGeneration > generation
      ensures failed <==> ended || !old(s).hasClient || (exchanged && !ok)
      ensures LastAnswers(exchanged, generation, ok)
    {
      if ended {
        return true, false;
      }
      if !s.hasClient {
        return true, false;
      }
      if s.authGeneration != generation {
        return false, false;
      }
      AuthenticateLocked(t, Refresh(generation, ok));
      return !ok, true;
    }

    /** Fails only when its own exchange did; else there is a client, and one whose session had expired is renewed by then. */
    method GetVCDClient(t: Thread, ok: bool) returns (failed: bool)
      requires Inv(s) && !Holds(s, t)
      modifies this
      ensures Inv(s) && !Holds(s, t)
      ensures !failed ==> s.hasClient && FreshAt(s, old(s.now), |old(s.log)|)
      ensures failed ==> !ok && FailedSince(s.log, |old(s.log)|)
    {
      ghost var a := s;
      AwaitRLock(t);
      var ready := s.hasClient && !SessionExpired();
      ghost var b := s;
      Take(Step(t, RUnlock));
      GrowsTransitive(a, b, s);
      if ready {
        return false;
      }
      failed := MakeClient(t, ok);
    }

    /** The rest of getVCDClient, when the client has to be made or renewed. */
    method MakeClient(t: Thread, ok: bool) returns (failed: bool)
      requires Inv(s) && !Holds(s, t)
      modifies this
      ensures Inv(s) && !Holds(s, t) && Grows(old(s), s)
      ensures !failed ==> s.hasClient && FreshAt(s, old(s.now), |old(s.log)|)
      ensures failed ==> !ok && FailedSince(s.log, |old(s.log)|)
    {
      ghost var a := s;
      AwaitLock(t);
      ghost var b := s;
      failed := ClientLocked(t, ok);
      ghost var c := s;
      GrowsTransitive(a, b, c);
      if failed {
        FailedBefore(c.log, |a.log|, |b.log|);
      } else {
        FreshNow(a, c);
      }
      Take(Step(t, Unlock));
      GrowsTransitive(a, c, s);
    }

    /** getVCDClient under the write lock: make the client, or renew an expired session. */
    method ClientLocked(t: Thread, ok: bool) returns (failed: bool)
      requires Inv(s) && s.writer == Some(t)
      modifies this
      ensures Inv(s) && s.writer == Some(t) && Grows(old(s), s)
      ensures if failed then !ok && FailedSince(s.log, |old(s.log)|) else s.hasClient && !TooOld(s)
    {
      if s.hasClient {
        failed := RenewLocked(t, ok);
        return;
      }
      ExchangeLeaves(s, First, ok);
      Take(Step(t, Connect(ok)));
      return !ok;
    }

    /** One SDK call: whatever other threads do meanwhile, its generation stays the current one. */
    method Call(t: Thread, ended: bool, ok: bool) returns (generation: Option<nat>)
      requires Inv(s) && !Holds(s, t)
      modifies this
      ensures Inv(s) && !Holds(s, t)
      ensures generation.Some? ==> generation == Some(s.authGeneration) && Brings(s, t, generation.value)
      ensures generation.None? ==> ended || !ok
    {
      generation := LockSession(t, ended, ok);
      if generation.None? {
        return;
      }
      ghost var log := s.log;
      Interfere(t);
      assert s.log == log;
      Take(Step(t, RUnlock));
    }
  }
}
