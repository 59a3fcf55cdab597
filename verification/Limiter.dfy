/**
 * The operation limiter. One dispatcher acquires slots; any number of workers release them
 * concurrently, each in three atomic steps. A step of any goroutine is a Step; between two steps of a
 * method other goroutines take any number of theirs.
 */
module Limiter {
  import opened Basics

  datatype Kind = Create | Delete

  /** The semaphore and the counter of one kind, and the workers behind them. */
  datatype Side = Side(
    cap: nat,
    sem: nat,        // semaphore slots in use
    count: int,      // the atomic in-use counter
    running: nat,    // workers still at their operation
    uncounted: nat,  // workers that left the counter but hold both semaphores
    returning: nat,  // workers that hold only the semaphore of the kind
    pending: nat,    // 1 while the dispatcher holds only the semaphore of the kind
    granted: nat,    // 1 while the dispatcher holds both semaphores and has not counted
    started: nat,    // operations dispatched so far
    finished: nat)   // and those of them that have left the counter

  datatype Shared = Shared(size: nat, reserve: bool, total: nat, c: Side, d: Side, drained: bool)

  function New(total: nat, maxCreates: nat, maxDeletes: nat): Shared {
    Shared(total, true, 0, NewSide(Min(maxCreates, total)), NewSide(Min(maxDeletes, total)), false)
  }

  function NewSide(cap: nat): Side {
    Side(cap, 0, 0, 0, 0, 0, 0, 0, 0, 0)
  }

  function Of(s: Shared, k: Kind): Side {
    if k == Create then s.c else s.d
  }

  function Other(k: Kind): Kind {
    if k == Create then Delete else Create
  }

  function With(s: Shared, k: Kind, side: Side): Shared {
    if k == Create then s.(c := side) else s.(d := side)
  }

  /** Deletes must leave the last slot alone. */
  predicate ReserveRefuses(s: Shared, k: Kind) {
    k == Delete && s.reserve && s.size > 1 && s.d.count >= s.size - 1
  }

  /** The dispatcher is not inside tryAcquire. */
  predicate Idle(s: Shared) {
    s.c.pending == s.c.granted == s.d.pending == s.d.granted == 0
  }

  datatype Step =
    | Finish(k: Kind)       // release: decrement the counter
    | ReturnTotal(k: Kind)  // release: give back the shared slot
    | ReturnKind(k: Kind)   // release: give back the slot of the kind
    | TakeKind(k: Kind)     // tryAcquire, after the reserve check
    | TakeTotal(k: Kind)
    | GiveBack(k: Kind)     // tryAcquire, when no shared slot was free
    | Count(k: Kind)        // tryAcquire: count the operation, which is now dispatched
    | Drain

  predicate Can(s: Shared, st: Step) {
    match st
    case Finish(k) => Of(s, k).running > 0
    case ReturnTotal(k) => Of(s, k).uncounted > 0 && s.total > 0
    case ReturnKind(k) => Of(s, k).returning > 0 && Of(s, k).sem > 0
    case TakeKind(k) => Idle(s) && !ReserveRefuses(s, k) && Of(s, k).sem < Of(s, k).cap
    case TakeTotal(k) => Of(s, k).pending > 0 && s.total < s.size
    case GiveBack(k) => Of(s, k).pending > 0 && Of(s, k).sem > 0
    case Count(k) => Of(s, k).granted > 0
    case Drain => Idle(s) && s.total == 0
  }

  function Do(s: Shared, st: Step): Shared
    requires Can(s, st)
  {
    match st
    case Finish(k) =>
      var side := Of(s, k);
      With(s, k, side.(count := side.count - 1, running := side.running - 1, uncounted := side.uncounted + 1, finished := side.finished + 1))
    case ReturnTotal(k) =>
      var side := Of(s, k);
      With(s, k, side.(uncounted := side.uncounted - 1, returning := side.returning + 1)).(total := s.total - 1)
    case ReturnKind(k) =>
      var side := Of(s, k);
      With(s, k, side.(returning := side.returning - 1, sem := side.sem - 1))
    case TakeKind(k) =>
      var side := Of(s, k);
      With(s, k, side.(sem := side.sem + 1, pending := side.pending + 1))
    case TakeTotal(k) =>
      var side := Of(s, k);
      With(s, k, side.(pending := side.pending - 1, granted := side.granted + 1)).(total := s.total + 1)
    case GiveBack(k) =>
      var side := Of(s, k);
      With(s, k, side.(sem := side.sem - 1, pending := side.pending - 1))
    case Count(k) =>
      var side := Of(s, k);
      With(s, k, side.(count := side.count + 1, granted := side.granted - 1, running := side.running + 1, started := side.started + 1))
    case Drain => s.(total := s.size, drained := true)
  }

  predicate SideOk(side: Side) {
    && side.sem == side.running + side.uncounted + side.returning + side.pending + side.granted <= side.cap
    && side.count == side.running && side.started == side.running + side.finished
  }

  /** Shared slots that one kind accounts for. */
  function Slots(side: Side): nat {
    side.running + side.uncounted + side.granted
  }

  /** The counters and semaphores add up to the goroutines behind them, and the limits hold. */
  predicate Inv(s: Shared) {
    && SideOk(s.c) && SideOk(s.d)
    && s.total == Slots(s.c) + Slots(s.d) + (if s.drained then s.size else 0) <= s.size
    && (s.reserve && s.size > 1 ==> s.d.running + s.d.pending + s.d.granted <= s.size - 1)
  }

  /** What the steps never touch. */
  predicate SameLimits(s: Shared, t: Shared) {
    t.size == s.size && t.reserve == s.reserve && t.c.cap == s.c.cap && t.d.cap == s.d.cap
  }

  lemma FinishKeepsInv(s: Shared, k: Kind)
    requires Inv(s) && Can(s, Finish(k))
    ensures Inv(Do(s, Finish(k))) && SameLimits(s, Do(s, Finish(k)))
  {
  }

  lemma ReturnTotalKeepsInv(s: Shared, k: Kind)
    requires Inv(s) && Can(s, ReturnTotal(k))
    ensures Inv(Do(s, ReturnTotal(k))) && SameLimits(s, Do(s, ReturnTotal(k)))
  {
  }

  lemma ReturnKindKeepsInv(s: Shared, k: Kind)
    requires Inv(s) && Can(s, ReturnKind(k))
    ensures Inv(Do(s, ReturnKind(k))) && SameLimits(s, Do(s, ReturnKind(k)))
  {
  }

  lemma TakeKindKeepsInv(s: Shared, k: Kind)
    requires Inv(s) && Can(s, TakeKind(k))
    ensures Inv(Do(s, TakeKind(k))) && SameLimits(s, Do(s, TakeKind(k)))
  {
  }

  lemma TakeTotalKeepsInv(s: Shared, k: Kind)
    requires Inv(s) && Can(s, TakeTotal(k))
    ensures Inv(Do(s, TakeTotal(k))) && SameLimits(s, Do(s, TakeTotal(k)))
  {
  }

  lemma GiveBackKeepsInv(s: Shared, k: Kind)
    requires Inv(s) && Can(s, GiveBack(k))
    ensures Inv(Do(s, GiveBack(k))) && SameLimits(s, Do(s, GiveBack(k)))
  {
  }

  lemma CountKeepsInv(s: Shared, k: Kind)
    requires Inv(s) && Can(s, Count(k))
    ensures Inv(Do(s, Count(k))) && SameLimits(s, Do(s, Count(k)))
  {
  }

  lemma ReleaseStepKeepsInv(s: Shared, st: Step)
    requires Inv(s) && Can(s, st) && WorkerStep(st)
    ensures Inv(Do(s, st)) && SameLimits(s, Do(s, st))
  {
    match st
    case Finish(k) => FinishKeepsInv(s, k);
    case ReturnTotal(k) => ReturnTotalKeepsInv(s, k);
    case ReturnKind(k) => ReturnKindKeepsInv(s, k);
  }

  lemma DispatcherStepKeepsInv(s: Shared, st: Step)
    requires Inv(s) && Can(s, st) && !WorkerStep(st)
    ensures Inv(Do(s, st)) && SameLimits(s, Do(s, st))
  {
    match st
    case TakeKind(k) => TakeKindKeepsInv(s, k);
    case TakeTotal(k) => TakeTotalKeepsInv(s, k);
    case GiveBack(k) => GiveBackKeepsInv(s, k);
    case Count(k) => CountKeepsInv(s, k);
    case Drain =>
  }

  lemma StepKeepsInv(s: Shared, st: Step)
    requires Inv(s) && Can(s, st)
    ensures Inv(Do(s, st)) && SameLimits(s, Do(s, st)) && (s.drained ==> Do(s, st).drained)
  {
    if WorkerStep(st) {
      ReleaseStepKeepsInv(s, st);
    } else {
      DispatcherStepKeepsInv(s, st);
    }
  }

  predicate IsRun(s: Shared, steps: seq<Step>)
    decreases |steps|
  {
    steps == [] || (Can(s, steps[0]) && IsRun(Do(s, steps[0]), steps[1..]))
  }

  function After(s: Shared, steps: seq<Step>): Shared
    requires IsRun(s, steps)
    decreases |steps|
  {
    if steps == [] then s else After(Do(s, steps[0]), steps[1..])
  }

  lemma {:induction false} RunKeepsInv(s: Shared, steps: seq<Step>)
    requires Inv(s) && IsRun(s, steps)
    ensures Inv(After(s, steps)) && SameLimits(s, After(s, steps)) && (s.drained ==> After(s, steps).drained)
    decreases |steps|
  {
    if steps != [] {
      StepKeepsInv(s, steps[0]);
      RunKeepsInv(Do(s, steps[0]), steps[1..]);
    }
  }

  /** Every interleaving of one dispatcher with any number of releasing workers stays within the limits. */
  lemma RunsStayWithinLimits(total: nat, maxCreates: nat, maxDeletes: nat, steps: seq<Step>)
    requires IsRun(New(total, maxCreates, maxDeletes), steps)
    ensures var t := After(New(total, maxCreates, maxDeletes), steps);
            && t.total <= total && t.c.sem <= Min(maxCreates, total) && t.d.sem <= Min(maxDeletes, total)
            && t.c.count == t.c.running && t.d.count == t.d.running
            && (total > 1 ==> t.d.count <= total - 1)
  {
    RunKeepsInv(New(total, maxCreates, maxDeletes), steps);
  }

  /** Once drained, nothing runs and nothing can ever be dispatched again. */
  lemma DrainedForGood(s: Shared, steps: seq<Step>)
    requires Inv(s) && s.drained && s.size > 0 && IsRun(s, steps)
    ensures var t := After(s, steps);
            && t.c.running == 0 && t.d.running == 0 && t.c.uncounted == 0 && t.d.uncounted == 0
            && (forall k :: !Can(t, TakeTotal(k)) && !Can(t, Count(k)))
  {
    RunKeepsInv(s, steps);
  }

  // What other workers' releases can do to the shared state.

  predicate SideEased(a: Side, b: Side) {
    && b.cap == a.cap && b.pending == a.pending && b.granted == a.granted && b.started == a.started && b.sem <= a.sem && b.count <= a.count && b.running <= a.running
    && b.running + b.uncounted <= a.running + a.uncounted
  }

  /** b can be a plus some releases: nothing was acquired in between. */
  predicate Eased(a: Shared, b: Shared) {
    && b.size == a.size && b.reserve == a.reserve && b.drained == a.drained
    && b.total <= a.total && SideEased(a.c, b.c) && SideEased(a.d, b.d)
  }

  predicate SideBetween(a: Side, b: Side, n: nat) {
    b.cap == a.cap && b.started == a.started + n && b.sem <= a.sem + n && b.count <= a.count + n && b.running <= a.running + n
  }

  /** b can be a plus some releases and n operations of kind k newly dispatched. */
  predicate Between(a: Shared, b: Shared, k: Kind, n: nat) {
    && b.size == a.size && b.reserve == a.reserve && b.drained == a.drained && b.total <= a.total + n
    && SideBetween(a.c, b.c, if k == Create then n else 0) && SideBetween(a.d, b.d, if k == Delete then n else 0)
  }

  /** A goroutine that is itself inside release: others cannot take its step for it. */
  datatype Mine = Nobody | AtUncounted(k: Kind) | AtReturning(k: Kind)

  predicate Keeps(s: Shared, mine: Mine) {
    match mine
    case Nobody => true
    case AtUncounted(k) => Of(s, k).uncounted > 0
    case AtReturning(k) => Of(s, k).returning > 0
  }

  /** Release steps that the workers still have to take. */
  function Remaining(s: Shared): nat {
    3 * (s.c.running + s.d.running) + 2 * (s.c.uncounted + s.d.uncounted) + s.c.returning + s.d.returning
  }

  predicate WorkerStep(st: Step) {
    st.Finish? || st.ReturnTotal? || st.ReturnKind?
  }

  lemma FinishEases(s: Shared, k: Kind)
    requires Inv(s) && Can(s, Finish(k))
    ensures Eased(s, Do(s, Finish(k))) && Remaining(Do(s, Finish(k))) == Remaining(s) - 1
  {
  }

  lemma ReturnTotalEases(s: Shared, k: Kind)
    requires Inv(s) && Can(s, ReturnTotal(k))
    ensures Eased(s, Do(s, ReturnTotal(k))) && Remaining(Do(s, ReturnTotal(k))) == Remaining(s) - 1
  {
  }

  lemma ReturnKindEases(s: Shared, k: Kind)
    requires Inv(s) && Can(s, ReturnKind(k))
    ensures Eased(s, Do(s, ReturnKind(k))) && Remaining(Do(s, ReturnKind(k))) == Remaining(s) - 1
  {
  }

  lemma ReleaseEases(s: Shared, st: Step)
    requires Inv(s) && Can(s, st) && WorkerStep(st)
    ensures Inv(Do(s, st)) && Eased(s, Do(s, st)) && Remaining(Do(s, st)) == Remaining(s) - 1
  {
    ReleaseStepKeepsInv(s, st);
    match st
    case Finish(k) => FinishEases(s, k);
    case ReturnTotal(k) => ReturnTotalEases(s, k);
    case ReturnKind(k) => ReturnKindEases(s, k);
  }

  lemma EasedTransitive(a: Shared, b: Shared, c: Shared)
    requires Eased(a, b) && Eased(b, c)
    ensures Eased(a, c)
  {
  }

  // The stations of tryAcquire, with other workers' releases between them.

  predicate HasKind(a: Shared, b: Shared, k: Kind) {
    Inv(b) && Idle(a) && Can(a, TakeKind(k)) && Eased(Do(a, TakeKind(k)), b)
  }

  lemma TakeKindThen(a: Shared, b: Shared, k: Kind)
    requires HasKind(a, b, k)
    ensures Can(b, GiveBack(k)) && b.total <= a.total && b.size == a.size && b.drained == a.drained
    ensures Of(b, k).pending == 1 && Of(b, k).granted == 0
    ensures Of(b, Other(k)).pending == Of(b, Other(k)).granted == 0
    ensures b.drained && b.size > 0 ==> b.total >= b.size
  {
  }

  lemma GiveBackEnds(a: Shared, b: Shared, s: Shared, k: Kind)
    requires HasKind(a, b, k) && Can(b, GiveBack(k)) && s == Do(b, GiveBack(k))
    ensures Idle(s) && Between(a, s, k, 0)
  {
    TakeKindThen(a, b, k);
  }

  predicate HasBoth(b: Shared, c: Shared, k: Kind) {
    Inv(c) && Of(b, k).pending == 1 && Can(b, TakeTotal(k)) && Eased(Do(b, TakeTotal(k)), c)
  }

  lemma TakeTotalThen(b: Shared, c: Shared, k: Kind)
    requires HasBoth(b, c, k) && Of(b, k).granted == 0
    requires Of(b, Other(k)).pending == Of(b, Other(k)).granted == 0
    ensures Can(c, Count(k)) && c.total <= b.total + 1
    ensures Of(c, k).pending == 0 && Of(c, k).granted == 1
    ensures Of(c, Other(k)).pending == Of(c, Other(k)).granted == 0
  {
  }

  lemma CountEnds(a: Shared, b: Shared, c: Shared, s: Shared, k: Kind)
    requires HasKind(a, b, k) && HasBoth(b, c, k) && Can(c, Count(k)) && s == Do(c, Count(k))
    ensures Idle(s) && Between(a, s, k, 1) && Of(s, k).running > 0
  {
    TakeKindThen(a, b, k);
    TakeTotalThen(b, c, k);
  }

  /** No create holds or returns a slot, no delete is halfway through its return, and nothing is drained. */
  predicate CreateSlotFree(s: Shared) {
    && s.reserve && s.size > 1 && s.c.cap > 0 && !s.drained && Idle(s)
    && s.c.running == s.c.uncounted == s.c.returning == s.d.uncounted == 0
  }

  /** Releases cannot undo the checks that let an acquire go on. */
  lemma ChecksStand(a: Shared, b: Shared, k: Kind)
    requires Inv(a) && Inv(b) && Eased(a, b)
    ensures Idle(a) ==> Idle(b)
    ensures !ReserveRefuses(a, k) ==> !ReserveRefuses(b, k)
    ensures CreateSlotFree(a) ==> !ReserveRefuses(b, Create) && b.c.sem < b.c.cap && b.total < b.size
  {
  }

  lemma EasedThenBetween(a: Shared, b: Shared, c: Shared, k: Kind, n: nat)
    requires Eased(a, b) && Between(b, c, k, n)
    ensures Between(a, c, k, n)
  {
  }

  class OpLimiter {
    var s: Shared

    constructor (total: nat, maxCreates: nat, maxDeletes: nat)
      ensures s == New(total, maxCreates, maxDeletes) && Inv(s)
    {
      s := New(total, maxCreates, maxDeletes);
    }

    /** Other workers take any number of release steps. */
    method Interfere(mine: Mine)
      requires Inv(s) && Keeps(s, mine)
      modifies this
      ensures Inv(s) && Keeps(s, mine) && Eased(old(s), s) && Remaining(s) <= Remaining(old(s))
    {
      var n: nat := *;
      while n > 0
        invariant Inv(s) && Keeps(s, mine) && Eased(old(s), s) && Remaining(s) <= Remaining(old(s))
      {
        var st: Step := *;
        if WorkerStep(st) && Can(s, st) && Keeps(Do(s, st), mine) {
          ReleaseEases(s, st);
          s := Do(s, st);
        }
        n := n - 1;
      }
    }

    /** One atomic step of the calling goroutine. */
    method Take(st: Step)
      requires Inv(s) && Can(s, st)
      modifies this
      ensures s == Do(old(s), st) && Inv(s)
    {
      StepKeepsInv(s, st);
      s := Do(s, st);
    }

    /**
     * Takes a slot without blocking: exactly one operation is dispatched if it says so, and else none. It succeeds whenever there is room when it begins: releases only add to
     * it. With the reserve on and more than one slot, a create always gets one when no create holds or is
     * returning a slot and no delete is between its two returns, whatever the number of deletes.
     */
    method TryAcquire(kind: Kind, paused: bool) returns (ok: bool)
      requires Inv(s) && Idle(s)
      modifies this
      ensures Inv(s) && Idle(s)
      ensures ok ==> Of(s, kind).running > 0
      ensures Between(old(s), s, kind, if ok then 1 else 0)
      ensures paused || (old(s).drained && old(s).size > 0) ==> !ok
      ensures !paused && kind == Create && CreateSlotFree(old(s)) ==> ok
      ensures s.c.started == old(s).c.started + (if ok && kind == Create then 1 else 0)
      ensures s.d.started == old(s).d.started + (if ok && kind == Delete then 1 else 0)
      ensures (&& !paused && old(s).total < old(s).size
               && (if kind == Create then old(s).c.sem < old(s).c.cap else old(s).d.sem < old(s).d.cap)
               && (kind == Delete && old(s).reserve && old(s).size > 1 ==> old(s).d.count < old(s).size - 1)) ==> ok
    {
      if paused {
        return false;
      }
      ghost var a := s;
      Interfere(Nobody);
      ghost var b := s;
      ChecksStand(a, b, kind);
      if ReserveRefuses(s, kind) {
        return false;
      }
      ok := TakeUnreserved(kind);
      EasedThenBetween(a, b, s, kind, if ok then 1 else 0);
    }

    /** The rest of tryAcquire, once the reserve allows it. */
    method TakeUnreserved(kind: Kind) returns (ok: bool)
      requires Inv(s) && Idle(s) && !ReserveRefuses(s, kind)
      modifies this
      ensures Inv(s) && Idle(s)
      ensures ok ==> Of(s, kind).running > 0
      ensures Between(old(s), s, kind, if ok then 1 else 0)
      ensures old(s).drained && old(s).size > 0 ==> !ok
      ensures old(Of(s, kind)).sem < old(Of(s, kind)).cap && old(s).total < old(s).size ==> ok
    {
      ghost var a := s;
      Interfere(Nobody);
      ghost var b := s;
      ChecksStand(a, b, kind);
      if Of(s, kind).sem >= Of(s, kind).cap {
        return false;
      }
      ok := TakeShared(kind);
      EasedThenBetween(a, b, s, kind, if ok then 1 else 0);
    }

    /** The rest of tryAcquire, once the kind's semaphore has room. */
    method TakeShared(kind: Kind) returns (ok: bool)
      requires Inv(s) && Can(s, TakeKind(kind))
      modifies this
      ensures Inv(s) && Idle(s)
      ensures ok ==> Of(s, kind).running > 0
      ensures old(s).total < old(s).size ==> ok
      ensures old(s).drained && old(s).size > 0 ==> !ok
      ensures Between(old(s), s, kind, if ok then 1 else 0)
    {
      ghost var a := s;
      TakeStep(TakeKind(kind));
      ghost var b := s;
      TakeKindThen(a, b, kind);
      if s.total >= s.size {
        Take(GiveBack(kind));
        GiveBackEnds(a, b, s, kind);
        return false;
      }
      TakeStep(TakeTotal(kind));
      ghost var c := s;
      TakeTotalThen(b, c, kind);
      Take(Count(kind));
      CountEnds(a, b, c, s, kind);
      return true;
    }

    method TakeStep(st: Step)
      requires Inv(s) && Can(s, st)
      modifies this
      ensures Inv(s) && Eased(Do(old(s), st), s)
    {
      Take(st);
      Interfere(Nobody);
    }

    /** One step of the caller's own release, then interference that leaves the caller its next step. */
    method ReleaseStep(st: Step, mine: Mine)
      requires Inv(s) && Can(s, st) && WorkerStep(st) && Keeps(Do(s, st), mine)
      modifies this
      ensures Inv(s) && Keeps(s, mine) && Eased(Do(old(s), st), s) && Eased(old(s), s)
      ensures Remaining(s) < Remaining(old(s))
    {
      ReleaseEases(s, st);
      ghost var a, b := s, Do(s, st);
      s := Do(s, st);
      Interfere(mine);
      EasedTransitive(a, b, s);
    }

    /** The caller's own operation is over: its slot goes back, counter first. */
    method Release(kind: Kind)
      requires Inv(s) && Of(s, kind).running > 0
      modifies this
      ensures Inv(s) && Eased(old(s), s)
      ensures Remaining(s) <= Remaining(old(s)) - 3
    {
      ghost var a := s;
      ReleaseStep(Finish(kind), AtUncounted(kind));
      ghost var b := s;
      ReturnSlots(kind);
      EasedTransitive(a, b, s);
    }

    /** The two semaphores, once the counter no longer has the operation. */
    method ReturnSlots(kind: Kind)
      requires Inv(s) && Of(s, kind).uncounted > 0
      modifies this
      ensures Inv(s) && Eased(old(s), s)
      ensures Remaining(s) <= Remaining(old(s)) - 2
    {
      ghost var a := s;
      assert Can(s, ReturnTotal(kind));
      ReleaseStep(ReturnTotal(kind), AtReturning(kind));
      ghost var b := s;
      assert Can(s, ReturnKind(kind));
      ReleaseStep(ReturnKind(kind), Nobody);
      EasedTransitive(a, b, s);
    }

    /** Waits for every operation in flight and keeps all the slots, unless the context ends first. */
    method DrainAll(ended: bool) returns (ok: bool)
      requires Inv(s) && Idle(s) && !s.drained
      modifies this
      ensures Inv(s) && Idle(s) && SameLimits(old(s), s)
      ensures ok <==> !ended
      ensures ok <==> s.drained
      ensures ok ==> s.c.running == 0 && s.d.running == 0
    {
      Interfere(Nobody);
      if ended {
        return false;
      }
      while s.total > 0
        invariant Inv(s) && Idle(s) && SameLimits(old(s), s) && !s.drained
        decreases Remaining(s)
      {
        var k := if s.c.running + s.c.uncounted > 0 then Create else Delete;
        var st := if Of(s, k).running > 0 then Finish(k) else ReturnTotal(k);
        ReleaseEases(s, st);
        Take(st);
        Interfere(Nobody);
      }
      Take(Drain);
      return true;
    }
  }
}
