/** What must happen, over whole runs: when creates are released, when a miss counts, when a record is retried, marked or pruned. */
module Progress {
  import opened Basics
  import opened Lifecycle
  import opened Listing
  import opened Protocol
  import opened Invariant
  import opened Preservation
  import opened Evolution
  import opened Theorems
  import M = StoreModel
  import Breaker

  // Startup hold.

  /** When the first complete poll of the run ended. */
  function FirstComplete(acts: seq<Action>): Option<Time>
    requires IsRun(acts)
    decreases |acts|
  {
    if acts == [] then None
    else
      var before, a := acts[..|acts| - 1], acts[|acts| - 1];
      var first := FirstComplete(before);
      if first.None? && EndsCompletePoll(After(before), a) then Some(After(before).now) else first
  }

  lemma HoldStep(s: State, a: Action)
    requires Inv(s) && Can(s, a)
    ensures Do(s, a).hold.polled <==> s.hold.polled || EndsCompletePoll(s, a)
    ensures Do(s, a).hold.startedAt == if s.hold.polled || !EndsCompletePoll(s, a) then s.hold.startedAt else s.now
  {
    if Do(s, a).hold != s.hold {
      OnlyTheCheckEndsHold(s, a);
    }
    if EndsCompletePoll(s, a) {
      assert !s.hold.polled ==> s.hold.on;
    }
  }

  /** The timeout of the hold counts from the first complete poll. */
  lemma {:induction false} TimeoutStartsAtFirst(acts: seq<Action>)
    requires IsRun(acts)
    ensures After(acts).hold.polled <==> FirstComplete(acts).Some?
    ensures After(acts).hold.polled ==> FirstComplete(acts).value == After(acts).hold.startedAt
    decreases |acts|
  {
    if acts != [] {
      var before := acts[..|acts| - 1];
      TimeoutStartsAtFirst(before);
      RunsKeepInv(before);
      HoldStep(After(before), acts[|acts| - 1]);
    }
  }

  predicate LeftoverRemains(st: M.Records) {
    exists k :: k in st && st[k].leftover && st[k].phase != Deleted
  }

  lemma CheckEndsHold(s: State, timeout: Time)
    requires CanPoll(s, CheckHold(timeout)) && s.hold.on
    ensures var h := Do(s, Pol(CheckHold(timeout))).hold;
            !h.on <==> h.polled && (!LeftoverRemains(s.core.store) || s.now - h.startedAt >= timeout)
  {
    var st := s.core.store;
    if LeftoverRemains(st) {
      var k :| k in st && st[k].leftover && st[k].phase != Deleted;
      assert k in M.Matching(st, PendingLeftover);
    } else {
      assert M.Matching(st, PendingLeftover) == {};
    }
  }

  /**
   * The check at the end of a poll ends the hold if and only if some poll was complete by then, this one included,
   * and no leftover remains to be deleted or the timeout has passed since the first complete poll.
   */
  lemma HoldEndsExactly(acts: seq<Action>, timeout: Time)
    requires IsRun(acts) && Can(After(acts), Pol(CheckHold(timeout))) && IsRun(acts + [Pol(CheckHold(timeout))]) && After(acts).hold.on
    ensures var s, first := After(acts), FirstComplete(acts + [Pol(CheckHold(timeout))]);
            !After(acts + [Pol(CheckHold(timeout))]).hold.on <==>
              first.Some? && (!LeftoverRemains(s.core.store) || s.now - first.value >= timeout)
  {
    var a := Pol(CheckHold(timeout));
    assert (acts + [a])[..|acts|] == acts;
    TimeoutStartsAtFirst(acts + [a]);
    CheckEndsHold(After(acts), timeout);
  }

  // Disappearance.

  /** The record should be in vCD, and the poll neither read its vApp nor left it unread. */
  predicate Overlooked(p: Poll, r: Instance)
    requires |p.answers| == |p.listed|
  {
    && (r.phase == Running || r.phase == PendingDelete || r.phase == Deleting)
    && !exists i :: 0 <= i < |p.listed| && p.listed[i].href == r.id &&
         (p.answers[i] == Found || exists j :: 0 <= j <= i && p.answers[j] == OtherFailure)
  }

  /** When a poll marks, each record it overlooks gains one miss and is Deleted by the third; no other record changes. */
  lemma MissesAreCounted(acts: seq<Action>, k: Id)
    requires IsRun(acts) && CanPoll(After(acts), Mark) && k in After(acts).core.store
    ensures var s, t := After(acts), Do(After(acts), Pol(Mark));
            var r := s.core.store[k];
            k in t.core.store &&
            if Overlooked(s.rec.p, r) then
              && t.core.store[k].missedPolls == r.missedPolls + 1
              && t.core.store[k].phase == if r.missedPolls + 1 >= 3 then Deleted else r.phase
            else t.core.store[k] == r
  {
    RunsKeepInv(acts);
    StepEvolves(After(acts), Pol(Mark), k);
    MarkedAsOverlooked(After(acts), k, After(acts).core.store[k], Do(After(acts), Pol(Mark)).core.store[k]);
  }

  lemma MarkedAsOverlooked(s: State, k: Id, r: Instance, r': Instance)
    requires s.rec.Marking? && |s.rec.p.answers| == |s.rec.p.listed| && Evolves(s, Pol(Mark), k, r, r')
    ensures if Overlooked(s.rec.p, r) then
              r'.missedPolls == r.missedPolls + 1 && r'.phase == if r.missedPolls + 1 >= 3 then Deleted else r.phase
            else r' == r
  {
  }

  // Dates.

  /** Until when the record waits: what its last failure set, unless it has ended since. */
  function RetryAt(acts: seq<Action>, k: Id): Option<Time>
    requires IsRun(acts)
    decreases |acts|
  {
    if acts == [] then None
    else
      var before := acts[..|acts| - 1];
      if k !in After(before).core.store then None
      else RetryAfter(After(before), acts[|acts| - 1], k, RetryAt(before, k))
  }

  /** How often a worker of the record failed. */
  function Failures(acts: seq<Action>, k: Id): nat
    requires IsRun(acts)
    decreases |acts|
  {
    if acts == [] then 0
    else
      var s := After(acts[..|acts| - 1]);
      if k !in s.core.store then 0
      else Failures(acts[..|acts| - 1], k) + if SendsBack(s, acts[|acts| - 1], k) then 1 else 0
  }

  /** Since when the instance runs: when its create stored it. */
  function RunningSince(acts: seq<Action>, k: Id): Option<Time>
    requires IsRun(acts)
    decreases |acts|
  {
    if acts == [] then None
    else
      var s, a := After(acts[..|acts| - 1]), acts[|acts| - 1];
      if k !in s.core.store then None
      else if a.Wrk? && a.k.Record? && WorksOn(s, a, k) then Some(s.now)
      else RunningSince(acts[..|acts| - 1], k)
  }

  /** Since when the record is Deleted. */
  function DeletedSince(acts: seq<Action>, k: Id): Option<Time>
    requires IsRun(acts)
    decreases |acts|
  {
    if acts == [] then None
    else
      var before, a := acts[..|acts| - 1], acts[|acts| - 1];
      var s, t := After(before), After(acts);
      if k !in s.core.store || k !in t.core.store || t.core.store[k].phase != Deleted then None
      else if s.core.store[k].phase != Deleted || EndsDeleted(s, a, k) then Some(s.now)
      else DeletedSince(before, k)
  }

  /** The record carries these dates, and this count, in every reachable state. */
  lemma {:induction false} RecordsAreDated(acts: seq<Action>, k: Id)
    requires IsRun(acts) && k in After(acts).core.store
    ensures var r := After(acts).core.store[k];
            && r.nextRetryAfter == RetryAt(acts, k) && r.retryCount == Failures(acts, k)
            && r.createCompletedAt == RunningSince(acts, k)
            && (r.phase == Deleted ==> r.deleteCompletedAt == DeletedSince(acts, k) && r.deleteCompletedAt.Some?)
    decreases |acts|
  {
    if acts != [] {
      var before, a := acts[..|acts| - 1], acts[|acts| - 1];
      var s := After(before);
      if k in s.core.store {
        RunsKeepInv(before);
        RecordsAreDated(before, k);
        StepEvolves(s, a, k);
        assert Dated(s, a, k, s.core.store[k], After(acts).core.store[k]);
      } else {
        NewRecordsAreFresh(s, a, k);
      }
    }
  }

  predicate Due(acts: seq<Action>, k: Id)
    requires IsRun(acts)
  {
    RetryAt(acts, k).None? || RetryAt(acts, k).value <= After(acts).now
  }

  /** A create dispatch takes up exactly the pending creates whose time has come, a failed one not before its delay has passed. */
  lemma CreatesAreTakenWhenDue(acts: seq<Action>, ids: seq<Id>, k: Id)
    requires IsRun(acts) && CanDispatch(After(acts), SnapCreates(ids))
    ensures k in ids <==> k in After(acts).core.store && After(acts).core.store[k].phase == PendingCreate && Due(acts, k)
  {
    if k in After(acts).core.store {
      RecordsAreDated(acts, k);
    }
  }

  lemma DeletesAreTakenWhenDue(acts: seq<Action>, ids: seq<Id>, k: Id)
    requires IsRun(acts) && CanDispatch(After(acts), SnapDeletes(ids))
    ensures k in ids <==> k in After(acts).core.store && After(acts).core.store[k].phase == PendingDelete && Due(acts, k)
  {
    if k in After(acts).core.store {
      RecordsAreDated(acts, k);
    }
  }

  /** Pruning removes exactly the records that have been Deleted for more than five minutes. */
  lemma PruneRemovesTheOld(acts: seq<Action>, k: Id)
    requires IsRun(acts) && CanDispatch(After(acts), DoPrune) && k in After(acts).core.store
    ensures var s, t := After(acts), Do(After(acts), Dis(DoPrune));
            if s.core.store[k].phase == Deleted then
              && DeletedSince(acts, k).Some?
              && (k in t.core.store <==> s.now - DeletedSince(acts, k).value <= 5 * MINUTE)
            else k in t.core.store
    ensures k in Do(After(acts), Dis(DoPrune)).core.store ==> Do(After(acts), Dis(DoPrune)).core.store[k] == After(acts).core.store[k]
  {
    RecordsAreDated(acts, k);
  }

  // Requests.

  /** The record that a caller's id names: the one of that intent, or else the one of that HREF. */
  predicate Names(st: M.Records, id: Id, k: Id)
    requires k in st
  {
    if id in st then k == id else id != NO_ID && st[k].id == id
  }

  /** Increase adds a pending create that is due at once, and touches nothing else. */
  lemma IncreaseRequestsCreate(acts: seq<Action>, id: Id, k: Id)
    requires IsRun(acts) && CanOutside(After(acts).core, Increase(id))
    ensures var s, t := After(acts), Do(After(acts), Out(Increase(id)));
            && id !in s.core.store && id in t.core.store
            && t.core.store[id].intentID == id && t.core.store[id].phase == PendingCreate && !t.core.store[id].leftover
            && t.core.store[id].nextRetryAfter.None? && t.core.store[id].createdAt == Some(s.now)
            && (k != id && k in s.core.store ==> k in t.core.store && t.core.store[k] == s.core.store[k])
  {
    RunsKeepInv(acts);
    KeysAreKnown(After(acts).core);
  }

  /** A vApp that nobody owns and no record tracks becomes a pending delete that is due at once. */
  lemma AdoptRequestsDelete(acts: seq<Action>)
    requires IsRun(acts) && CanPoll(After(acts), Adopt)
    requires var s := After(acts); forall k :: k in s.core.store ==> s.core.store[k].id != Item(s.rec.p).href
    ensures var s, t, v := After(acts), Do(After(acts), Pol(Adopt)), Item(After(acts).rec.p);
            && v.href in t.core.store
            && var r := t.core.store[v.href];
               && r.id == r.intentID == v.href && r.name == v.name && r.leftover && r.phase == PendingDelete
               && r.nextRetryAfter.None? && r.missedPolls == 0
  {
  }

  /** Decrease turns a running instance into a pending delete, and touches nothing else. */
  lemma DecreaseRequestsDelete(acts: seq<Action>, id: Id, k: Id)
    requires IsRun(acts) && k in After(acts).core.store
    ensures var s, t := After(acts), Do(After(acts), Out(Decrease(id)));
            var r := s.core.store[k];
            k in t.core.store &&
            if Names(s.core.store, id, k) && r.phase == Running then
              t.core.store[k] == r.(phase := PendingDelete, deleteRequestedAt := Some(s.now), lastUpdated := Some(s.now))
            else t.core.store[k] == r
  {
  }

  /** So does the check for old instances, one after the other. */
  lemma GcRequestsDelete(acts: seq<Action>, k: Id)
    requires IsRun(acts) && CanDispatch(After(acts), MarkNext) && k in After(acts).core.store
    ensures var s, t := After(acts), Do(After(acts), Dis(MarkNext));
            var r := s.core.store[k];
            k in t.core.store &&
            if k == s.rec.ids[0] && r.phase == Running then
              t.core.store[k] == r.(phase := PendingDelete, deleteRequestedAt := Some(s.now), gcMarkedAt := Some(s.now), lastUpdated := Some(s.now))
            else t.core.store[k] == r
  {
  }

  // Content.

  /** A create that ends well leaves a running instance with the name, the address and the vApp it was given, complete from now on. */
  lemma RecordedInstance(acts: seq<Action>, w: nat, vmName: string, ip: string, osType: string)
    requires IsRun(acts) && CanWork(After(acts).core, w, Record(vmName, ip, osType))
    ensures var s, t := After(acts), Do(After(acts), Wrk(w, Record(vmName, ip, osType)));
            var me := s.core.workers[w];
            && me.intent in t.core.store
            && var r := t.core.store[me.intent];
               && r.phase == Running && r.id == me.create.href && r.name == me.create.name
               && r.observed.vmName == vmName && r.observed.ipAddress == ip && r.observed.osType == osType
               && r.createCompletedAt == Some(s.now) && r.nextRetryAfter.None? && r.lastError == ""
  {
    RunsKeepInv(acts);
    assert WorkerOk(After(acts).core, w);
  }

  /** What a poll read of a tracked vApp is what its record says afterwards, and its misses are forgotten. */
  lemma RefreshedInstance(acts: seq<Action>, hasVM: bool, status: Observed, read: Option<Observed>, k: Id)
    requires IsRun(acts) && CanPoll(After(acts), Refresh(hasVM, status, read)) && k in After(acts).core.store
    ensures var s, t := After(acts), Do(After(acts), Pol(Refresh(hasVM, status, read)));
            var r, v := s.core.store[k], Item(s.rec.p);
            var seen := if s.rec.leftover || !hasVM then Some(status) else read;
            k in t.core.store &&
            if r.id == v.href && seen.Some? then
              t.core.store[k] == r.(name := v.name, observed := seen.value, missedPolls := 0, lastUpdated := Some(s.now))
            else t.core.store[k] == r
  {
    RunsKeepInv(acts);
    RefreshSets(After(acts), Refresh(hasVM, status, read), k);
    assert PollOk(After(acts).core, After(acts).rec.p);
  }

  // The breaker.

  /** The ends of creates in the run, as the breaker counts them. */
  function CreateEnds(acts: seq<Action>): seq<Breaker.Event>
    requires IsRun(acts)
    decreases |acts|
  {
    if acts == [] then []
    else
      var before, a := acts[..|acts| - 1], acts[|acts| - 1];
      CreateEnds(before) +
      if !a.Wrk? then []
      else match a.k
        case CountFailure(u) => [Breaker.Failed(After(before).now, u)]
        case CountSuccess => [Breaker.Succeeded(After(before).now)]
        case _ => []
  }

  lemma BreakerStep(s: State, a: Action)
    requires Can(s, a)
    ensures Do(s, a).breaker
         == if a.Wrk? && a.k.CountFailure? then s.breaker.After(Breaker.Failed(s.now, a.k.u))
            else if a.Wrk? && a.k.CountSuccess? then s.breaker.After(Breaker.Succeeded(s.now))
            else s.breaker
  {
  }

  /** The breaker has seen every end of a create in the run, and nothing else. */
  lemma {:induction false} BreakerSeesCreates(acts: seq<Action>)
    requires IsRun(acts)
    ensures After(acts).breaker == Breaker.Run(CreateEnds(acts))
    decreases |acts|
  {
    if acts != [] {
      var before, a := acts[..|acts| - 1], acts[|acts| - 1];
      BreakerSeesCreates(before);
      BreakerStep(After(before), a);
      var ends := CreateEnds(acts);
      if a.Wrk? && (a.k.CountFailure? || a.k.CountSuccess?) {
        assert ends[..|ends| - 1] == CreateEnds(before);
      } else {
        assert ends == CreateEnds(before);
      }
    }
  }
}
