/**
 * The goroutines of an instance group, as the code runs them: the reconcile loop and the workers it
 * starts. Between two shared accesses of a method all other goroutines, callers and vCD take any number
 * of steps. Every execution is a run of the protocol, so whatever holds over all runs holds here; and each
 * contract says exactly which actions the goroutine itself takes.
 */
module Reconciler {
  import opened Basics
  import opened Lifecycle
  import opened Listing
  import opened Protocol
  import opened Invariant
  import opened Preservation
  import opened Backoff
  import opened Traces
  import opened Rely
  import Evolution
  import VcdCall
  import VcdCreate
  import VcdRead
  import D = VcdDelete
  import VcdCleanup
  import M = StoreModel

  /** Startup hold: the fields that only the reconcile loop touches. */
  class StartupHold {
    var startupHold: bool
    var startupPolled: bool
    var startedAt: Time

    ghost function View(): Hold
      reads this
    {
      Hold(startupHold, startupPolled, startedAt)
    }

    constructor ()
      ensures View() == INITIAL.hold
    {
      startupHold, startupPolled, startedAt := true, false, 0;
    }

    method UpdateStartupHold(pollOk: bool, instances: seq<Instance>, timeout: Time, now: Time)
      modifies this
      ensures View() == old(View()).After(pollOk, forall i :: 0 <= i < |instances| ==> !PendingLeftover(instances[i]), timeout, now)
      ensures startupHold <==>
                && old(startupHold)
                && (pollOk || old(startupPolled) ==>
                      && (exists i :: 0 <= i < |instances| && instances[i].leftover && instances[i].phase != Deleted)
                      && now - (if old(startupPolled) then old(startedAt) else now) < timeout)
      ensures startupPolled <==> old(startupPolled) || (old(startupHold) && pollOk)
      ensures startedAt == if startupPolled && !old(startupPolled) then now else old(startedAt)
    {
      if !startupHold {
        return;
      }
      if pollOk && !startupPolled {
        startupPolled := true;
        startedAt := now;
      }
      if !startupPolled {
        return;
      }
      var remaining, deleting := LeftoverProgress(instances);
      NoneOf(instances, PendingLeftover);
      if remaining != 0 && now - startedAt < timeout {
        return;
      }
      startupHold := false;
    }
  }

  /** The positions of the instances that `p` accepts. */
  function Which(instances: seq<Instance>, p: Instance -> bool): set<nat> {
    set i: nat | i < |instances| && p(instances[i])
  }

  lemma NoneOf(instances: seq<Instance>, p: Instance -> bool)
    ensures |Which(instances, p)| == 0 <==> forall i :: 0 <= i < |instances| ==> !p(instances[i])
  {
    if i :| 0 <= i < |instances| && p(instances[i]) {
      assert i in Which(instances, p);
    }
  }

  lemma WhichNext(instances: seq<Instance>, n: nat, p: Instance -> bool)
    requires n < |instances|
    ensures Which(instances[..n + 1], p) == Which(instances[..n], p) + if p(instances[n]) then {n} else {}
    ensures |Which(instances[..n + 1], p)| == |Which(instances[..n], p)| + if p(instances[n]) then 1 else 0
  {
    assert Which(instances[..n + 1], p) == Which(instances[..n], p) + if p(instances[n]) then {n} else {};
    assert n !in Which(instances[..n], p);
  }

  predicate LeftoverDeleting(r: Instance) {
    r.leftover && r.phase == Deleting
  }

  /** How many leftovers are not yet deleted, and how many of those are being deleted. */
  method LeftoverProgress(instances: seq<Instance>) returns (remaining: nat, deleting: nat)
    ensures remaining == |Which(instances, PendingLeftover)|
    ensures deleting == |Which(instances, LeftoverDeleting)|
    ensures deleting <= remaining
  {
    remaining, deleting := 0, 0;
    for n := 0 to |instances|
      invariant remaining == |Which(instances[..n], PendingLeftover)|
      invariant deleting == |Which(instances[..n], LeftoverDeleting)|
      invariant deleting <= remaining
    {
      WhichNext(instances, n, PendingLeftover);
      WhichNext(instances, n, LeftoverDeleting);
      if !instances[n].leftover || instances[n].phase == Deleted {
        continue;
      }
      remaining := remaining + 1;
      if instances[n].phase == Deleting {
        deleting := deleting + 1;
      }
    }
    assert instances[..|instances|] == instances;
  }

  /** A snapshot of the chosen records, in the order a map is ranged over. */
  method Snap(chosen: set<Id>) returns (ids: seq<Id>)
    ensures Snapshot(ids, chosen)
  {
    ids := [];
    var todo := chosen;
    while todo != {}
      invariant todo <= chosen && Snapshot(ids, chosen - todo)
      decreases todo
    {
      var k :| k in todo;
      todo := todo - {k};
      ids := ids + [k];
    }
    assert chosen - todo == chosen;
  }

  /** The retry is due after min(10s * 2^(n-1), 5min), give or take a quarter, n being the failures so far. */
  predicate RetryDue(r: Instance, now: Time) {
    && r.retryCount > 0 && r.nextRetryAfter.Some?
    && Jittered(r.nextRetryAfter.value - now, Capped(RETRY_BASE_DELAY, RETRY_MAX_DELAY, r.retryCount - 1), RETRY_JITTER)
  }

  method DelayFor(st: M.Records, k: Id) returns (delay: Time)
    ensures k in st ==> Jittered(delay, Capped(RETRY_BASE_DELAY, RETRY_MAX_DELAY, st[k].retryCount), RETRY_JITTER)
  {
    if k !in st {
      return 0;
    }
    var us: seq<Random> := [];
    while |us| < RetryDraws(st[k].retryCount + 1)
      invariant |us| <= RetryDraws(st[k].retryCount + 1)
    {
      var u: Random := *;
      us := us + [u];
    }
    delay := RetryDelay(st[k].retryCount + 1, us);
  }

  /** The HREF belongs to this name, or to nothing yet. */
  predicate Agrees(c: Core, v: Listed) {
    && v.href != NO_ID && v.href !in c.hist.intents
    && (v.href in c.vcd.vapps ==> c.vcd.vapps[v.href] == v.name)
  }

  /** What the reads of a poll come to, when there is a listing to read. */
  function ReadsOf(v: VcdCall.Vcd<VcdCreate.Reply>, c: VcdCall.Cursor, found: Option<seq<Listed>>, gate: bool): (t: VcdRead.Reads)
    ensures found.Some? ==> |t.answers| == |found.value|
  {
    if found.None? then VcdRead.Reads([], [], c) else VcdRead.ReadsOf(v, c, found.value, gate)
  }

  function ListingOf(found: Option<seq<Listed>>, answers: seq<Answer>): PollAnswer {
    if found.None? then None else Some((found.value, answers))
  }

  class InstanceGroup {
    var s: State
    ghost var acts: seq<Action>  // everything that happened, in order

    ghost predicate Valid()
      reads this
    {
      IsRun(acts) && After(acts) == s
    }

    constructor ()
      ensures Valid() && s == INITIAL
    {
      s := INITIAL;
      acts := [];
    }

    method Take(a: Action)
      requires Valid() && Can(s, a)
      modifies this
      ensures Valid() && s == Do(old(s), a)
      ensures forall g :: Took(old(acts), acts, g, if TakenBy(a, g) then [a] else [])
    {
      forall g
        ensures Took(acts, acts + [a], g, if TakenBy(a, g) then [a] else [])
      {
        OwnThen(acts, a, g);
      }
      assert (acts + [a])[..|acts|] == acts;
      s := Do(s, a);
      acts := acts + [a];
    }

    /** Everyone but goroutine g takes any number of steps. */
    method Interfere(g: Goroutine)
      requires Valid()
      modifies this
      ensures Valid() && Undisturbed(old(s), s, g) && Took(old(acts), acts, g, [])
    {
      InterfereGiven(g, None);
    }

    /** The same, as far as it agrees with what vCD told this goroutine meanwhile. */
    method InterfereGiven(g: Goroutine, told: Option<Listed>)
      requires Valid() && (told.Some? ==> Agrees(s.core, told.value))
      modifies this
      ensures Valid() && Undisturbed(old(s), s, g) && Took(old(acts), acts, g, [])
      ensures told.Some? ==> Agrees(s.core, told.value)
    {
      var n: nat := *;
      while n > 0
        invariant Valid() && Undisturbed(old(s), s, g) && Took(old(acts), acts, g, [])
        invariant told.Some? ==> Agrees(s.core, told.value)
      {
        var a: Action := *;
        if Can(s, a) && !TakenBy(a, g) && (told.Some? ==> Agrees(Do(s, a).core, told.value)) {
          RunsKeepInv(acts);
          OthersDoNotDisturb(s, a, g);
          ghost var mid, t := acts, s;
          Take(a);
          TookThen(old(acts), mid, acts, g, [], []);
          RelyThen(old(s), t, s, g);
        }
        n := n - 1;
      }
    }

    // The reconcile loop.

    /** One step of the loop, and then whatever the others do. */
    method LoopStep(a: Action)
      requires Valid() && Can(s, a) && TakenBy(a, Loop)
      modifies this
      ensures Valid() && s.rec == Do(old(s), a).rec && s.hold == Do(old(s), a).hold
      ensures Took(old(acts), acts, Loop, [a])
    {
      ghost var was := acts;
      Take(a);
      ghost var mid := acts;
      Interfere(Loop);
      TookThen(was, mid, acts, Loop, [a], []);
    }

    /** One vApp that was read: refreshed exactly when a record tracks it. */
    method PollItem(hasVM: bool, status: Observed, read: Option<Observed>) returns (reading: Reading)
      requires Valid() && s.rec.Polling? && HasItem(s.rec.p)
      modifies this
      ensures Valid() && s.rec == Polling(NextItem(old(s).rec.p)) && s.hold == old(s).hold
      ensures Took(old(acts), acts, Loop, ItemActions(reading))
      ensures if M.Tracked(old(s).core.store, Protocol.Item(old(s).rec.p).href) then reading == Tracked(hasVM, status, read)
              else reading.Untracked?
    {
      ghost var was := acts;
      LoopStep(Pol(Lookup));
      ghost var mid := acts;
      if s.rec.Refreshing? {
        LoopStep(Pol(Refresh(hasVM, status, read)));
        TookThen(was, mid, acts, Loop, [Pol(Lookup)], [Pol(Refresh(hasVM, status, read))]);
        reading := Tracked(hasVM, status, read);
      } else {
        var owner := AdoptUnlessOwned();
        TookThen(was, mid, acts, Loop, [Pol(Lookup)], OwnerActions(owner));
        reading := Untracked(owner);
      }
    }

    /** ownsVApp, first among the creates in flight and then among the failed ones; AddLeftover for a vApp that nobody owns. */
    method AdoptUnlessOwned() returns (owner: Owner)
      requires Valid() && s.rec.CheckInflight? && HasItem(s.rec.p)
      modifies this
      ensures Valid() && s.rec == Polling(NextItem(old(s).rec.p)) && s.hold == old(s).hold
      ensures Took(old(acts), acts, Loop, OwnerActions(owner))
      ensures owner == InFlight <==> Protocol.Item(old(s).rec.p).name in old(s).core.names.inflight
    {
      ghost var was := acts;
      LoopStep(Pol(LoadInflight));
      if s.rec.Polling? {
        return InFlight;
      }
      ghost var mid := acts;
      owner := AdoptUnlessFailed();
      ghost var did := if owner == AwaitingCleanup then [Pol(LoadFailed)] else [Pol(LoadFailed), Pol(Adopt)];
      TookThen(was, mid, acts, Loop, [Pol(LoadInflight)], did);
    }

    method AdoptUnlessFailed() returns (owner: Owner)
      requires Valid() && s.rec.CheckFailed? && HasItem(s.rec.p)
      modifies this
      ensures Valid() && s.rec == Polling(NextItem(old(s).rec.p)) && s.hold == old(s).hold && owner != InFlight
      ensures Took(old(acts), acts, Loop, if owner == AwaitingCleanup then [Pol(LoadFailed)] else [Pol(LoadFailed), Pol(Adopt)])
      ensures owner == AwaitingCleanup <==> Protocol.Item(old(s).rec.p).name in old(s).core.names.failed
    {
      ghost var was := acts;
      LoopStep(Pol(LoadFailed));
      if s.rec.Polling? {
        return AwaitingCleanup;
      }
      ghost var mid := acts;
      LoopStep(Pol(Adopt));
      TookThen(was, mid, acts, Loop, [Pol(LoadFailed)], [Pol(Adopt)]);
      return Nobody;
    }

    /** Every vApp that was read, once and in order. */
    method PollItems() returns (items: seq<Reading>)
      requires Valid() && s.rec.Polling? && s.rec.p.next == 0
      modifies this
      ensures Valid() && s.rec.Sizing? && s.hold == old(s).hold
      ensures s.rec.p == old(s).rec.p.(next := s.rec.p.next) && |items| == |s.rec.p.vApps|
      ensures Took(old(acts), acts, Loop, ItemsActions(items) + [Pol(EndReads)])
    {
      items := [];
      ghost var was := acts;
      while HasItem(s.rec.p)
        invariant Valid() && s.rec.Polling? && s.hold == old(s).hold
        invariant s.rec.p == old(s).rec.p.(next := |items|) && |items| <= |s.rec.p.vApps|
        invariant Took(was, acts, Loop, ItemsActions(items))
        decreases |s.rec.p.vApps| - |items|
      {
        var hasVM, status, read := *, *, *;
        ghost var mid, before := acts, items;
        var reading := PollItem(hasVM, status, read);
        items := items + [reading];
        assert items[..|items| - 1] == before;
        TookThen(was, mid, acts, Loop, ItemsActions(before), ItemActions(reading));
      }
      ghost var mid := acts;
      LoopStep(Pol(EndReads));
      TookThen(was, mid, acts, Loop, ItemsActions(items), [Pol(EndReads)]);
    }

    /** Misses are counted unless nothing is known while something is tracked. */
    method CountMisses() returns (counted: bool)
      requires Valid() && s.rec.Sizing? && |s.rec.p.answers| == |s.rec.p.listed|
      modifies this
      ensures Valid() && s.rec == Holding(Complete(old(s).rec.p), old(s).rec.p) && s.hold == old(s).hold
      ensures var p := old(s).rec.p;
              counted <==> (exists i :: 0 <= i < |p.answers| && (p.answers[i] == Found || p.answers[i] == OtherFailure))
                           || (forall k :: k in old(s).core.store ==> old(s).core.store[k].phase == Deleted)
      ensures Took(old(acts), acts, Loop, CountActions(counted))
    {
      ghost var was := acts;
      KnownIsSomething(s.rec.p.listed, s.rec.p.answers);
      ghost var live := M.Matching(s.core.store, Undeleted);
      assert live == {} <==> forall k :: k in s.core.store ==> k !in live;
      LoopStep(Pol(CheckSize));
      counted := s.rec.Marking?;
      if counted {
        ghost var mid := acts;
        LoopStep(Pol(Mark));
        TookThen(was, mid, acts, Loop, [Pol(CheckSize)], [Pol(Mark)]);
      }
    }

    /** A vApp whose read was answered not found has vanished by then. */
    method VanishDenied(listed: seq<Listed>, answers: seq<Answer>)
      requires Valid() && |answers| == |listed| && Honest(s.core, listed)
      modifies this
      ensures Valid() && Undisturbed(old(s), s, Loop) && Took(old(acts), acts, Loop, [])
      ensures Honest(s.core, listed) && Denied(s.core, listed, answers)
    {
      var i := 0;
      while i < |listed|
        invariant 0 <= i <= |listed|
        invariant Valid() && Undisturbed(old(s), s, Loop) && Took(old(acts), acts, Loop, [])
        invariant Honest(s.core, listed) && Denied(s.core, listed[..i], answers[..i])
      {
        if answers[i] == NotFound {
          TakeOther(Out(Vanish(listed[i].href)), Loop, old(s), old(acts));
        }
        i := i + 1;
      }
      assert listed[..|listed|] == listed && answers[..|listed|] == answers;
    }

    /** The listing, whose vApps are read one after the other while the others go on. */
    method ListVApps(found: Option<seq<Listed>>, vcd: VcdCall.World<VcdCreate.Reply>, gate: bool) returns (listing: PollAnswer)
      requires Valid() && vcd.Idle() && (found.Some? ==> Honest(s.core, found.value))
      modifies this, vcd
      ensures Valid() && vcd.Idle() && s.rec == old(s).rec && s.hold == old(s).hold && Took(old(acts), acts, Loop, [])
      ensures var t := ReadsOf(vcd.v, old(vcd.at), found, gate);
              listing == ListingOf(found, t.answers) && vcd.calls == old(vcd.calls) + t.calls
      ensures listing.Some? ==> |listing.value.0| == |listing.value.1| && Honest(s.core, listing.value.0) && Denied(s.core, listing.value.0, listing.value.1)
    {
      if found.None? {
        assert vcd.calls + [] == vcd.calls;
        return None;
      }
      ghost var t := ReadsOf(vcd.v, vcd.at, found, gate);
      var vApps, unread, answers := VcdRead.ReadListedVApps(vcd, found.value, gate);
      assert [] + t.answers == t.answers;
      SettleDenied(found.value, answers);
      return Some((found.value, answers));
    }

    method SettleDenied(listed: seq<Listed>, answers: seq<Answer>)
      requires Valid() && |answers| == |listed| && Honest(s.core, listed)
      modifies this
      ensures Valid() && s.rec == old(s).rec && s.hold == old(s).hold && Took(old(acts), acts, Loop, [])
      ensures Honest(s.core, listed) && Denied(s.core, listed, answers)
    {
      ghost var was := acts;
      Interfere(Loop);
      ghost var mid := acts;
      VanishDenied(listed, answers);
      TookThen(was, mid, acts, Loop, [], []);
    }

    /**
     * A poll succeeds exactly when the listing did and every listed vApp was read or counts as gone; what
     * each read is taken to say is what the calls of this poll gave.
     */
    method PollVCD(found: Option<seq<Listed>>, vcd: VcdCall.World<VcdCreate.Reply>, gate: bool)
      returns (ok: bool, listing: PollAnswer, items: seq<Reading>, counted: bool)
      requires Valid() && s.rec.Idle? && vcd.Idle() && (found.Some? ==> Honest(s.core, found.value))
      modifies this, vcd
      ensures Valid() && vcd.Idle() && s.rec.Holding? && s.rec.ok == ok && s.hold == old(s).hold
      ensures var t := ReadsOf(vcd.v, old(vcd.at), found, gate);
              listing == ListingOf(found, t.answers) && vcd.calls == old(vcd.calls) + t.calls
      ensures ok <==> CompleteView(listing)
      ensures listing.Some? ==> s.rec.p.listed == listing.value.0 && s.rec.p.answers == listing.value.1 && |items| == |s.rec.p.vApps|
      ensures Took(old(acts), acts, Loop, PollActions(listing, items, counted))
    {
      ghost var was := acts;
      listing := ListVApps(found, vcd, gate);
      ghost var mid := acts;
      ok, items, counted := PollListed(listing);
      TookThen(was, mid, acts, Loop, [], PollActions(listing, items, counted));
      assert [] + PollActions(listing, items, counted) == PollActions(listing, items, counted);
    }

    /** What the poll does with a listing. */
    method PollListed(listing: PollAnswer) returns (ok: bool, items: seq<Reading>, counted: bool)
      requires Valid() && s.rec.Idle?
      requires listing.Some? ==> |listing.value.0| == |listing.value.1| && Honest(s.core, listing.value.0) && Denied(s.core, listing.value.0, listing.value.1)
      modifies this
      ensures Valid() && s.rec.Holding? && s.rec.ok == ok && s.hold == old(s).hold
      ensures ok <==> CompleteView(listing)
      ensures listing.Some? ==> s.rec.p.listed == listing.value.0 && s.rec.p.answers == listing.value.1 && |items| == |s.rec.p.vApps|
      ensures Took(old(acts), acts, Loop, PollActions(listing, items, counted))
    {
      ghost var was := acts;
      if listing.None? {
        LoopStep(Pol(ListFails));
        return false, [], false;
      }
      LoopStep(Pol(List(listing.value.0, listing.value.1)));
      ghost var a := acts;
      items := PollItems();
      ghost var b := acts;
      counted := CountMisses();
      TookThen(was, a, b, Loop, [Pol(List(listing.value.0, listing.value.1))], ItemsActions(items) + [Pol(EndReads)]);
      TookThen(was, b, acts, Loop, [Pol(List(listing.value.0, listing.value.1))] + (ItemsActions(items) + [Pol(EndReads)]), CountActions(counted));
      ok := s.rec.ok;
    }

    predicate CompleteView(listing: PollAnswer) {
      listing.Some? && FirstFailure(listing.value.1) == |listing.value.0|
    }

    predicate CreatesBlocked()
      reads this
    {
      s.hold.on || s.breaker.Blocks(s.now)
    }

    /**
     * Nothing is dispatched under the hold or an open breaker; else the ready intents `ids` are, in turn,
     * until a slot is refused. `slots` is what the limiter answers.
     */
    method DispatchCreates(slots: seq<bool>) returns (blocked: bool, ids: seq<Id>)
      requires Valid() && s.rec.PickCreates?
      modifies this
      ensures Valid() && s.rec.PickDeletes? && s.hold == old(s).hold
      ensures blocked <==> old(s).hold.on || (old(s).breaker.failures >= 3 && old(s).now < old(s).breaker.until)
      ensures Took(old(acts), acts, Loop, CreateActions(blocked, ids, slots))
    {
      blocked := CreatesBlocked();
      if blocked {
        LoopStep(Dis(SkipCreates));
        return true, [];
      }
      ids := DispatchReady(slots);
    }

    method DispatchReady(slots: seq<bool>) returns (ids: seq<Id>)
      requires Valid() && s.rec.PickCreates? && !CreatesBlocked()
      modifies this
      ensures Valid() && s.rec.PickDeletes? && s.hold == old(s).hold
      ensures Took(old(acts), acts, Loop, CreateActions(false, ids, slots))
    {
      ghost var was := acts;
      ids := ListReady();
      ghost var a := acts;
      StartCreates(ids, slots);
      ghost var b := acts;
      LoopStep(Dis(EndCreates));
      ghost var listed := [Dis(OpenCreates), Dis(SnapCreates(ids))];
      ghost var started := Times(Dis(DispatchCreate), Min(|ids|, Granted(slots)));
      TookThen(was, a, b, Loop, listed, started);
      TookThen(was, b, acts, Loop, listed + started, [Dis(EndCreates)]);
    }

    method ListReady() returns (ids: seq<Id>)
      requires Valid() && s.rec.PickCreates? && !CreatesBlocked()
      modifies this
      ensures Valid() && s.rec == DispatchingCreates(ids) && s.hold == old(s).hold
      ensures Took(old(acts), acts, Loop, [Dis(OpenCreates), Dis(SnapCreates(ids))])
    {
      ghost var was := acts;
      LoopStep(Dis(OpenCreates));
      ghost var mid := acts;
      var now := s.now;
      ids := Snap(M.Matching(s.core.store, r => ReadyToCreate(r, now)));
      LoopStep(Dis(SnapCreates(ids)));
      TookThen(was, mid, acts, Loop, [Dis(OpenCreates)], [Dis(SnapCreates(ids))]);
    }

    method StartCreates(ids: seq<Id>, slots: seq<bool>)
      requires Valid() && s.rec == DispatchingCreates(ids)
      modifies this
      ensures Valid() && s.rec.DispatchingCreates? && s.hold == old(s).hold
      ensures Took(old(acts), acts, Loop, Times(Dis(DispatchCreate), Min(|ids|, Granted(slots))))
    {
      ghost var was := acts;
      var i := 0;
      while i < |ids| && i < |slots| && slots[i]
        invariant 0 <= i <= |ids| && i <= Granted(slots)
        invariant Valid() && s.rec == DispatchingCreates(ids[i..]) && s.hold == old(s).hold
        invariant Took(was, acts, Loop, Times(Dis(DispatchCreate), i))
      {
        ghost var mid := acts;
        LoopStep(Dis(DispatchCreate));
        TookThen(was, mid, acts, Loop, Times(Dis(DispatchCreate), i), [Dis(DispatchCreate)]);
        i := i + 1;
      }
    }

    /** The pending deletes `ids` are dispatched in turn until a slot is refused. */
    method DispatchDeletes(slots: seq<bool>) returns (ids: seq<Id>)
      requires Valid() && s.rec.PickDeletes?
      modifies this
      ensures Valid() && s.rec.Cleanups? && s.hold == old(s).hold
      ensures Took(old(acts), acts, Loop, DeleteActions(ids, slots))
    {
      ghost var was := acts;
      var now := s.now;
      ids := Snap(M.Matching(s.core.store, r => ReadyToDelete(r, now)));
      LoopStep(Dis(SnapDeletes(ids)));
      ghost var a := acts;
      StartDeletes(ids, slots);
      ghost var b := acts;
      LoopStep(Dis(EndDeletes));
      ghost var started := Times(Dis(DispatchDelete), Min(|ids|, Granted(slots)));
      TookThen(was, a, b, Loop, [Dis(SnapDeletes(ids))], started);
      TookThen(was, b, acts, Loop, [Dis(SnapDeletes(ids))] + started, [Dis(EndDeletes)]);
    }

    method StartDeletes(ids: seq<Id>, slots: seq<bool>)
      requires Valid() && s.rec.DispatchingDeletes? && s.rec.ids == ids && forall k :: k in ids ==> k in s.rec.hrefs
      modifies this
      ensures Valid() && s.rec.DispatchingDeletes? && s.hold == old(s).hold
      ensures Took(old(acts), acts, Loop, Times(Dis(DispatchDelete), Min(|ids|, Granted(slots))))
    {
      var hrefs := s.rec.hrefs;
      ghost var was := acts;
      var i := 0;
      while i < |ids| && i < |slots| && slots[i]
        invariant 0 <= i <= |ids| && i <= Granted(slots)
        invariant Valid() && s.rec == DispatchingDeletes(ids[i..], hrefs) && s.hold == old(s).hold
        invariant Took(was, acts, Loop, Times(Dis(DispatchDelete), i))
      {
        ghost var mid := acts;
        StartDelete(ids[i..], hrefs);
        TookThen(was, mid, acts, Loop, Times(Dis(DispatchDelete), i), [Dis(DispatchDelete)]);
        i := i + 1;
      }
    }

    /** A record that was never created would be marked deleted here, without a worker; there is none. */
    method StartDelete(ids: seq<Id>, hrefs: map<Id, Id>)
      requires Valid() && s.rec == DispatchingDeletes(ids, hrefs) && ids != [] && ids[0] in hrefs
      modifies this
      ensures Valid() && s.rec == DispatchingDeletes(ids[1..], hrefs) && s.hold == old(s).hold
      ensures Took(old(acts), acts, Loop, [Dis(DispatchDelete)])
    {
      if hrefs[ids[0]] == NO_ID {
        RunsKeepInv(acts);
        NeverCreatedDeleteIsDead(s);
        assert false;
      }
      LoopStep(Dis(DispatchDelete));
    }

    /**
     * One failed create: passed over if it is gone or being cleaned up, else claimed for a worker. When
     * the slot is refused the claim is given back.
     */
    method VisitFailed(name: Id, slot: bool) returns (visit: Visit)
      requires Valid() && s.rec.Cleanups?
      modifies this
      ensures Valid() && (if visit == Refused then s.rec.PickGC? else s.rec.Cleanups?) && s.hold == old(s).hold
      ensures Took(old(acts), acts, Loop, VisitActions(name, visit))
      ensures visit == Absent <==> name !in old(s).core.names.failed
      ensures visit.Started? || visit.Refused? ==> (visit.Started? <==> slot)
    {
      if name !in s.core.names.failed {
        return Absent;
      }
      ghost var was := acts;
      LoopStep(Dis(PickCleanup(name)));
      ghost var a := acts;
      LoopStep(Dis(Claim));
      ghost var b := acts;
      TookThen(was, a, b, Loop, [Dis(PickCleanup(name))], [Dis(Claim)]);
      if s.rec.Cleanups? {
        return Busy;
      }
      StartCleanup(slot);
      TookThen(was, b, acts, Loop, [Dis(PickCleanup(name)), Dis(Claim)], [Dis(if slot then DispatchCleanup else Unclaim)]);
      return if slot then Started else Refused;
    }

    method StartCleanup(slot: bool)
      requires Valid() && s.rec.Claimed?
      modifies this
      ensures Valid() && (if slot then s.rec.Cleanups? else s.rec.PickGC?) && s.hold == old(s).hold
      ensures Took(old(acts), acts, Loop, [Dis(if slot then DispatchCleanup else Unclaim)])
    {
      if !slot {
        LoopStep(Dis(Unclaim));
        return;
      }
      LoopStep(Dis(DispatchCleanup));
    }

    /** `names` is the order in which the failed creates are visited; all are, unless one is refused its slot. */
    method DispatchCreateCleanups(names: seq<Id>, slots: seq<bool>) returns (visits: seq<Visit>)
      requires Valid() && s.rec.Cleanups?
      modifies this
      ensures Valid() && s.rec.PickGC? && s.hold == old(s).hold
      ensures VisitsOk(names, visits) && Took(old(acts), acts, Loop, CleanupActions(names, visits))
    {
      ghost var was := acts;
      visits := VisitAll(names, slots);
      if !Stopped(visits) {
        ghost var mid := acts;
        LoopStep(Dis(EndCleanups));
        TookThen(was, mid, acts, Loop, VisitsActions(names, visits), [Dis(EndCleanups)]);
      }
    }

    method VisitAll(names: seq<Id>, slots: seq<bool>) returns (visits: seq<Visit>)
      requires Valid() && s.rec.Cleanups?
      modifies this
      ensures Valid() && (if Stopped(visits) then s.rec.PickGC? else s.rec.Cleanups?) && s.hold == old(s).hold
      ensures VisitsOk(names, visits) && Took(old(acts), acts, Loop, VisitsActions(names, visits))
    {
      ghost var was := acts;
      visits := [];
      var i := 0;
      while |visits| < |names| && !Stopped(visits)
        invariant Valid() && (if Stopped(visits) then s.rec.PickGC? else s.rec.Cleanups?) && s.hold == old(s).hold
        invariant |visits| <= |names| && i >= 0 && forall j :: 0 <= j < |visits| - 1 ==> visits[j] != Refused
        invariant Took(was, acts, Loop, VisitsActions(names, visits))
        decreases |names| - |visits|
      {
        var name := names[|visits|];
        ghost var mid, before := acts, visits;
        var visit := VisitFailed(name, i < |slots| && slots[i]);
        visits := visits + [visit];
        assert visits[..|visits| - 1] == before;
        TookThen(was, mid, acts, Loop, VisitsActions(names, before), VisitActions(name, visit));
        i := if visit == Started then i + 1 else i;
      }
    }

    /** Every instance of the snapshot `ids` is marked. */
    method GcCheck(maxAge: Time) returns (ids: seq<Id>)
      requires Valid() && s.rec.PickGC?
      modifies this
      ensures Valid() && s.rec.Pruning? && s.hold == old(s).hold
      ensures NoDuplicates(ids)
      ensures forall k :: k in ids <==>
                && k in old(s).core.store && old(s).core.store[k].phase == Running && old(s).core.store[k].createCompletedAt.Some?
                && old(s).now - old(s).core.store[k].createCompletedAt.value > maxAge
      ensures Took(old(acts), acts, Loop, GcActions(Some(ids)))
    {
      ghost var was := acts;
      var now := s.now;
      ids := Snap(M.Matching(s.core.store, r => TooOld(r, maxAge, now)));
      LoopStep(Dis(SnapGC(ids)));
      ghost var a := acts;
      MarkAll(ids);
      ghost var b := acts;
      LoopStep(Dis(EndGC));
      TookThen(was, a, b, Loop, [Dis(SnapGC(ids))], Times(Dis(MarkNext), |ids|));
      TookThen(was, b, acts, Loop, [Dis(SnapGC(ids))] + Times(Dis(MarkNext), |ids|), [Dis(EndGC)]);
    }

    method MarkAll(ids: seq<Id>)
      requires Valid() && s.rec == MarkingGC(ids)
      modifies this
      ensures Valid() && s.rec.MarkingGC? && s.hold == old(s).hold
      ensures Took(old(acts), acts, Loop, Times(Dis(MarkNext), |ids|))
    {
      ghost var was := acts;
      var i := 0;
      while i < |ids|
        invariant 0 <= i <= |ids|
        invariant Valid() && s.rec == MarkingGC(ids[i..]) && s.hold == old(s).hold
        invariant Took(was, acts, Loop, Times(Dis(MarkNext), i))
      {
        ghost var mid := acts;
        LoopStep(Dis(MarkNext));
        TookThen(was, mid, acts, Loop, Times(Dis(MarkNext), i), [Dis(MarkNext)]);
        i := i + 1;
      }
    }

    /** Poll, then the hold: it starts counting with a complete poll and stays as it is until there was one. */
    method PollAndHold(found: Option<seq<Listed>>, vcd: VcdCall.World<VcdCreate.Reply>, gate: bool, timeout: Time)
      returns (listing: PollAnswer, items: seq<Reading>, counted: bool)
      requires Valid() && s.rec.Idle? && vcd.Idle() && (found.Some? ==> Honest(s.core, found.value))
      modifies this, vcd
      ensures Valid() && vcd.Idle() && s.rec.PickCreates?
      ensures var t := ReadsOf(vcd.v, old(vcd.at), found, gate);
              listing == ListingOf(found, t.answers) && vcd.calls == old(vcd.calls) + t.calls
      ensures !old(s).hold.polled && !CompleteView(listing) ==> s.hold == old(s).hold
      ensures old(s).hold.on && CompleteView(listing) ==> s.hold.polled
      ensures Took(old(acts), acts, Loop, PollActions(listing, items, counted) + [Pol(CheckHold(timeout))])
    {
      ghost var was := acts;
      var ok;
      ok, listing, items, counted := PollVCD(found, vcd, gate);
      ghost var mid := acts;
      LoopStep(Pol(CheckHold(timeout)));
      TookThen(was, mid, acts, Loop, PollActions(listing, items, counted), [Pol(CheckHold(timeout))]);
    }

    /** The three dispatches, and every few cycles the check for old instances. */
    method Dispatch(names: seq<Id>, slots: Slots, maxAge: Option<Time>, polled: Cycle) returns (c: Cycle)
      requires Valid() && s.rec.PickCreates?
      modifies this
      ensures Valid() && s.rec.Pruning? && s.hold == old(s).hold
      ensures c == polled.(blocked := c.blocked, creates := c.creates, deletes := c.deletes, visits := c.visits, marked := c.marked)
      ensures VisitsOk(names, c.visits) && (c.marked.Some? <==> maxAge.Some?)
      ensures Took(old(acts), acts, Loop, DispatchActions(names, slots, c))
    {
      ghost var was := acts;
      var blocked, creates := DispatchCreates(slots.creates);
      ghost var a := acts;
      var deletes := DispatchDeletes(slots.deletes);
      ghost var b := acts;
      var visits, marked := CleanUpAndMark(names, slots.cleanups, maxAge);
      c := polled.(blocked := blocked, creates := creates, deletes := deletes, visits := visits, marked := marked);
      ghost var did := CreateActions(blocked, creates, slots.creates);
      TookThen(was, a, b, Loop, did, DeleteActions(deletes, slots.deletes));
      TookThen(was, b, acts, Loop, did + DeleteActions(deletes, slots.deletes), CleanupActions(names, visits) + GcActions(marked));
    }

    method CleanUpAndMark(names: seq<Id>, slots: seq<bool>, maxAge: Option<Time>) returns (visits: seq<Visit>, marked: Option<seq<Id>>)
      requires Valid() && s.rec.Cleanups?
      modifies this
      ensures Valid() && s.rec.Pruning? && s.hold == old(s).hold
      ensures VisitsOk(names, visits) && (marked.Some? <==> maxAge.Some?)
      ensures Took(old(acts), acts, Loop, CleanupActions(names, visits) + GcActions(marked))
    {
      ghost var was := acts;
      visits := DispatchCreateCleanups(names, slots);
      ghost var mid := acts;
      if maxAge.Some? {
        var ids := GcCheck(maxAge.value);
        marked := Some(ids);
      } else {
        LoopStep(Dis(EndGC));
        marked := None;
      }
      TookThen(was, mid, acts, Loop, CleanupActions(names, visits), GcActions(marked));
    }

    /** One reconcile cycle: exactly these actions of the loop, in this order, whatever the others do meanwhile. */
    method ReconcileOnce(found: Option<seq<Listed>>, vcd: VcdCall.World<VcdCreate.Reply>, gate: bool, timeout: Time,
                         names: seq<Id>, slots: Slots, maxAge: Option<Time>)
      returns (listing: PollAnswer, c: Cycle)
      requires Valid() && s.rec.Idle? && vcd.Idle() && (found.Some? ==> Honest(s.core, found.value))
      modifies this, vcd
      ensures Valid() && vcd.Idle() && s.rec.Idle?
      ensures var t := ReadsOf(vcd.v, old(vcd.at), found, gate);
              listing == ListingOf(found, t.answers) && vcd.calls == old(vcd.calls) + t.calls
      ensures VisitsOk(names, c.visits) && (c.marked.Some? <==> maxAge.Some?)
      ensures Took(old(acts), acts, Loop, CycleActions(listing, timeout, names, slots, c))
      ensures !old(s).hold.polled && !CompleteView(listing) ==> s.hold == old(s).hold
      ensures old(s).hold.on && CompleteView(listing) ==> s.hold.polled
    {
      ghost var was := acts;
      var items, counted;
      listing, items, counted := PollAndHold(found, vcd, gate, timeout);
      ghost var a := acts;
      c := Dispatch(names, slots, maxAge, Cycle(items, counted, false, [], [], [], None));
      ghost var b := acts;
      LoopStep(Dis(DoPrune));
      ghost var polled := PollActions(listing, items, counted) + [Pol(CheckHold(timeout))];
      TookThen(was, a, b, Loop, polled, DispatchActions(names, slots, c));
      TookThen(was, b, acts, Loop, polled + DispatchActions(names, slots, c), [Dis(DoPrune)]);
    }

    // The workers.

    /** One step of worker w, and then whatever the others do. */
    method WorkStep(w: nat, k: Work)
      requires Valid() && CanWork(s.core, w, k)
      modifies this
      ensures Valid() && Undisturbed(Do(old(s), Wrk(w, k)), s, At(w))
      ensures Took(old(acts), acts, At(w), [Wrk(w, k)])
    {
      ghost var was := acts;
      assert TakenBy(Wrk(w, k), At(w));
      Take(Wrk(w, k));
      ghost var mid := acts;
      Interfere(At(w));
      TookThen(was, mid, acts, At(w), [Wrk(w, k)], []);
    }

    /** The last step of worker w, after which it is gone. */
    method LastStep(w: nat, k: Work)
      requires Valid() && CanWork(s.core, w, k)
      modifies this
      ensures Valid() && s == Do(old(s), Wrk(w, k)) && Took(old(acts), acts, At(w), [Wrk(w, k)])
    {
      assert TakenBy(Wrk(w, k), At(w));
      Take(Wrk(w, k));
    }

    /** Worker w is at this place of a create for intent k. */
    ghost predicate Creating(w: nat, k: Id, pc: CreatePC)
      reads this
    {
      w in s.core.workers && s.core.workers[w] == Creator(k, pc)
    }

    /**
     * The name is registered before anything is created under it, the vApp is asked for by exactly the calls of
     * CreateOf, and a failure queues the cleanup of the name before letting go of it. `prepared` says whether everything
     * before the registration went well, `finished` whether everything that makes the empty vApp an instance did.
     */
    method CreateInstance(w: nat, ghost k: Id, name: Id, vcd: VcdCall.World<VcdCreate.Reply>, turns: nat, gate: bool, prepared: bool, finished: bool)
      returns (made: Option<Listed>, ghost did: seq<Action>)
      requires Valid() && Creating(w, k, Preparing) && (prepared ==> IsNew(s.core, name))
      requires vcd.Idle() && MakesOwn(s.core, name, VcdCreate.CreateOf(vcd.v, vcd.at, name, turns, gate))
      modifies this, vcd
      ensures Valid() && vcd.Idle() && Took(old(acts), acts, At(w), did)
      ensures made.Some? <==> prepared && VcdCreate.CreateOf(vcd.v, old(vcd.at), name, turns, gate).r.Ok? && finished
      ensures Creating(w, k, if made.Some? then Built(made.value.name, made.value.href) else Failed)
      ensures did == if made.Some? then [Wrk(w, Register(name)), Wrk(w, BuildReturns(made.value.href))]
                     else if !prepared then [Wrk(w, PrepareFails)]
                     else [Wrk(w, Register(name)), Wrk(w, BuildFails), Wrk(w, DropInflight)]
      ensures var m := VcdCreate.CreateOf(vcd.v, old(vcd.at), name, turns, gate);
              && vcd.calls == old(vcd.calls) + (if prepared then m.calls else [])
              && (made.Some? ==> made.value == Listed(m.r.value.href, name))
    {
      if !prepared {
        assert vcd.calls + [] == vcd.calls;
        WorkStep(w, PrepareFails);
        return None, [Wrk(w, PrepareFails)];
      }
      made, did := RegisterAndBuild(w, k, name, vcd, turns, gate, finished);
    }

    method RegisterAndBuild(w: nat, ghost k: Id, name: Id, vcd: VcdCall.World<VcdCreate.Reply>, turns: nat, gate: bool, finished: bool)
      returns (made: Option<Listed>, ghost did: seq<Action>)
      requires Valid() && Creating(w, k, Preparing) && CanWork(s.core, w, Register(name))
      requires vcd.Idle() && MakesOwn(s.core, name, VcdCreate.CreateOf(vcd.v, vcd.at, name, turns, gate))
      modifies this, vcd
      ensures Valid() && vcd.Idle() && Took(old(acts), acts, At(w), did)
      ensures Creating(w, k, if made.Some? then Built(name, made.value.href) else Failed)
      ensures did == [Wrk(w, Register(name))] + if made.Some? then [Wrk(w, BuildReturns(made.value.href))] else [Wrk(w, BuildFails), Wrk(w, DropInflight)]
      ensures var m := VcdCreate.CreateOf(vcd.v, old(vcd.at), name, turns, gate);
              && vcd.calls == old(vcd.calls) + m.calls && (made.Some? <==> m.r.Ok? && finished)
              && (made.Some? ==> made.value == Listed(m.r.value.href, name))
    {
      ghost var m := VcdCreate.CreateOf(vcd.v, vcd.at, name, turns, gate);
      ghost var was := acts;
      RegisterName(w, k, name, if m.r.Ok? then Some(Listed(m.r.value.href, name)) else None);
      ghost var mid, rest := acts, [];
      made, rest := Build(w, k, name, vcd, turns, gate, finished);
      TookThen(was, mid, acts, At(w), [Wrk(w, Register(name))], rest);
      did := [Wrk(w, Register(name))] + rest;
    }

    method RegisterName(w: nat, ghost k: Id, name: Id, ghost told: Option<Listed>)
      requires Valid() && Creating(w, k, Preparing) && CanWork(s.core, w, Register(name))
      requires told.Some? ==> Agrees(s.core, told.value)
      modifies this
      ensures Valid() && Creating(w, k, Building(name)) && Took(old(acts), acts, At(w), [Wrk(w, Register(name))])
      ensures told.Some? ==> Agrees(s.core, told.value)
    {
      assert TakenBy(Wrk(w, Register(name)), At(w));
      Take(Wrk(w, Register(name)));
    }

    /** Everything after the name is registered: the empty vApp, and then what makes it an instance. */
    method Build(w: nat, ghost k: Id, name: Id, vcd: VcdCall.World<VcdCreate.Reply>, turns: nat, gate: bool, finished: bool)
      returns (made: Option<Listed>, ghost did: seq<Action>)
      requires Valid() && Creating(w, k, Building(name))
      requires vcd.Idle() && MakesOwn(s.core, name, VcdCreate.CreateOf(vcd.v, vcd.at, name, turns, gate))
      modifies this, vcd
      ensures Valid() && vcd.Idle() && Took(old(acts), acts, At(w), did)
      ensures Creating(w, k, if made.Some? then Built(name, made.value.href) else Failed)
      ensures did == if made.Some? then [Wrk(w, BuildReturns(made.value.href))] else [Wrk(w, BuildFails), Wrk(w, DropInflight)]
      ensures var m := VcdCreate.CreateOf(vcd.v, old(vcd.at), name, turns, gate);
              && vcd.calls == old(vcd.calls) + m.calls && (made.Some? <==> m.r.Ok? && finished)
              && (made.Some? ==> made.value == Listed(m.r.value.href, name))
    {
      var r := VcdCreate.CreateRawVApp(vcd, name, turns, gate);
      if r.Ok? && finished {
        BuiltStep(w, k, name, r.value.href);
        return Some(Listed(r.value.href, name)), [Wrk(w, BuildReturns(r.value.href))];
      }
      BuildFailed(w, k, name);
      return None, [Wrk(w, BuildFails), Wrk(w, DropInflight)];
    }

    method BuiltStep(w: nat, ghost k: Id, name: Id, href: Id)
      requires Valid() && Creating(w, k, Building(name)) && Agrees(s.core, Listed(href, name))
      modifies this
      ensures Valid() && Creating(w, k, Built(name, href)) && Took(old(acts), acts, At(w), [Wrk(w, BuildReturns(href))])
    {
      ghost var was := acts;
      NameIsRegistered(acts, w, name);
      SettleFound(At(w), name, href);
      ghost var mid := acts;
      WorkStep(w, BuildReturns(href));
      TookThen(was, mid, acts, At(w), [], [Wrk(w, BuildReturns(href))]);
    }

    method BuildFailed(w: nat, ghost k: Id, name: Id)
      requires Valid() && Creating(w, k, Building(name))
      modifies this
      ensures Valid() && Creating(w, k, Failed) && Took(old(acts), acts, At(w), [Wrk(w, BuildFails), Wrk(w, DropInflight)])
    {
      ghost var was := acts;
      Interfere(At(w));
      ghost var mid := acts;
      WorkStep(w, BuildFails);
      ghost var next := acts;
      WorkStep(w, DropInflight);
      TookThen(was, mid, next, At(w), [], [Wrk(w, BuildFails)]);
      TookThen(was, next, acts, At(w), [Wrk(w, BuildFails)], [Wrk(w, DropInflight)]);
    }

    ghost predicate DeleteFailed(w: nat, k: Id)
      reads this
    {
      w in s.core.workers && s.core.workers[w].Deleter? && s.core.workers[w].key == k && s.core.workers[w].delete.Unconfirmed?
    }

    /** The last step of a worker that failed: the record goes back to be retried after a delay. */
    method SendBack(w: nat, k: Id, error: string) returns (a: Work)
      requires Valid() && (Creating(w, k, Reverting) || DeleteFailed(w, k))
      modifies this
      ensures Valid() && w !in s.core.workers && Took(old(acts), acts, At(w), [Wrk(w, a)])
      ensures if old(DeleteFailed(w, k)) then a.FinishUndeleted? else a.Revert?
      ensures k in s.core.store <==> k in old(s).core.store
      ensures k in s.core.store ==> && RetryDue(s.core.store[k], s.now)
                                    && s.core.store[k].phase == if old(DeleteFailed(w, k)) then PendingDelete else PendingCreate
    {
      var delay := DelayFor(s.core.store, k);
      a := if s.core.workers[w].Creator? then Revert(error, delay) else FinishUndeleted(error, delay);
      RunsKeepInv(acts);
      SentBackRecord(s, w, k, a);
      LastStep(w, a);
    }

    /** The failed end of doCreate; the intent it works for is still in the store. */
    method GiveUp(w: nat, k: Id, error: string)
      requires Valid() && Creating(w, k, Failed)
      modifies this
      ensures Valid() && w !in s.core.workers
      ensures k in s.core.store && s.core.store[k].phase == PendingCreate && RetryDue(s.core.store[k], s.now)
    {
      var u: Random := *;
      WorkStep(w, CountFailure(u));
      RunsKeepInv(acts);
      assert WorkerOk(s.core, w);
      var a := SendBack(w, k, error);
    }

    /**
     * A create that succeeds is recorded for its intent with the vApp that its own calls brought; one that fails
     * leaves the intent pending. Either way the vApp is posted at most once.
     */
    method DoCreate(w: nat, k: Id, name: Id, vcd: VcdCall.World<VcdCreate.Reply>, turns: nat, gate: bool, prepared: bool, finished: bool,
                    vmName: string, ip: string, osType: string, error: string)
      returns (made: Option<Listed>)
      requires Valid() && Creating(w, k, Preparing) && (prepared ==> IsNew(s.core, name))
      requires vcd.Idle() && MakesOwn(s.core, name, VcdCreate.CreateOf(vcd.v, vcd.at, name, turns, gate))
      modifies this, vcd
      ensures Valid() && vcd.Idle() && w !in s.core.workers
      ensures var m := VcdCreate.CreateOf(vcd.v, old(vcd.at), name, turns, gate);
              && vcd.calls == old(vcd.calls) + (if prepared then m.calls else [])
              && (made.Some? <==> prepared && m.r.Ok? && finished)
              && (made.Some? ==> made.value == Listed(m.r.value.href, name))
              && VcdCall.Unrejected(VcdCreate.Only(VcdCall.AllRuns(vcd.v, m.calls), VcdCreate.POST)) <= 1
      ensures made.Some? ==> name in s.core.hist.recorded && s.core.hist.recorded[name] == (k, made.value.href)
      ensures made.Some? ==>
                Took(old(acts), acts, At(w),
                     [Wrk(w, Register(name)), Wrk(w, BuildReturns(made.value.href))]
                     + [Wrk(w, CountSuccess), Wrk(w, Record(vmName, ip, osType)), Wrk(w, Release)])
      ensures made.None? ==> k in s.core.store && s.core.store[k].phase == PendingCreate && RetryDue(s.core.store[k], s.now)
    {
      VcdCall.SpeakersAreLawful(vcd.v, vcd.script);
      VcdCreate.PostsAtMostOnce(vcd.v, vcd.at, name, turns, gate);
      ghost var was, did := acts, [];
      made, did := CreateInstance(w, k, name, vcd, turns, gate, prepared, finished);
      if made.None? {
        GiveUp(w, k, error);
        return;
      }
      ghost var mid := acts;
      Finish(w, k, made.value, vmName, ip, osType);
      TookThen(was, mid, acts, At(w), did, [Wrk(w, CountSuccess), Wrk(w, Record(vmName, ip, osType)), Wrk(w, Release)]);
    }

    /** The successful end of doCreate: the HREF is stored before the name is released. */
    method Finish(w: nat, k: Id, v: Listed, vmName: string, ip: string, osType: string)
      requires Valid() && Creating(w, k, Built(v.name, v.href))
      modifies this
      ensures Valid() && w !in s.core.workers
      ensures v.name in s.core.hist.recorded && s.core.hist.recorded[v.name] == (k, v.href)
      ensures Took(old(acts), acts, At(w), [Wrk(w, CountSuccess), Wrk(w, Record(vmName, ip, osType)), Wrk(w, Release)])
    {
      ghost var was := acts;
      WorkStep(w, CountSuccess);
      ghost var a := acts;
      WorkStep(w, Record(vmName, ip, osType));
      ghost var b := acts;
      LastStep(w, Release);
      TookThen(was, a, b, At(w), [Wrk(w, CountSuccess)], [Wrk(w, Record(vmName, ip, osType))]);
      TookThen(was, b, acts, At(w), [Wrk(w, CountSuccess), Wrk(w, Record(vmName, ip, osType))], [Wrk(w, Release)]);
    }

    /**
     * A delete is confirmed exactly when deleteInstance succeeds, and carries its evidence, which is what the
     * calls of this delete gave. One that fails puts the record back to pending, whatever happened to it meanwhile.
     */
    method DoDelete(w: nat, k: Id, href: Id, vcd: VcdCall.World<VcdCreate.Reply>, how: D.Setting, error: string)
      returns (evidence: Option<D.Evidence>)
      requires Valid() && w in s.core.workers && s.core.workers[w] == Deleter(k, href, Asking)
      requires vcd.Idle() && D.ReadsNames(vcd.script)
      modifies this, vcd
      ensures Valid() && w !in s.core.workers && vcd.Idle()
      ensures var d := D.DeleteOf(vcd.v, old(vcd.at), href, how);
              && evidence == d.evidence && vcd.calls == old(vcd.calls) + d.calls
              && (evidence.Some? ==> D.Backed(evidence.value, href, VcdCall.AllRuns(vcd.v, d.calls)))
      ensures evidence.Some? ==> Took(old(acts), acts, At(w), [Wrk(w, DeleteSucceeds(evidence.value)), Wrk(w, FinishDeleted)])
      ensures evidence.None? ==> exists a: Work :: a.FinishUndeleted? && Took(old(acts), acts, At(w), [Wrk(w, DeleteFails), Wrk(w, a)])
      ensures k in s.core.store ==> if evidence.Some? then s.core.store[k].phase == Deleted
                                    else s.core.store[k].phase == PendingDelete && RetryDue(s.core.store[k], s.now)
    {
      VcdCall.SpeakersAreLawful(vcd.v, vcd.script);
      D.DeleteIsBacked(vcd.v, vcd.at, href, how);
      ghost var runs := VcdCall.AllRuns(vcd.v, D.DeleteOf(vcd.v, vcd.at, href, how).calls);
      var failure;
      failure, evidence := D.DeleteInstance(vcd, href, how);
      if evidence.Some? {
        BackedConvinces(evidence.value, href, runs);
        DeleteDone(w, k, href, evidence.value);
      } else {
        var a := DeleteUndone(w, k, href, error);
      }
    }

    method DeleteUndone(w: nat, k: Id, href: Id, error: string) returns (a: Work)
      requires Valid() && w in s.core.workers && s.core.workers[w] == Deleter(k, href, Asking)
      modifies this
      ensures Valid() && w !in s.core.workers && a.FinishUndeleted?
      ensures Took(old(acts), acts, At(w), [Wrk(w, DeleteFails), Wrk(w, a)])
      ensures k in s.core.store ==> s.core.store[k].phase == PendingDelete && RetryDue(s.core.store[k], s.now)
    {
      ghost var was := acts;
      WorkStep(w, DeleteFails);
      ghost var mid := acts;
      a := SendBack(w, k, error);
      TookThen(was, mid, acts, At(w), [Wrk(w, DeleteFails)], [Wrk(w, a)]);
    }

    /** By the time the answer is in, others have gone on; a vApp that was read as not found has vanished by then. */
    method DeleteDone(w: nat, k: Id, href: Id, why: D.Evidence)
      requires Valid() && w in s.core.workers && s.core.workers[w] == Deleter(k, href, Asking) && Convincing(why)
      modifies this
      ensures Valid() && w !in s.core.workers
      ensures Took(old(acts), acts, At(w), [Wrk(w, DeleteSucceeds(why)), Wrk(w, FinishDeleted)])
      ensures k in s.core.store ==> s.core.store[k].phase == Deleted
    {
      ghost var was := acts;
      SettleVanish(w, href, why);
      ghost var a := acts;
      WorkStep(w, DeleteSucceeds(why));
      ghost var b := acts;
      ConfirmDelete(w, k);
      TookThen(was, a, b, At(w), [], [Wrk(w, DeleteSucceeds(why))]);
      TookThen(was, b, acts, At(w), [Wrk(w, DeleteSucceeds(why))], [Wrk(w, FinishDeleted)]);
    }

    method SettleVanish(w: nat, href: Id, why: D.Evidence)
      requires Valid() && w in s.core.workers && Convincing(why)
      modifies this
      ensures Valid() && Undisturbed(old(s), s, At(w)) && Took(old(acts), acts, At(w), []) && Possible(s.core, href, why)
    {
      ghost var was, t := acts, s;
      Interfere(At(w));
      ghost var mid, u := acts, s;
      VanishIf(w, href, why);
      TookThen(was, mid, acts, At(w), [], []);
      RelyThen(t, u, s, At(w));
    }

    /** A vApp that was read as not found has vanished by then. */
    method VanishIf(w: nat, href: Id, why: D.Evidence)
      requires Valid() && Convincing(why)
      modifies this
      ensures Valid() && Undisturbed(old(s), s, At(w)) && Took(old(acts), acts, At(w), []) && Possible(s.core, href, why)
    {
      if why.ReadNotFound? {
        TakeOther(Out(Vanish(href)), At(w), s, acts);
      }
    }

    /** One step of someone else, after what happened since `was`. */
    method TakeOther(a: Action, g: Goroutine, ghost t: State, ghost was: seq<Action>)
      requires Valid() && Can(s, a) && !TakenBy(a, g) && Undisturbed(t, s, g) && Took(was, acts, g, [])
      modifies this
      ensures Valid() && s == Do(old(s), a) && Undisturbed(t, s, g) && Took(was, acts, g, [])
    {
      RunsKeepInv(acts);
      OthersDoNotDisturb(s, a, g);
      ghost var mid := acts;
      Take(a);
      TookThen(was, mid, acts, g, [], []);
      RelyThen(t, old(s), s, g);
    }

    method ConfirmDelete(w: nat, k: Id)
      requires Valid() && w in s.core.workers && CanWork(s.core, w, FinishDeleted) && s.core.workers[w].key == k
      modifies this
      ensures Valid() && w !in s.core.workers && Took(old(acts), acts, At(w), [Wrk(w, FinishDeleted)])
      ensures k in s.core.store ==> s.core.store[k].phase == Deleted
    {
      RunsKeepInv(acts);
      ConfirmedRecord(s, w);
      LastStep(w, FinishDeleted);
    }

    /** Worker w is at this place of the cleanup of a name. */
    ghost predicate Cleaning(w: nat, name: Id, requestedAt: Time, pc: CleanupPC)
      reads this
    {
      w in s.core.workers && s.core.workers[w] == Cleaner(name, requestedAt, pc)
    }

    /**
     * A name is forgotten exactly after a cleanup that succeeded, or that ended as not found five minutes or
     * more after the request; the claim on the name is given back last.
     */
    method CleanUp(w: nat, name: Id, requestedAt: Time, vcd: VcdCall.World<VcdCreate.Reply>, how: D.Setting)
      returns (did: Work, gone: bool)
      requires Valid() && Cleaning(w, name, requestedAt, CleanupPC.Cleaning)
      requires vcd.Idle() && D.ReadsNames(vcd.script) && FindsOwn(s.core, name, VcdCleanup.CleanupOf(vcd.v, vcd.at, name, how))
      modifies this, vcd
      ensures Valid() && vcd.Idle() && w !in s.core.workers && name !in s.core.names.background
      ensures var f := VcdCleanup.CleanupOf(vcd.v, old(vcd.at), name, how);
              && did == CleanupEnd(vcd.v, f, name) && EndsAs(did, f) && vcd.calls == old(vcd.calls) + f.calls
              && EndBacked(did, name, VcdCall.AllRuns(vcd.v, f.calls))
      ensures Took(old(acts), acts, At(w), CleanUpActions(w, did, gone))
      ensures did.CleanupSucceeds? ==> gone
      ensures did.CleanupNotFound? ==> if gone then requestedAt + SAFE_CALL_MAX_ELAPSED <= s.now else old(s).now < requestedAt + SAFE_CALL_MAX_ELAPSED
      ensures did.CleanupFails? ==> !gone
      ensures gone ==> name in s.core.hist.retired && RetirementOk(s.core, name, s.core.hist.retired[name])
    {
      ghost var was := acts;
      did := Search(w, name, requestedAt, vcd, how);
      ghost var mid := acts;
      gone := s.core.workers[w].cleanup.Retiring?;
      Forget(w, name, requestedAt);
      TookThen(was, mid, acts, At(w), [Wrk(w, did)], (if gone then [Wrk(w, Retire)] else []) + [Wrk(w, Leave)]);
      assert [Wrk(w, did)] + ((if gone then [Wrk(w, Retire)] else []) + [Wrk(w, Leave)]) == CleanUpActions(w, did, gone);
    }

    /** cleanUpInstanceByName, and what its answer means for the name. */
    method Search(w: nat, name: Id, requestedAt: Time, vcd: VcdCall.World<VcdCreate.Reply>, how: D.Setting) returns (did: Work)
      requires Valid() && Cleaning(w, name, requestedAt, CleanupPC.Cleaning)
      requires vcd.Idle() && D.ReadsNames(vcd.script) && FindsOwn(s.core, name, VcdCleanup.CleanupOf(vcd.v, vcd.at, name, how))
      modifies this, vcd
      ensures Valid() && vcd.Idle() && Took(old(acts), acts, At(w), [Wrk(w, did)]) && old(s).now <= s.now
      ensures var f := VcdCleanup.CleanupOf(vcd.v, old(vcd.at), name, how);
              && did == CleanupEnd(vcd.v, f, name) && EndsAs(did, f) && vcd.calls == old(vcd.calls) + f.calls
              && EndBacked(did, name, VcdCall.AllRuns(vcd.v, f.calls))
      ensures w in s.core.workers && s.core.workers[w].Cleaner? && Cleaning(w, name, requestedAt, s.core.workers[w].cleanup)
      ensures Decided(did, s.core.workers[w].cleanup, requestedAt, old(s).now, s.now)
    {
      VcdCall.SpeakersAreLawful(vcd.v, vcd.script);
      VcdCleanup.CleanupIsBacked(vcd.v, vcd.at, name, how);
      ghost var f := VcdCleanup.CleanupOf(vcd.v, vcd.at, name, how);
      did := AskCleanup(vcd, name, how);
      EndConvinces(did, name, VcdCall.AllRuns(vcd.v, f.calls));
      EndCleanup(w, name, requestedAt, did);
    }

    method EndCleanup(w: nat, name: Id, requestedAt: Time, did: Work)
      requires Valid() && Cleaning(w, name, requestedAt, CleanupPC.Cleaning)
      requires match did
               case CleanupSucceeds(href, why) => Convincing(why) && Agrees(s.core, Listed(href, name))
               case CleanupNotFound(miss) => miss.error.sentinel
               case CleanupFails => true
               case _ => false
      modifies this
      ensures Valid() && Took(old(acts), acts, At(w), [Wrk(w, did)]) && old(s).now <= s.now
      ensures w in s.core.workers && s.core.workers[w].Cleaner? && Cleaning(w, name, requestedAt, s.core.workers[w].cleanup)
      ensures Decided(did, s.core.workers[w].cleanup, requestedAt, old(s).now, s.now)
    {
      if did.CleanupSucceeds? {
        CleanedUpStep(w, name, requestedAt, did.href, did.why);
      } else {
        WorkStep(w, did);
      }
    }

    /** The answer of cleanUpInstanceByName: only the sentinel means that something was not found. */
    static method AskCleanup(vcd: VcdCall.World<VcdCreate.Reply>, name: Id, how: D.Setting) returns (did: Work)
      requires vcd.Idle() && D.ReadsNames(vcd.script)
      modifies vcd
      ensures vcd.Idle()
      ensures var f := VcdCleanup.CleanupOf(vcd.v, old(vcd.at), name, how);
              did == CleanupEnd(vcd.v, f, name) && EndsAs(did, f) && vcd.calls == old(vcd.calls) + f.calls
    {
      VcdCall.SpeakersAreLawful(vcd.v, vcd.script);
      VcdCleanup.CleanupIsBacked(vcd.v, vcd.at, name, how);
      var n := |vcd.runs|;
      ghost var was, f := vcd.calls, VcdCleanup.CleanupOf(vcd.v, vcd.at, name, how);
      var failure, found, evidence := VcdCleanup.CleanUpInstanceByName(vcd, name, how);
      if failure.None? {
        return CleanupSucceeds(found.value, evidence.value);
      }
      if !failure.value.sentinel {
        return CleanupFails;
      }
      VcdCall.RanJoin(vcd.v, was, f.calls);
      assert vcd.runs[n..] == VcdCall.AllRuns(vcd.v, f.calls);
      return CleanupNotFound(VcdCleanup.MissOf(vcd.runs[n..], name, failure.value));
    }

    /** The cleanup deleted the vApp that its lookup returned, which has been committed by then. */
    method CleanedUpStep(w: nat, name: Id, requestedAt: Time, href: Id, why: D.Evidence)
      requires Valid() && Cleaning(w, name, requestedAt, CleanupPC.Cleaning) && Convincing(why) && Agrees(s.core, Listed(href, name))
      modifies this
      ensures Valid() && Took(old(acts), acts, At(w), [Wrk(w, CleanupSucceeds(href, why))]) && old(s).now <= s.now
      ensures Cleaning(w, name, requestedAt, Retiring(CleanedUp(href, why)))
    {
      ghost var was := acts;
      NameIsRegistered(acts, w, name);
      SettleFound(At(w), name, href);
      ghost var a := acts;
      VanishIf(w, href, why);
      ghost var b := acts;
      WorkStep(w, CleanupSucceeds(href, why));
      TookThen(was, a, b, At(w), [], []);
      TookThen(was, b, acts, At(w), [], [Wrk(w, CleanupSucceeds(href, why))]);
    }

    /** By the time vCD hands out a vApp of a registered name, the POST that made it has taken effect. */
    method SettleFound(g: Goroutine, name: Id, href: Id)
      requires Valid() && name in s.core.hist.registered && Agrees(s.core, Listed(href, name))
      modifies this
      ensures Valid() && Undisturbed(old(s), s, g) && Took(old(acts), acts, g, [])
      ensures href in s.core.vcd.vapps && s.core.vcd.vapps[href] == name
    {
      InterfereGiven(g, Some(Listed(href, name)));
      if href !in s.core.vcd.vapps {
        TakeOther(Out(Commit(name, href)), g, old(s), old(acts));
      }
    }

    /** The end of a cleanup: the name is dropped if it may be, and then the claim on it. */
    method Forget(w: nat, name: Id, requestedAt: Time)
      requires Valid() && w in s.core.workers && s.core.workers[w].Cleaner? && Cleaning(w, name, requestedAt, s.core.workers[w].cleanup)
      requires s.core.workers[w].cleanup.Retiring? || s.core.workers[w].cleanup.Leaving?
      modifies this
      ensures Valid() && w !in s.core.workers && name !in s.core.names.background && old(s).now <= s.now
      ensures var gone := old(s).core.workers[w].cleanup.Retiring?;
              && Took(old(acts), acts, At(w), (if gone then [Wrk(w, Retire)] else []) + [Wrk(w, Leave)])
              && (gone ==> name in s.core.hist.retired && RetirementOk(s.core, name, s.core.hist.retired[name]))
    {
      if s.core.workers[w].cleanup.Retiring? {
        ghost var was := acts;
        Retired(w, name, requestedAt);
        ghost var mid := acts;
        LeaveClaim(w, name);
        TookThen(was, mid, acts, At(w), [Wrk(w, Retire)], [Wrk(w, Leave)]);
      } else {
        LeaveClaim(w, name);
        assert [] + [Wrk(w, Leave)] == [Wrk(w, Leave)];
      }
    }

    method Retired(w: nat, name: Id, requestedAt: Time)
      requires Valid() && w in s.core.workers && s.core.workers[w].Cleaner? && Cleaning(w, name, requestedAt, s.core.workers[w].cleanup)
      requires s.core.workers[w].cleanup.Retiring?
      modifies this
      ensures Valid() && Cleaning(w, name, requestedAt, Leaving) && Took(old(acts), acts, At(w), [Wrk(w, Retire)])
      ensures name in s.core.hist.registered && name in s.core.hist.retired && old(s).now <= s.now
    {
      RunsKeepInv(acts);
      assert WorkerOk(s.core, w);
      WorkStep(w, Retire);
    }

    method LeaveClaim(w: nat, name: Id)
      requires Valid() && CanWork(s.core, w, Leave) && s.core.workers[w].name == name
      modifies this
      ensures Valid() && w !in s.core.workers && name !in s.core.names.background && Took(old(acts), acts, At(w), [Wrk(w, Leave)])
      ensures s.core.hist == old(s).core.hist && s.now == old(s).now
      ensures name in s.core.hist.retired ==> RetirementOk(s.core, name, s.core.hist.retired[name])
    {
      RunsKeepInv(acts);
      assert WorkerOk(s.core, w);
      assert NameOk(s.core, name);
      LastStep(w, Leave);
    }
  }

  lemma NameIsRegistered(acts: seq<Action>, w: nat, name: Id)
    requires IsRun(acts)
    requires var ws := After(acts).core.workers;
             w in ws && ((ws[w].Cleaner? && ws[w].name == name) || (ws[w].Creator? && ws[w].create == Building(name)))
    ensures name in After(acts).core.hist.registered
  {
    RunsKeepInv(acts);
    assert WorkerOk(After(acts).core, w);
  }

  /** A name that was just generated. */
  predicate IsNew(c: Core, name: Id) {
    name !in c.hist.registered && name !in c.vcd.vapps.Values
  }

  /** A create makes or recovers a vApp of its name. */
  ghost predicate MakesOwn(c: Core, name: Id, m: VcdCreate.Making) {
    m.r.Ok? ==> Agrees(c, Listed(m.r.value.href, name))
  }

  /** A lookup by name returns vApps of that name. */
  ghost predicate FindsOwn(c: Core, name: Id, f: VcdCleanup.Cleaning) {
    f.found.Some? ==> Agrees(c, Listed(f.found.value, name))
  }

  /** Done exactly when the cleanup succeeded, with what it found and its evidence; not found exactly on the sentinel. */
  predicate EndsAs(did: Work, f: VcdCleanup.Cleaning) {
    && (did.CleanupSucceeds? <==> f.failure.None?)
    && (did.CleanupNotFound? <==> f.failure.Some? && f.failure.value.sentinel)
    && (did.CleanupSucceeds? ==> f.found == Some(did.href) && f.evidence == Some(did.why))
  }

  /** How a cleanup ends: done, with something not found, or failed. */
  function CleanupEnd(v: VcdCall.Vcd<VcdCreate.Reply>, f: VcdCleanup.Cleaning, name: Id): Work {
    if f.failure.Some? then
      if f.failure.value.sentinel then CleanupNotFound(VcdCleanup.CleanupMiss(v, f, name)) else CleanupFails
    else if f.found.Some? && f.evidence.Some? then CleanupSucceeds(f.found.value, f.evidence.value)
    else CleanupFails
  }

  /** The end is what these runs gave: a lookup of the name and then a delete of what it returned, or what was not found. */
  ghost predicate EndBacked(did: Work, name: Id, runs: seq<VcdCall.Run<VcdCreate.Reply>>) {
    match did
    case CleanupSucceeds(href, e) =>
      exists m :: 0 <= m <= |runs| && VcdCleanup.FoundBy(runs[..m], name, href) && D.Backed(e, href, runs[m..])
    case CleanupNotFound(miss) => VcdCleanup.MissBacked(miss, name, runs)
    case _ => true
  }

  /** Whether the name may be let go, given how the cleanup ended some time between two points. */
  predicate Decided(did: Work, pc: CleanupPC, requestedAt: Time, from: Time, now: Time) {
    match did
    case CleanupSucceeds(_, _) => pc.Retiring?
    case CleanupNotFound(_) =>
      || (pc.Retiring? && requestedAt + SAFE_CALL_MAX_ELAPSED <= now)
      || (pc.Leaving? && from < requestedAt + SAFE_CALL_MAX_ELAPSED)
    case CleanupFails => pc.Leaving?
    case _ => false
  }

  lemma EndConvinces(did: Work, name: Id, runs: seq<VcdCall.Run<VcdCreate.Reply>>)
    requires EndBacked(did, name, runs)
    ensures did.CleanupSucceeds? ==> Convincing(did.why)
    ensures did.CleanupNotFound? ==> did.miss.error.sentinel
  {
    if did.CleanupSucceeds? {
      var m :| 0 <= m <= |runs| && VcdCleanup.FoundBy(runs[..m], name, did.href) && D.Backed(did.why, did.href, runs[m..]);
      BackedConvinces(did.why, did.href, runs[m..]);
    }
  }

  lemma BackedConvinces(e: D.Evidence, href: Id, runs: seq<VcdCall.Run<VcdCreate.Reply>>)
    requires D.Backed(e, href, runs)
    ensures Convincing(e)
  {
  }

  lemma ConfirmedRecord(s: State, w: nat)
    requires Inv(s) && CanWork(s.core, w, FinishDeleted)
    ensures var st, k := AfterWork(s.core, w, FinishDeleted, s.now).store, s.core.workers[w].key; k in st ==> st[k].phase == Deleted
  {
    SettlesToBase(s.core, w, FinishDeleted, s.now);
  }

  lemma SentBackRecord(s: State, w: nat, k: Id, a: Work)
    requires Inv(s) && CanWork(s.core, w, a) && (a.Revert? || a.FinishUndeleted?)
    requires k == if a.Revert? then s.core.workers[w].intent else s.core.workers[w].key
    requires k in s.core.store ==>
               Jittered(a.delay, Capped(RETRY_BASE_DELAY, RETRY_MAX_DELAY, s.core.store[k].retryCount), RETRY_JITTER)
    ensures var st := AfterWork(s.core, w, a, s.now).store;
            && (k in st <==> k in s.core.store)
            && (k in st ==> st[k].phase == (if a.Revert? then PendingCreate else PendingDelete) && RetryDue(st[k], s.now))
  {
    SettlesToBase(s.core, w, a, s.now);
    if k in s.core.store {
      FailureDelays(s.core.store[k], a, s.now);
      assert AfterWork(s.core, w, a, s.now).store[k] == Final(a, s.now)(s.core.store[k]).(lastUpdated := Some(s.now));
    }
  }

  /** What a failure writes in the record. */
  lemma FailureDelays(r: Instance, a: Work, now: Time)
    requires a.Revert? || a.FinishUndeleted?
    requires Jittered(a.delay, Capped(RETRY_BASE_DELAY, RETRY_MAX_DELAY, r.retryCount), RETRY_JITTER)
    ensures var r' := Final(a, now)(r).(lastUpdated := Some(now));
            r'.phase == (if a.Revert? then PendingCreate else PendingDelete) && RetryDue(r', now)
  {
  }
}
