/** What holds over whole runs of the reconciler, however its goroutines interleave. */
module Theorems {
  import opened Basics
  import opened Lifecycle
  import opened Listing
  import opened Protocol
  import opened Invariant
  import opened Preservation
  import opened Evolution
  import D = VcdDelete
  import M = StoreModel

  // Ownership.

  /** The name belongs to a create of this process that has not let go of it. */
  predicate InFlight(c: Core, n: Id) {
    exists w :: w in c.workers && c.workers[w].Creator? && HasName(c.workers[w].create) && c.workers[w].create.name == n
  }

  /**
   * A leftover is never a vApp whose create is in flight, that awaits failed-create cleanup, or that
   * another record tracks, and ownsVApp would not claim it.
   */
  lemma LeftoversAreNotOurs(acts: seq<Action>, href: Id)
    requires IsRun(acts)
    requires var c := After(acts).core; href in c.store && c.store[href].leftover
    ensures var c := After(acts).core;
            && href in c.vcd.vapps && c.store[href].id == href
            && c.vcd.vapps[href] !in c.names.inflight && c.vcd.vapps[href] !in c.names.failed
            && !InFlight(c, c.vcd.vapps[href])
            && M.Holders(c.store, href) == {href}
  {
    RunsKeepInv(acts);
    var c := After(acts).core;
    HrefsAreUnique(c);
    assert RecordOk(c, href);
    forall w | w in c.workers && c.workers[w].Creator? && HasName(c.workers[w].create)
      ensures c.workers[w].create.name in c.names.inflight
    {
      assert WorkerOk(c, w);
    }
  }

  /** HREFs are unique, and a create that stores its HREF finds no record to remove. */
  lemma NoDuplicateIsEverRemoved(acts: seq<Action>, w: nat)
    requires IsRun(acts)
    ensures var c := After(acts).core;
            && M.UniqueHREFs(c.store)
            && (w in c.workers && c.workers[w].Creator? && c.workers[w].create.Counted? ==>
                  M.Holders(c.store, c.workers[w].create.href) == {})
  {
    RunsKeepInv(acts);
    HrefsAreUnique(After(acts).core);
    var c := After(acts).core;
    if w in c.workers && c.workers[w].Creator? && c.workers[w].create.Counted? {
      NoDuplicateToRemove(c, w);
    }
  }

  /** Records sit under intents or under the HREFs of leftovers. */
  lemma KeysAreKnown(c: Core)
    requires CoreInv(c)
    ensures c.store.Keys <= c.hist.intents + c.vcd.vapps.Keys
  {
    forall k | k in c.store
      ensures k in c.hist.intents || k in c.vcd.vapps
    {
      assert RecordOk(c, k);
    }
  }

  /**
   * The calls a run makes to the store meet the conditions under which its HREF index stays exact:
   * Increase overwrites no HREF, a leftover takes a free key, and an HREF once set never changes.
   */
  lemma RunsKeepIndexExact(acts: seq<Action>, a: Action)
    requires IsRun(acts) && Can(After(acts), a)
    ensures var s, t := After(acts), Do(After(acts), a);
            && (a.Out? && a.o.Increase? ==> a.o.id !in s.core.store)
            && (a == Pol(Adopt) ==> var href := Item(s.rec.p).href;
                  href != NO_ID && (href in s.core.store ==> M.Tracked(s.core.store, href)))
            && (forall k :: k in s.core.store && k in t.core.store && s.core.store[k].id != NO_ID ==> t.core.store[k].id == s.core.store[k].id)
  {
    RunsKeepInv(acts);
    var s := After(acts);
    forall k | k in s.core.store
      ensures StaysOrPruned(s, a, Do(s, a), k)
    {
      StepEvolves(s, a, k);
    }
    KeysAreKnown(s.core);
    if a == Pol(Adopt) && Item(s.rec.p).href in s.core.store {
      assert RecordOk(s.core, Item(s.rec.p).href);
      assert Item(s.rec.p).href in M.Holders(s.core.store, Item(s.rec.p).href);
    }
  }

  /**
   * Every registered name is in flight, awaits cleanup, is held by a record (present, or pruned since),
   * or was let go: after a delete of a vApp of that name, or five minutes or more after its cleanup was
   * requested, because a lookup of the name found nothing or because something else was not found.
   */
  lemma NoNameLeaks(acts: seq<Action>, n: Id)
    requires IsRun(acts) && n in After(acts).core.hist.registered
    ensures var c := After(acts).core;
            || InFlight(c, n)
            || n in c.names.failed
            || (n in c.hist.recorded &&
                var (k, href) := c.hist.recorded[n];
                href in c.vcd.vapps && c.vcd.vapps[href] == n &&
                if k in c.store then c.store[k].id == href else k in c.hist.pruned)
            || (n in c.hist.retired && RetirementOk(c, n, c.hist.retired[n]))
  {
    RunsKeepInv(acts);
    var c := After(acts).core;
    assert NameOk(c, n);
    if n in c.names.inflight {
      assert c.hist.holder[n] in c.workers;
    }
  }

  /** The i-th action of the run ended a cleanup of this name in the way that let the name go. */
  predicate LetGoAt(acts: seq<Action>, i: nat, n: Id, why: Retirement) {
    && i < |acts| && IsRun(acts[..i]) && acts[i].Wrk?
    && var s := After(acts[..i]);
       && acts[i].w in s.core.workers && s.core.workers[acts[i].w].Cleaner? && s.core.workers[acts[i].w].name == n
       && match why
          case CleanedUp(href, e) => acts[i].k == CleanupSucceeds(href, e)
          case NeverSeen(_, at, miss) => acts[i].k == CleanupNotFound(miss) && s.now == at
  }

  predicate LetGo(acts: seq<Action>, n: Id, why: Retirement) {
    exists i :: 0 <= i < |acts| && LetGoAt(acts, i, n, why)
  }

  lemma LetGoLater(acts: seq<Action>, m: nat, n: Id, why: Retirement)
    requires m <= |acts| && LetGo(acts[..m], n, why)
    ensures LetGo(acts, n, why)
  {
    var i :| 0 <= i < m && LetGoAt(acts[..m], i, n, why);
    assert acts[..m][..i] == acts[..i];
    assert LetGoAt(acts, i, n, why);
  }

  predicate RetiringAt(c: Core, w: nat) {
    w in c.workers && c.workers[w].Cleaner? && c.workers[w].cleanup.Retiring?
  }

  lemma DispatchRetiresNothing(s: State, d: Dispatched, w: nat)
    requires CanDispatch(s, d) && RetiringAt(DoDispatch(s, d).core, w)
    ensures w in s.core.workers && s.core.workers[w] == DoDispatch(s, d).core.workers[w]
  {
  }

  lemma WorkRetires(c: Core, v: nat, x: Work, now: Time, w: nat)
    requires CanWork(c, v, x) && RetiringAt(AfterWork(c, v, x, now), w)
    ensures var me := AfterWork(c, v, x, now).workers[w];
            || (w in c.workers && c.workers[w] == me)
            || (v == w && c.workers[w].Cleaner? && c.workers[w].name == me.name &&
                match me.cleanup.why
                case CleanedUp(href, e) => x == CleanupSucceeds(href, e)
                case NeverSeen(_, at, miss) => x == CleanupNotFound(miss) && now == at)
  {
  }

  /** A cleanup that is about to let its name go got there by a step of its own. */
  lemma {:induction false} RetiringInRun(acts: seq<Action>, w: nat)
    requires IsRun(acts) && RetiringAt(After(acts).core, w)
    ensures LetGo(acts, After(acts).core.workers[w].name, After(acts).core.workers[w].cleanup.why)
    decreases |acts|
  {
    if acts != [] {
      var m, before, a := |acts| - 1, acts[..|acts| - 1], acts[|acts| - 1];
      var s, me := After(before), After(acts).core.workers[w];
      match a {
        case Wrk(v, x) => WorkRetires(s.core, v, x, s.now, w);
        case Dis(d) => DispatchRetiresNothing(s, d, w);
        case Pol(p) => PollLeavesReasons(s, p);
        case _ =>
      }
      if w in s.core.workers && s.core.workers[w] == me {
        RetiringInRun(before, w);
        LetGoLater(acts, m, me.name, me.cleanup.why);
      } else {
        assert LetGoAt(acts, m, me.name, me.cleanup.why);
      }
    }
  }

  lemma WorkSetsRetired(c: Core, w: nat, x: Work, now: Time)
    requires CanWork(c, w, x)
    ensures AfterWork(c, w, x, now).hist.retired
         == if x.Retire? && c.workers[w].name in c.names.failed then c.hist.retired[c.workers[w].name := c.workers[w].cleanup.why]
            else c.hist.retired
  {
  }

  lemma OutsideKeepsRetired(c: Core, o: Outside, now: Time)
    requires CanOutside(c, o)
    ensures AfterOutside(c, o, now).hist.retired == c.hist.retired
  {
  }

  lemma RetiredSteps(s: State, a: Action, n: Id)
    requires Can(s, a) && n in Do(s, a).core.hist.retired
    ensures || (n in s.core.hist.retired && s.core.hist.retired[n] == Do(s, a).core.hist.retired[n])
            || (a.Wrk? && RetiringAt(s.core, a.w) && s.core.workers[a.w].name == n
                && s.core.workers[a.w].cleanup.why == Do(s, a).core.hist.retired[n])
  {
    match a
    case Wrk(w, x) => WorkSetsRetired(s.core, w, x, s.now);
    case Out(o) => OutsideKeepsRetired(s.core, o, s.now);
    case Pol(p) => PollLeavesReasons(s, p);
    case Dis(d) => DispatchLeavesReasons(s, d);
    case Tick(_) =>
  }

  /** A name was let go by a cleanup of that name, and for the reason that is remembered. */
  lemma {:induction false} RetiredInRun(acts: seq<Action>, n: Id)
    requires IsRun(acts) && n in After(acts).core.hist.retired
    ensures LetGo(acts, n, After(acts).core.hist.retired[n])
    decreases |acts|
  {
    if acts != [] {
      var m, before, a := |acts| - 1, acts[..|acts| - 1], acts[|acts| - 1];
      var why := After(acts).core.hist.retired[n];
      RetiredSteps(After(before), a, n);
      if n in After(before).core.hist.retired && After(before).core.hist.retired[n] == why {
        RetiredInRun(before, n);
      } else {
        RetiringInRun(before, a.w);
      }
      LetGoLater(acts, m, n, why);
    }
  }

  /** No cleanup of the run ended on anything but a lookup of its name, or on a delete backed by no more than a text. */
  predicate PlainCleanups(acts: seq<Action>) {
    forall i :: 0 <= i < |acts| && acts[i].Wrk? ==>
      && (acts[i].k.CleanupNotFound? ==> acts[i].k.miss.NameMissing?)
      && (acts[i].k.CleanupSucceeds? ==> !acts[i].k.why.TextOnly?)
  }

  /**
   * Then a name is let go only when a vApp of that name is gone, or when five minutes or more after the request
   * a lookup of that very name found nothing.
   */
  lemma NamesGoByTheirOwn(acts: seq<Action>, n: Id)
    requires IsRun(acts) && PlainCleanups(acts) && n in After(acts).core.hist.registered && n in After(acts).core.hist.retired
    ensures var c := After(acts).core;
            match c.hist.retired[n]
            case CleanedUp(href, _) => href in c.vcd.vapps && c.vcd.vapps[href] == n && href !in c.vcd.existing
            case NeverSeen(requestedAt, at, miss) =>
              && miss.NameMissing? && (n, at) in c.hist.unseen && requestedAt + SAFE_CALL_MAX_ELAPSED <= at
              && n in c.hist.requested && c.hist.requested[n] == requestedAt
    ensures LetGo(acts, n, After(acts).core.hist.retired[n])
  {
    RunsKeepInv(acts);
    assert NameOk(After(acts).core, n);
    RetiredInRun(acts, n);
    var i :| 0 <= i < |acts| && LetGoAt(acts, i, n, After(acts).core.hist.retired[n]);
    assert acts[i].Wrk?;
  }

  lemma OneCleanupPerName(acts: seq<Action>, v: nat, w: nat)
    requires IsRun(acts)
    requires var ws := After(acts).core.workers;
             v in ws && w in ws && ws[v].Cleaner? && ws[w].Cleaner? && ws[v].name == ws[w].name
    ensures v == w
  {
    RunsKeepInv(acts);
    assert WorkerOk(After(acts).core, v) && WorkerOk(After(acts).core, w);
  }

  // Workers and phases.

  /** The worker still owes the record of this intent its final update. */
  predicate Owes(w: Worker, k: Id) {
    (w.Creator? && w.intent == k && Pending(w.create)) || (w.Deleter? && w.key == k)
  }

  /** At most one worker owes an intent an update, and the phase says which kind it is. */
  lemma OneWorkerPerIntent(acts: seq<Action>, k: Id, v: nat, w: nat)
    requires IsRun(acts) && k in After(acts).core.hist.intents
    requires var ws := After(acts).core.workers; v in ws && w in ws && Owes(ws[v], k) && Owes(ws[w], k)
    ensures v == w
    ensures var c := After(acts).core;
            if c.workers[w].Creator? then k in c.store && c.store[k].phase == Creating
            else if k in c.store then c.store[k].phase == Deleting || c.store[k].phase == Deleted else k in c.hist.pruned
  {
    RunsKeepInv(acts);
    assert WorkerOk(After(acts).core, v) && WorkerOk(After(acts).core, w);
  }

  /** An intent that is being created or deleted has its worker. */
  lemma BusyIntentsHaveWorkers(acts: seq<Action>, k: Id)
    requires IsRun(acts)
    requires var c := After(acts).core; k in c.store && !c.store[k].leftover
    ensures var c := After(acts).core;
            && (c.store[k].phase == Creating <==> exists w :: w in c.workers && c.workers[w].Creator? && Owes(c.workers[w], k))
            && (c.store[k].phase == Deleting ==> exists w :: w in c.workers && c.workers[w].Deleter? && Owes(c.workers[w], k))
  {
    RunsKeepInv(acts);
    var c := After(acts).core;
    assert RecordOk(c, k);
    if c.store[k].phase == Creating || c.store[k].phase == Deleting {
      assert Owes(Server(c, k), k) && c.hist.dispatchedTo[k] in c.workers;
    }
    forall w | w in c.workers && c.workers[w].Creator? && Owes(c.workers[w], k)
      ensures c.store[k].phase == Creating
    {
      assert WorkerOk(c, w);
    }
  }

  /** Each step moves an intent along an edge of the phase graph, or prunes it as deleted. */
  lemma PhaseGraph(acts: seq<Action>, a: Action, k: Id)
    requires IsRun(acts) && Can(After(acts), a)
    requires var c := After(acts).core; k in c.store && !c.store[k].leftover
    ensures var s, t := After(acts), Do(After(acts), a);
            if k in t.core.store then Edge(s, a, k, s.core.store[k].phase, t.core.store[k].phase)
            else a == Dis(DoPrune) && s.core.store[k].phase == Deleted
  {
    RunsKeepInv(acts);
    StepEvolves(After(acts), a, k);
  }

  /** Instances have an HREF exactly from the moment they run. */
  lemma HrefsFollowPhases(acts: seq<Action>, k: Id)
    requires IsRun(acts)
    requires var c := After(acts).core; k in c.store && !c.store[k].leftover
    ensures var r := After(acts).core.store[k]; r.id == NO_ID <==> r.phase == PendingCreate || r.phase == Creating
  {
    RunsKeepInv(acts);
    assert RecordOk(After(acts).core, k);
  }

  lemma NeverCreatedBranchIsDead(acts: seq<Action>)
    requires IsRun(acts)
    ensures !CanDispatch(After(acts), NeverCreatedDelete)
  {
    RunsKeepInv(acts);
    NeverCreatedDeleteIsDead(After(acts));
  }

  // Startup hold.

  /** The action ends a complete poll at the hold check. */
  predicate EndsCompletePoll(s: State, a: Action) {
    a.Pol? && a.p.CheckHold? && s.rec.Holding? && s.rec.ok && |s.rec.p.answers| == |s.rec.p.listed| && Complete(s.rec.p)
  }

  /** The i-th action of the run ended a complete poll. */
  predicate CompletedPoll(acts: seq<Action>, i: nat) {
    i < |acts| && IsRun(acts[..i]) && EndsCompletePoll(After(acts[..i]), acts[i])
  }

  predicate PollCompleted(acts: seq<Action>) {
    exists i :: 0 <= i < |acts| && CompletedPoll(acts, i)
  }

  lemma PollStaysCompleted(acts: seq<Action>, n: nat)
    requires n <= |acts| && PollCompleted(acts[..n])
    ensures PollCompleted(acts)
  {
    var i :| 0 <= i < n && CompletedPoll(acts[..n], i);
    assert acts[..n][..i] == acts[..i];
    assert CompletedPoll(acts, i);
  }

  /** Only a complete poll starts the timeout of the hold. */
  lemma StartsTimeout(s: State, a: Action)
    requires Inv(s) && Can(s, a) && !s.hold.polled && Do(s, a).hold.polled
    ensures EndsCompletePoll(s, a)
  {
  }

  lemma {:induction false} PolledOnlyByCompletePoll(acts: seq<Action>)
    requires IsRun(acts) && After(acts).hold.polled
    ensures PollCompleted(acts)
    decreases |acts|
  {
    var n := |acts| - 1;
    if After(acts[..n]).hold.polled {
      PolledOnlyByCompletePoll(acts[..n]);
      PollStaysCompleted(acts, n);
    } else {
      RunsKeepInv(acts[..n]);
      StartsTimeout(After(acts[..n]), acts[n]);
      assert CompletedPoll(acts, n);
    }
  }

  lemma CreatesNeedPoll(s: State)
    requires Inv(s) && CanDispatch(s, DispatchCreate)
    ensures s.hold.polled
  {
  }

  /** No create is dispatched before a poll was complete. */
  lemma NoCreateBeforeCompletePoll(acts: seq<Action>)
    requires IsRun(acts) && CanDispatch(After(acts), DispatchCreate)
    ensures PollCompleted(acts)
  {
    RunsKeepInv(acts);
    CreatesNeedPoll(After(acts));
    PolledOnlyByCompletePoll(acts);
  }

  /**
   * While creates are held, whatever a complete poll listed is a leftover in the store or does not exist,
   * unless its read was misjudged.
   */
  lemma CompletePollTracksLeftovers(acts: seq<Action>, i: nat)
    requires IsRun(acts)
    requires var s := After(acts); s.hold.on && s.rec.Holding? && s.rec.ok && i < |s.rec.p.listed| == |s.rec.p.answers|
    ensures var s := After(acts);
            match FateOf(s.rec.p.answers, i)
            case Read => TrackedLeftover(s.core, s.rec.p.listed[i].href)
            case Gone => s.rec.p.listed[i].href !in s.core.vcd.existing
            case Misjudged => s.rec.p.answers[i] == Misled
            case Unread => false
  {
    RunsKeepInv(acts);
    var s := After(acts);
    var p := s.rec.p;
    var stop := FirstFailure(p.answers);
    assert PollOk(s.core, p);
    if FateOf(p.answers, i) == Read {
      FoundInHolds(p.listed[..stop], p.answers[..stop], p.listed[i]);
      assert p.listed[..stop][i] == p.listed[i] && p.answers[..stop][i] == Found;
      var j :| 0 <= j < |p.vApps| && p.vApps[j] == p.listed[i];
      assert TrackedLeftover(s.core, p.vApps[j].href);
    }
  }

  /** No leftover is left to delete. */
  predicate LeftoversDone(c: Core) {
    forall k :: k in c.store ==> !PendingLeftover(c.store[k])
  }

  lemma HoldCause(s: State, timeout: Time)
    requires Inv(s) && CanPoll(s, CheckHold(timeout)) && s.hold.on && !HoldAfter(s, s.rec.ok, timeout).on
    ensures var h := HoldAfter(s, s.rec.ok, timeout);
            && h.polled && (LeftoversDone(s.core) || s.now - h.startedAt >= timeout)
            && (if s.hold.polled then h.startedAt == s.hold.startedAt
                else EndsCompletePoll(s, Pol(CheckHold(timeout))) && h.startedAt == s.now)
  {
    forall k | k in s.core.store && PendingLeftover(s.core.store[k])
      ensures k in M.Matching(s.core.store, PendingLeftover)
    {
    }
  }

  /** The hold ends for a reason: no undeleted leftover is left, or the timeout has passed since the first complete poll. */
  lemma HoldEndsForCause(acts: seq<Action>, a: Action)
    requires IsRun(acts) && Can(After(acts), a)
    requires After(acts).hold.on && !Do(After(acts), a).hold.on
    ensures var s, t := After(acts), Do(After(acts), a);
            && a.Pol? && a.p.CheckHold? && t.hold.polled
            && (LeftoversDone(s.core) || s.now - t.hold.startedAt >= a.p.timeout)
            && (if s.hold.polled then t.hold.startedAt == s.hold.startedAt
                else EndsCompletePoll(s, a) && t.hold.startedAt == s.now)
  {
    RunsKeepInv(acts);
    OnlyTheCheckEndsHold(After(acts), a);
    HoldCause(After(acts), a.p.timeout);
  }

  lemma OnlyTheCheckEndsHold(s: State, a: Action)
    requires Can(s, a) && Do(s, a).hold != s.hold
    ensures a.Pol? && a.p.CheckHold? && Do(s, a).hold == HoldAfter(s, s.rec.ok, a.p.timeout)
  {
  }

  /** Once ended, the hold never returns; once a complete poll was seen, the start of the timeout stays. */
  lemma {:induction false} HoldNeverReturns(acts: seq<Action>, i: nat)
    requires IsRun(acts) && i <= |acts| && IsRun(acts[..i])
    ensures var s, t := After(acts[..i]), After(acts);
            && (!s.hold.on ==> !t.hold.on)
            && (s.hold.polled ==> t.hold.polled && t.hold.startedAt == s.hold.startedAt)
    decreases |acts|
  {
    if i == |acts| {
      assert acts[..i] == acts;
    } else {
      assert acts[..|acts| - 1][..i] == acts[..i];
      HoldNeverReturns(acts[..|acts| - 1], i);
    }
  }

  // Polls that were not misled.

  predicate HasPoll(rec: Reconciler) {
    || rec.Polling? || rec.CheckInflight? || rec.CheckFailed? || rec.Adopting? || rec.Refreshing? || rec.Sizing?
    || rec.Marking? || rec.Holding?
  }

  predicate NoMisledPolls(acts: seq<Action>) {
    forall i :: 0 <= i < |acts| && acts[i].Pol? && acts[i].p.List? ==> Misled !in acts[i].p.answers
  }

  lemma PollSteps(s: State, a: Action)
    requires Can(s, a) && HasPoll(Do(s, a).rec)
    ensures a == Pol(ListFails) || (a.Pol? && a.p.List?) || (HasPoll(s.rec) && Do(s, a).rec.p.answers == s.rec.p.answers)
    ensures a == Pol(ListFails) ==> Do(s, a).rec.p.answers == []
    ensures a.Pol? && a.p.List? ==> Do(s, a).rec.p.answers == a.p.answers
  {
  }

  /** A poll works with the answers that its own reads gave. */
  lemma {:induction false} PollsAreNotMisled(acts: seq<Action>)
    requires IsRun(acts) && NoMisledPolls(acts) && HasPoll(After(acts).rec)
    ensures Misled !in After(acts).rec.p.answers
    decreases |acts|
  {
    if acts != [] {
      var before, a := acts[..|acts| - 1], acts[|acts| - 1];
      PollSteps(After(before), a);
      if HasPoll(After(before).rec) {
        PollsAreNotMisled(before);
      }
    }
  }

  /** Where no read was misled, a complete poll under the hold tracks every listed vApp that exists. */
  lemma CompletePollTracksAll(acts: seq<Action>, i: nat)
    requires IsRun(acts) && NoMisledPolls(acts)
    requires var s := After(acts); s.hold.on && s.rec.Holding? && s.rec.ok && i < |s.rec.p.listed| == |s.rec.p.answers|
    requires var s := After(acts); s.rec.p.listed[i].href in s.core.vcd.existing
    ensures TrackedLeftover(After(acts).core, After(acts).rec.p.listed[i].href)
  {
    PollsAreNotMisled(acts);
    CompletePollTracksLeftovers(acts, i);
    assert After(acts).rec.p.answers[i] in After(acts).rec.p.answers;
  }

  // Names of records.

  lemma NewRecordsNameThemselves(s: State, a: Action, k: Id)
    requires Inv(s) && Can(s, a) && k !in s.core.store && k in Do(s, a).core.store
    ensures NamesItself(Do(s, a).core, Do(s, a).core.store[k])
  {
    NewRecordsAreFresh(s, a, k);
    if a == Pol(Adopt) {
      assert PollOk(s.core, s.rec.p);
    }
  }

  lemma VAppsStay(s: State, a: Action, r: Instance)
    requires Can(s, a) && NamesItself(s.core, r)
    ensures NamesItself(Do(s, a).core, r)
  {
    if a.Wrk? {
      WorkLeavesVApps(s.core, a.w, a.k, s.now);
    }
  }

  lemma WorkLeavesVApps(c: Core, w: nat, x: Work, now: Time)
    requires CanWork(c, w, x)
    ensures AfterWork(c, w, x, now).vcd.vapps == c.vcd.vapps
  {
  }

  /** A record with an HREF carries the name under which vCD knows that vApp. */
  lemma {:induction false} RecordsNameThemselves(acts: seq<Action>, k: Id)
    requires IsRun(acts) && k in After(acts).core.store
    ensures NamesItself(After(acts).core, After(acts).core.store[k])
    decreases |acts|
  {
    if acts != [] {
      var before, a := acts[..|acts| - 1], acts[|acts| - 1];
      var s := After(before);
      RunsKeepInv(before);
      if k in s.core.store {
        RecordsNameThemselves(before, k);
        StepEvolves(s, a, k);
        VAppsStay(s, a, Do(s, a).core.store[k]);
      } else {
        NewRecordsNameThemselves(s, a, k);
      }
    }
  }

  lemma HrefsAreReal(acts: seq<Action>)
    requires IsRun(acts)
    ensures NO_ID !in After(acts).core.vcd.vapps
  {
    RunsKeepInv(acts);
  }

  // Disappearance.

  lemma WorkAddsNothing(c: Core, w: nat, a: Work, now: Time)
    requires CanWork(c, w, a)
    ensures AfterWork(c, w, a, now).store.Keys <= c.store.Keys
  {
    if !a.Record? && !Settles(a) {
      WorkLeavesStore(c, w, a, now);
    }
  }

  lemma DispatchAddsNothing(s: State, d: Dispatched)
    requires CanDispatch(s, d)
    ensures DoDispatch(s, d).core.store.Keys <= s.core.store.Keys
  {
    if !d.DispatchCreate? && !d.DispatchDelete? && !d.DoPrune? && !d.MarkNext? && !d.NeverCreatedDelete? {
      DispatchLeavesStore(s, d);
    }
  }

  /** Records appear through Increase and through discovery only, and nothing has been missed by then. */
  lemma NewRecordsAreFresh(s: State, a: Action, k: Id)
    requires Can(s, a) && k !in s.core.store && k in Do(s, a).core.store
    ensures (a == Out(Increase(k)) && Do(s, a).core.store[k] == NewIntent(k, s.now))
         || (a == Pol(Adopt) && Do(s, a).core.store[k] == NewLeftover(k, Item(s.rec.p).name, s.now))
  {
    match a
    case Tick(_) =>
    case Out(_) =>
    case Pol(_) =>
    case Dis(d) => DispatchAddsNothing(s, d);
    case Wrk(w, x) => WorkAddsNothing(s.core, w, x, s.now);
  }

  /** Counted listings that left the record out since vCD data last refreshed it, or since it was added. */
  function Omissions(acts: seq<Action>, k: Id): nat
    requires IsRun(acts)
    decreases |acts|
  {
    if acts == [] then 0
    else
      var s, a := After(acts[..|acts| - 1]), acts[|acts| - 1];
      var before := Omissions(acts[..|acts| - 1], k);
      if k !in s.core.store then 0
      else if CountedMiss(s, a, s.core.store[k]) then before + 1
      else if Refreshes(s, a, s.core.store[k]) then 0
      else before
  }

  lemma {:induction false} MissedPollsAreOmissions(acts: seq<Action>, k: Id)
    requires IsRun(acts) && k in After(acts).core.store
    ensures After(acts).core.store[k].missedPolls == Omissions(acts, k)
    decreases |acts|
  {
    if acts != [] {
      var s, a := After(acts[..|acts| - 1]), acts[|acts| - 1];
      if k in s.core.store {
        RunsKeepInv(acts[..|acts| - 1]);
        MissedPollsAreOmissions(acts[..|acts| - 1], k);
        StepEvolves(s, a, k);
      } else {
        NewRecordsAreFresh(s, a, k);
      }
    }
  }

  /**
   * A record becomes Deleted only because three counted listings omitted it, or by a delete with evidence:
   * its vApp is gone, unless the evidence is no more than the text of a session error or a panic.
   */
  lemma DeletedOnlyWithEvidence(acts: seq<Action>, a: Action, k: Id)
    requires IsRun(acts) && Can(After(acts), a) && IsRun(acts + [a])
    requires k in After(acts).core.store && k in Do(After(acts), a).core.store
    requires After(acts).core.store[k].phase != Deleted && Do(After(acts), a).core.store[k].phase == Deleted
    ensures (a == Pol(Mark) && Omissions(acts + [a], k) >= 3) || EndsDelete(After(acts), a, k, After(acts).core.store[k].id)
  {
    RunsKeepInv(acts);
    StepEvolves(After(acts), a, k);
    assert (acts + [a])[..|acts|] == acts;
    MissedPollsAreOmissions(acts + [a], k);
  }

  /** The history says why the record is Deleted, and what it says holds. */
  predicate Reasoned(c: Core, k: Id)
    requires k in c.store
  {
    k in c.hist.reasons &&
    match c.hist.reasons[k]
    case Omitted => true
    case Deletion(why) => Sound(c, c.store[k].id, why)
  }

  lemma OutsideReasoned(s: State, o: Outside, k: Id)
    requires Inv(s) && CanOutside(s.core, o) && k in s.core.store && s.core.store[k].phase == Deleted && Reasoned(s.core, k)
    requires k in Do(s, Out(o)).core.store && Do(s, Out(o)).core.store[k].id == s.core.store[k].id
    ensures Reasoned(Do(s, Out(o)).core, k)
  {
    assert RecordOk(s.core, k);
  }

  lemma MarkReasoned(s: State, k: Id)
    requires Inv(s) && CanPoll(s, Mark) && k in s.core.store && Do(s, Pol(Mark)).core.store[k].phase == Deleted
    requires s.core.store[k].phase == Deleted ==> Reasoned(s.core, k)
    ensures Reasoned(Do(s, Pol(Mark)).core, k)
  {
    MarkSets(s, k);
  }

  lemma WorkReasoned(s: State, w: nat, x: Work, k: Id)
    requires Inv(s) && CanWork(s.core, w, x) && k in s.core.store && s.core.store[k].phase == Deleted && Reasoned(s.core, k)
    requires !x.FinishDeleted? || s.core.workers[w].key != k
    requires k in Do(s, Wrk(w, x)).core.store && Do(s, Wrk(w, x)).core.store[k].id == s.core.store[k].id
    ensures Reasoned(Do(s, Wrk(w, x)).core, k)
  {
    WorkOnlyErases(s.core, w, x, s.now);
  }

  /** Workers remove vApps and never bring one back, and only the end of a delete gives a reason. */
  lemma WorkOnlyErases(c: Core, w: nat, x: Work, now: Time)
    requires CanWork(c, w, x)
    ensures var d := AfterWork(c, w, x, now);
            && d.vcd.existing <= c.vcd.existing
            && d.hist.reasons == if x.FinishDeleted? then c.hist.reasons[c.workers[w].key := Deletion(c.workers[w].delete.why)]
                                 else c.hist.reasons
  {
  }

  lemma FinishReasoned(s: State, w: nat, k: Id)
    requires Inv(s) && CanWork(s.core, w, FinishDeleted) && k in s.core.store && s.core.workers[w].key == k
    requires k in Do(s, Wrk(w, FinishDeleted)).core.store
    ensures Reasoned(Do(s, Wrk(w, FinishDeleted)).core, k)
  {
    assert WorkerOk(s.core, w) && RecordOk(s.core, k);
    SettleSetsFinal(s, w, FinishDeleted, k);
    WorkOnlyErases(s.core, w, FinishDeleted, s.now);
  }

  lemma PollLeavesReasons(s: State, p: Polled)
    requires CanPoll(s, p)
    ensures var c := DoPoll(s, p).core;
            && c.vcd == s.core.vcd && c.workers == s.core.workers && c.hist.retired == s.core.hist.retired
            && (!p.Mark? ==> c.hist.reasons == s.core.hist.reasons)
  {
  }

  lemma DispatchLeavesReasons(s: State, d: Dispatched)
    requires CanDispatch(s, d)
    ensures var c := DoDispatch(s, d).core;
            c.vcd == s.core.vcd && c.hist.reasons == s.core.hist.reasons && c.hist.retired == s.core.hist.retired
  {
  }

  lemma LoopLeavesReasons(s: State, a: Action)
    requires Can(s, a) && (a.Tick? || a.Dis? || (a.Pol? && !a.p.Mark?))
    ensures Do(s, a).core.hist.reasons == s.core.hist.reasons && Do(s, a).core.vcd == s.core.vcd
  {
    match a
    case Pol(p) => PollLeavesReasons(s, p);
    case Dis(d) => DispatchLeavesReasons(s, d);
    case Tick(_) =>
  }

  lemma QuietReasoned(s: State, a: Action, k: Id)
    requires Inv(s) && Can(s, a) && k in s.core.store && s.core.store[k].phase == Deleted && Reasoned(s.core, k)
    requires a != Pol(Mark) && !(a.Wrk? && a.k.FinishDeleted? && s.core.workers[a.w].key == k)
    requires k in Do(s, a).core.store && Do(s, a).core.store[k].id == s.core.store[k].id
    ensures Reasoned(Do(s, a).core, k)
  {
    match a
    case Out(o) => OutsideReasoned(s, o, k);
    case Wrk(w, x) => WorkReasoned(s, w, x, k);
    case _ => LoopLeavesReasons(s, a);
  }

  /** A Deleted record has its HREF, so it keeps it. */
  lemma DeletedKeepsHref(s: State, a: Action, k: Id)
    requires Inv(s) && Can(s, a) && k in s.core.store && k in Do(s, a).core.store && Do(s, a).core.store[k].phase == Deleted
    requires a != Pol(Mark) && !(a.Wrk? && a.k.FinishDeleted? && s.core.workers[a.w].key == k)
    ensures s.core.store[k].phase == Deleted && Do(s, a).core.store[k].id == s.core.store[k].id
  {
    StepEvolves(s, a, k);
    assert RecordOk(s.core, k);
  }

  lemma StepReasoned(s: State, a: Action, k: Id)
    requires Inv(s) && Can(s, a) && k in s.core.store && k in Do(s, a).core.store && Do(s, a).core.store[k].phase == Deleted
    requires s.core.store[k].phase == Deleted ==> Reasoned(s.core, k)
    ensures Reasoned(Do(s, a).core, k)
  {
    if a == Pol(Mark) {
      MarkReasoned(s, k);
    } else if a.Wrk? && a.k.FinishDeleted? && s.core.workers[a.w].key == k {
      FinishReasoned(s, a.w, k);
    } else {
      DeletedKeepsHref(s, a, k);
      QuietReasoned(s, a, k);
    }
  }

  /** In every reachable state each Deleted record has its reason, and the reason holds. */
  lemma {:induction false} DeletedHasReason(acts: seq<Action>, k: Id)
    requires IsRun(acts) && k in After(acts).core.store && After(acts).core.store[k].phase == Deleted
    ensures Reasoned(After(acts).core, k)
    decreases |acts|
  {
    if acts != [] {
      var before := acts[..|acts| - 1];
      var s, a := After(before), acts[|acts| - 1];
      RunsKeepInv(before);
      if k in s.core.store {
        if s.core.store[k].phase == Deleted {
          DeletedHasReason(before, k);
        }
        StepReasoned(s, a, k);
      } else {
        NewRecordsAreFresh(s, a, k);
      }
    }
  }

  predicate ConfirmedAt(c: Core, w: nat) {
    w in c.workers && c.workers[w].Deleter? && c.workers[w].delete.Confirmed?
  }

  lemma DispatchConfirmsNothing(s: State, d: Dispatched, w: nat)
    requires CanDispatch(s, d) && ConfirmedAt(DoDispatch(s, d).core, w)
    ensures w in s.core.workers && s.core.workers[w] == DoDispatch(s, d).core.workers[w]
  {
  }

  lemma WorkConfirms(c: Core, v: nat, x: Work, now: Time, w: nat)
    requires CanWork(c, v, x) && ConfirmedAt(AfterWork(c, v, x, now), w)
    ensures var why := AfterWork(c, v, x, now).workers[w].delete.why;
            (v == w && x == DeleteSucceeds(why)) || (w in c.workers && c.workers[w] == AfterWork(c, v, x, now).workers[w])
  {
  }

  lemma ConfirmationsAreSteps(s: State, a: Action, w: nat)
    requires Can(s, a) && ConfirmedAt(Do(s, a).core, w)
    ensures a == Wrk(w, DeleteSucceeds(Do(s, a).core.workers[w].delete.why))
         || (w in s.core.workers && s.core.workers[w] == Do(s, a).core.workers[w])
  {
    match a
    case Tick(_) =>
    case Out(_) =>
    case Pol(p) => PollLeavesReasons(s, p);
    case Dis(d) => DispatchConfirmsNothing(s, d, w);
    case Wrk(v, x) => WorkConfirms(s.core, v, x, s.now, w);
  }

  /** A delete is confirmed by a step of its own worker. */
  lemma {:induction false} ConfirmedInRun(acts: seq<Action>, w: nat)
    requires IsRun(acts) && ConfirmedAt(After(acts).core, w)
    ensures Wrk(w, DeleteSucceeds(After(acts).core.workers[w].delete.why)) in acts
    decreases |acts|
  {
    if acts != [] {
      var before, a := acts[..|acts| - 1], acts[|acts| - 1];
      ConfirmationsAreSteps(After(before), a, w);
      if a != Wrk(w, DeleteSucceeds(After(acts).core.workers[w].delete.why)) {
        ConfirmedInRun(before, w);
      }
    }
  }

  lemma ReasonsAreSteps(s: State, a: Action, k: Id)
    requires Can(s, a) && k in Do(s, a).core.hist.reasons && Do(s, a).core.hist.reasons[k].Deletion?
    ensures (k in s.core.hist.reasons && s.core.hist.reasons[k] == Do(s, a).core.hist.reasons[k])
         || (a.Wrk? && a.k.FinishDeleted? && s.core.workers[a.w].delete.why == Do(s, a).core.hist.reasons[k].why)
  {
    match a
    case Wrk(w, x) => WorkOnlyErases(s.core, w, x, s.now);
    case Out(o) =>
    case Pol(p) =>
      if !p.Mark? {
        LoopLeavesReasons(s, a);
      }
    case _ => LoopLeavesReasons(s, a);
  }

  /** Some delete of the run was confirmed with this evidence. */
  predicate ConfirmedWith(acts: seq<Action>, why: D.Evidence) {
    exists i :: 0 <= i < |acts| && acts[i].Wrk? && acts[i].k == DeleteSucceeds(why)
  }

  lemma ConfirmedLater(acts: seq<Action>, n: nat, why: D.Evidence)
    requires n <= |acts| && ConfirmedWith(acts[..n], why)
    ensures ConfirmedWith(acts, why)
  {
    var i :| 0 <= i < n && acts[..n][i].Wrk? && acts[..n][i].k == DeleteSucceeds(why);
    assert acts[i] == acts[..n][i];
  }

  lemma {:induction false} ReasonsComeFromDeletes(acts: seq<Action>, k: Id)
    requires IsRun(acts) && k in After(acts).core.hist.reasons && After(acts).core.hist.reasons[k].Deletion?
    ensures ConfirmedWith(acts, After(acts).core.hist.reasons[k].why)
    decreases |acts|
  {
    if acts != [] {
      var n, before, a := |acts| - 1, acts[..|acts| - 1], acts[|acts| - 1];
      var why := After(acts).core.hist.reasons[k].why;
      ReasonsAreSteps(After(before), a, k);
      if k in After(before).core.hist.reasons && After(before).core.hist.reasons[k] == After(acts).core.hist.reasons[k] {
        ReasonsComeFromDeletes(before, k);
      } else {
        ConfirmedInRun(before, a.w);
        var step := Wrk(a.w, DeleteSucceeds(why));
        var i :| 0 <= i < |before| && before[i] == step;
        assert ConfirmedWith(before, why);
      }
      ConfirmedLater(acts, n, why);
    }
  }

  /** A listed vApp is never counted as missed unless its read said that it is gone, or was misled. */
  lemma ListedIsNotMissed(acts: seq<Action>, i: nat, k: Id)
    requires IsRun(acts) && k in After(acts).core.store
    requires var s := After(acts); s.rec.Marking? && i < |s.rec.p.listed| == |s.rec.p.answers|
    requires var s := After(acts); s.core.store[k].id == s.rec.p.listed[i].href && FateOf(s.rec.p.answers, i) != Gone
    requires FateOf(After(acts).rec.p.answers, i) != Misjudged
    ensures !CountedMiss(After(acts), Pol(Mark), After(acts).core.store[k])
  {
    KnownUnlessGone(After(acts).rec.p.listed, After(acts).rec.p.answers, i);
  }

  /** The i-th action of the run counted a miss of this record. */
  predicate MissAt(acts: seq<Action>, i: nat, k: Id) {
    && i < |acts| && IsRun(acts[..i]) && k in After(acts[..i]).core.store
    && CountedMiss(After(acts[..i]), acts[i], After(acts[..i]).core.store[k])
  }

  /** The listing at hand leaves this vApp out, or the vApp does not exist. */
  predicate LeftOut(s: State, href: Id) {
    s.rec.Marking? && (href in s.core.vcd.existing ==> forall i :: 0 <= i < |s.rec.p.listed| ==> s.rec.p.listed[i].href != href)
  }

  lemma MissedIsLeftOut(s: State, r: Instance)
    requires Inv(s) && CountedMiss(s, Pol(Mark), r) && Misled !in s.rec.p.answers
    ensures LeftOut(s, r.id)
  {
    var p := s.rec.p;
    assert PollOk(s.core, p);
    forall i | 0 <= i < |p.listed| && p.listed[i].href == r.id
      ensures r.id !in s.core.vcd.existing
    {
      assert p.answers[i] in p.answers && p.answers[i] != OtherFailure;
      assert p.answers[i] == NotFound;
    }
  }

  predicate RealMiss(acts: seq<Action>, i: nat, k: Id)
    requires MissAt(acts, i, k)
  {
    LeftOut(After(acts[..i]), After(acts[..i]).core.store[k].id)
  }

  /** Each counted miss of the record is one: the listing left its vApp out, or the vApp did not exist. */
  predicate MissesAreReal(acts: seq<Action>, k: Id) {
    forall i: nat :: i < |acts| && MissAt(acts, i, k) ==> RealMiss(acts, i, k)
  }

  lemma CountedMissesAreReal(acts: seq<Action>, k: Id)
    requires IsRun(acts) && NoMisledPolls(acts)
    ensures MissesAreReal(acts, k)
  {
    forall i: nat | i < |acts| && MissAt(acts, i, k)
      ensures RealMiss(acts, i, k)
    {
      CountedMissIsReal(acts, i, k);
    }
  }

  lemma CountedMissIsReal(acts: seq<Action>, i: nat, k: Id)
    requires NoMisledPolls(acts) && MissAt(acts, i, k)
    ensures RealMiss(acts, i, k)
  {
    RunsKeepInv(acts[..i]);
    PollsAreNotMisled(acts[..i]);
    MissedIsLeftOut(After(acts[..i]), After(acts[..i]).core.store[k]);
  }

  /** The i-th action of the run counted the third miss of this record, or a later one. */
  predicate ThriceMissedAt(acts: seq<Action>, i: nat, k: Id) {
    MissAt(acts, i, k) && IsRun(acts[..i + 1]) && Omissions(acts[..i + 1], k) >= 3
  }

  predicate ThriceMissed(acts: seq<Action>, k: Id) {
    exists i :: 0 <= i < |acts| && ThriceMissedAt(acts, i, k)
  }

  lemma ThriceMissedLater(acts: seq<Action>, n: nat, k: Id)
    requires n <= |acts| && ThriceMissed(acts[..n], k)
    ensures ThriceMissed(acts, k)
  {
    var i :| 0 <= i < n && ThriceMissedAt(acts[..n], i, k);
    ThriceMissedAtLater(acts, n, i, k);
  }

  lemma ThriceMissedAtLater(acts: seq<Action>, n: nat, i: nat, k: Id)
    requires i < n <= |acts| && ThriceMissedAt(acts[..n], i, k)
    ensures ThriceMissedAt(acts, i, k)
  {
    assert acts[..n][..i] == acts[..i] && acts[..n][..i + 1] == acts[..i + 1] && acts[..n][i] == acts[i];
  }

  predicate IsOmitted(c: Core, k: Id) {
    k in c.hist.reasons && c.hist.reasons[k] == Omitted
  }

  lemma OmissionsAreSteps(s: State, a: Action, k: Id)
    requires Inv(s) && Can(s, a) && IsOmitted(Do(s, a).core, k)
    ensures IsOmitted(s.core, k)
         || (a == Pol(Mark) && k in s.core.store && s.core.store[k].phase != Deleted
             && k in Do(s, a).core.store && Do(s, a).core.store[k].phase == Deleted)
  {
    match a
    case Wrk(w, x) => WorkOnlyErases(s.core, w, x, s.now);
    case Out(o) =>
    case Pol(p) =>
      if !p.Mark? {
        LoopLeavesReasons(s, a);
      }
    case _ => LoopLeavesReasons(s, a);
  }

  lemma ThirdMiss(acts: seq<Action>, a: Action, k: Id)
    requires IsRun(acts) && IsRun(acts + [a]) && a == Pol(Mark) && Can(After(acts), a)
    requires k in After(acts).core.store && After(acts).core.store[k].phase != Deleted
    requires k in Do(After(acts), a).core.store && Do(After(acts), a).core.store[k].phase == Deleted
    ensures ThriceMissed(acts + [a], k)
  {
    var n := |acts|;
    assert (acts + [a])[..n] == acts && (acts + [a])[..n + 1] == acts + [a];
    RunsKeepInv(acts);
    StepEvolves(After(acts), a, k);
    DeletedOnlyWithEvidence(acts, a, k);
    assert ThriceMissedAt(acts + [a], n, k);
  }

  lemma OmittedNext(acts: seq<Action>, a: Action, k: Id)
    requires IsRun(acts) && IsRun(acts + [a]) && Can(After(acts), a) && IsOmitted(Do(After(acts), a).core, k)
    ensures IsOmitted(After(acts).core, k) || ThriceMissed(acts + [a], k)
  {
    RunsKeepInv(acts);
    OmissionsAreSteps(After(acts), a, k);
    if !IsOmitted(After(acts).core, k) {
      ThirdMiss(acts, a, k);
    }
  }

  /** A record is remembered as omitted only after a third counted miss. */
  lemma {:induction false} OmittedInRun(acts: seq<Action>, k: Id)
    requires IsRun(acts) && IsOmitted(After(acts).core, k)
    ensures ThriceMissed(acts, k)
    decreases |acts|
  {
    if acts != [] {
      var n, before, a := |acts| - 1, acts[..|acts| - 1], acts[|acts| - 1];
      assert before + [a] == acts;
      OmittedNext(before, a, k);
      if IsOmitted(After(before).core, k) {
        OmittedInRun(before, k);
        ThriceMissedLater(acts, n, k);
      }
    }
  }

  /**
   * Where no delete of the run was confirmed by an error text alone, every Deleted record was missed three
   * times or its vApp is gone; where no read of a poll was misled either, each of those misses is real.
   */
  lemma DeletedMeansGone(acts: seq<Action>, k: Id)
    requires IsRun(acts) && k in After(acts).core.store && After(acts).core.store[k].phase == Deleted
    requires forall e :: !ConfirmedWith(acts, D.TextOnly(e))
    ensures ThriceMissed(acts, k) || After(acts).core.store[k].id !in After(acts).core.vcd.existing
    ensures NoMisledPolls(acts) ==> MissesAreReal(acts, k)
  {
    DeletedHasReason(acts, k);
    if After(acts).core.hist.reasons[k].Deletion? {
      ReasonsComeFromDeletes(acts, k);
    } else {
      OmittedInRun(acts, k);
    }
    if NoMisledPolls(acts) {
      CountedMissesAreReal(acts, k);
    }
  }

  /** A poll that reports success left nothing unread. */
  lemma SuccessfulPollReadEverything(acts: seq<Action>, i: nat)
    requires IsRun(acts)
    requires var s := After(acts); s.rec.Holding? && s.rec.ok && i < |s.rec.p.listed| == |s.rec.p.answers|
    ensures FateOf(After(acts).rec.p.answers, i) != Unread
  {
    RunsKeepInv(acts);
  }
}
