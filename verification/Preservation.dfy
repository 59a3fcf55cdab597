/** Every action keeps the invariant, so every reachable state has it. */
module Preservation {
  import opened Basics
  import opened Lifecycle
  import opened Listing
  import opened Protocol
  import opened Invariant
  import VcdCleanup
  import M = StoreModel

  // Updates of the store.

  /** No two records share an HREF: leftovers sit under theirs, and intents hold the one recorded for them. */
  lemma HrefsAreUnique(c: Core)
    requires CoreInv(c)
    ensures M.UniqueHREFs(c.store) && M.KeysOwned(c.store)
  {
    forall j, k | j in c.store && k in c.store && c.store[j].id != NO_ID && c.store[j].id == c.store[k].id
      ensures j == k
    {
      assert RecordOk(c, j) && RecordOk(c, k);
    }
  }

  /** An update that keeps the HREF touches one record and removes none. */
  lemma UpdateSetsOne(c: Core, k: Id, f: Instance -> Instance, now: Time)
    requires CoreInv(c) && k in c.store && f(c.store[k]).id == c.store[k].id
    ensures M.UpdateInstance(c.store, k, f, now) == c.store[k := f(c.store[k]).(lastUpdated := Some(now))]
  {
    HrefsAreUnique(c);
  }

  // Mild changes: records stay, and so do their ids; phases move only towards deletion.

  predicate MildRecord(r: Instance, r': Instance) {
    && r'.id == r.id && r'.intentID == r.intentID && r'.leftover == r.leftover
    && (r'.phase == r.phase
        || (r.phase == Running && r'.phase == PendingDelete)
        || (r.phase != PendingCreate && r.phase != Creating && r'.phase == Deleted))
  }

  predicate Mild(st: M.Records, st': M.Records, lost: set<Id>) {
    && st'.Keys == st.Keys
    && forall k :: k in st ==> MildRecord(st[k], st'[k]) && (st[k].phase == Deleting && st'[k].phase == Deleted ==> k in lost)
  }

  function Replaced(c: Core, st: M.Records, lost: set<Id>): Core {
    c.(store := st, hist := c.hist.(lost := c.hist.lost + lost))
  }

  lemma MildKeepsRecords(c: Core, st: M.Records, lost: set<Id>)
    requires CoreInv(c) && Mild(c.store, st, lost)
    ensures Records(Replaced(c, st, lost)) && DomainsOk(Replaced(c, st, lost))
  {
    forall k | k in st
      ensures RecordOk(Replaced(c, st, lost), k)
    {
      assert RecordOk(c, k);
    }
  }

  lemma MildKeepsWorkers(c: Core, st: M.Records, lost: set<Id>)
    requires CoreInv(c) && Mild(c.store, st, lost)
    ensures Workers(Replaced(c, st, lost))
  {
    forall w | w in c.workers
      ensures WorkerOk(Replaced(c, st, lost), w)
    {
      assert WorkerOk(c, w);
    }
  }

  lemma MildKeepsNames(c: Core, st: M.Records, lost: set<Id>)
    requires CoreInv(c) && Mild(c.store, st, lost)
    ensures NamesOk(Replaced(c, st, lost))
  {
  }

  lemma MildKeeps(c: Core, st: M.Records, lost: set<Id>)
    requires CoreInv(c) && Mild(c.store, st, lost)
    ensures CoreInv(Replaced(c, st, lost))
  {
    MildKeepsRecords(c, st, lost);
    MildKeepsWorkers(c, st, lost);
    MildKeepsNames(c, st, lost);
  }

  /** The dispatch lists of the reconcile goroutine survive mild changes made by callers. */
  lemma MildKeepsPc(c: Core, st: M.Records, rec: Reconciler, held: bool)
    requires PcOk(c, rec, held) && Mild(c.store, st, {})
    requires forall k :: k in st ==> st[k].phase == c.store[k].phase || c.store[k].phase == Running
    ensures PcOk(c.(store := st), rec, held)
  {
  }

  lemma MildKeepsHold(c: Core, st: M.Records, lost: set<Id>, rec: Reconciler, hold: Hold)
    requires HoldOk(c, rec, hold) && Mild(c.store, st, lost)
    ensures HoldOk(Replaced(c, st, lost), rec, hold)
  {
  }

  // Callers and vCD.

  lemma IncreaseKeepsRecords(c: Core, id: Id, now: Time)
    requires CoreInv(c) && CanOutside(c, Increase(id))
    ensures var d := AfterOutside(c, Increase(id), now); DomainsOk(d) && Records(d) && NamesOk(d)
  {
    var d := AfterOutside(c, Increase(id), now);
    forall k | k in d.store
      ensures RecordOk(d, k)
    {
      if k != id {
        assert RecordOk(c, k);
      }
    }
    forall n | n in d.hist.registered
      ensures NameOk(d, n)
    {
      assert NameOk(c, n);
    }
  }

  lemma IncreaseKeepsWorkers(c: Core, id: Id, now: Time)
    requires CoreInv(c) && CanOutside(c, Increase(id))
    ensures Workers(AfterOutside(c, Increase(id), now))
  {
    var d := AfterOutside(c, Increase(id), now);
    forall v | v in d.workers
      ensures WorkerOk(d, v)
    {
      assert WorkerOk(c, v);
    }
  }

  lemma IncreaseKeepsPc(s: State, id: Id)
    requires Inv(s) && CanOutside(s.core, Increase(id))
    ensures PcOk(AfterOutside(s.core, Increase(id), s.now), s.rec, s.hold.on)
  {
  }

  lemma IncreaseKeepsHold(s: State, id: Id)
    requires Inv(s) && CanOutside(s.core, Increase(id))
    ensures HoldOk(AfterOutside(s.core, Increase(id), s.now), s.rec, s.hold)
  {
  }

  lemma IncreaseKeepsFlow(s: State, id: Id)
    requires Inv(s) && CanOutside(s.core, Increase(id))
    ensures FlowOk(AfterOutside(s.core, Increase(id), s.now), s.rec, s.hold)
  {
    IncreaseKeepsPc(s, id);
    IncreaseKeepsHold(s, id);
  }

  lemma DecreaseIsMild(st: M.Records, id: Id, now: Time)
    ensures var st' := M.MarkForDeletion(st, id, now);
            Mild(st, st', {}) && forall k :: k in st ==> st'[k].phase == st[k].phase || st[k].phase == Running
  {
  }

  lemma DecreaseKeeps(s: State, id: Id)
    requires Inv(s)
    ensures var c := AfterOutside(s.core, Decrease(id), s.now); CoreInv(c) && FlowOk(c, s.rec, s.hold)
  {
    var st := M.MarkForDeletion(s.core.store, id, s.now);
    DecreaseIsMild(s.core.store, id, s.now);
    MildKeeps(s.core, st, {});
    MildKeepsPc(s.core, st, s.rec, s.hold.on);
    MildKeepsHold(s.core, st, {}, s.rec, s.hold);
    assert Replaced(s.core, st, {}) == s.core.(store := st);
  }

  lemma AddVAppKeepsRecords(c: Core, href: Id, name: Id)
    requires CoreInv(c) && FreshHref(c, href)
    ensures DomainsOk(AddVApp(c, href, name)) && Records(AddVApp(c, href, name)) && NamesOk(AddVApp(c, href, name))
  {
    var d := AddVApp(c, href, name);
    forall k | k in d.store
      ensures RecordOk(d, k)
    {
      assert RecordOk(c, k);
    }
    forall n | n in d.hist.registered
      ensures NameOk(d, n)
    {
      assert NameOk(c, n);
    }
  }

  lemma AddVAppKeepsWorkers(c: Core, href: Id, name: Id)
    requires CoreInv(c) && FreshHref(c, href)
    ensures Workers(AddVApp(c, href, name))
  {
    var d := AddVApp(c, href, name);
    forall v | v in d.workers
      ensures WorkerOk(d, v)
    {
      assert WorkerOk(c, v);
    }
  }

  lemma AddVAppKeepsFlow(s: State, href: Id, name: Id)
    requires Inv(s) && FreshHref(s.core, href)
    ensures FlowOk(AddVApp(s.core, href, name), s.rec, s.hold)
  {
  }

  lemma GoneKeeps(c: Core, href: Id)
    requires CoreInv(c)
    ensures CoreInv(Removed(c, href))
  {
    var d := Removed(c, href);
    forall k | k in d.store
      ensures RecordOk(d, k)
    {
      assert RecordOk(c, k);
    }
    forall v | v in d.workers
      ensures WorkerOk(d, v)
    {
      assert WorkerOk(c, v);
    }
    forall n | n in d.hist.registered
      ensures NameOk(d, n)
    {
      assert NameOk(c, n);
    }
  }

  lemma GoneKeepsFlow(s: State, href: Id)
    requires Inv(s)
    ensures FlowOk(Removed(s.core, href), s.rec, s.hold)
  {
  }

  lemma UnseenKeeps(c: Core, name: Id, miss: VcdCleanup.Miss, now: Time)
    requires CoreInv(c)
    ensures CoreInv(Unseen(c, name, miss, now))
  {
    var d := Unseen(c, name, miss, now);
    forall k | k in d.store
      ensures RecordOk(d, k)
    {
      assert RecordOk(c, k);
    }
    forall w | w in d.workers
      ensures WorkerOk(d, w)
    {
      assert WorkerOk(c, w);
    }
    forall n | n in d.hist.registered
      ensures NameOk(d, n)
    {
      assert NameOk(c, n);
    }
  }

  lemma UnseenKeepsFlow(s: State, name: Id, miss: VcdCleanup.Miss)
    requires Inv(s)
    ensures FlowOk(Unseen(s.core, name, miss, s.now), s.rec, s.hold)
  {
  }

  function WithReasons(c: Core, reasons: map<Id, Reason>): Core {
    c.(hist := c.hist.(reasons := reasons))
  }

  /** The reasons why records are deleted are only remembered. */
  lemma ReasonsKeep(c: Core, reasons: map<Id, Reason>)
    requires CoreInv(c)
    ensures CoreInv(WithReasons(c, reasons))
  {
    var d := WithReasons(c, reasons);
    forall k | k in d.store
      ensures RecordOk(d, k)
    {
      assert RecordOk(c, k);
    }
    forall w | w in d.workers
      ensures WorkerOk(d, w)
    {
      assert WorkerOk(c, w);
    }
    forall n | n in d.hist.registered
      ensures NameOk(d, n)
    {
      assert NameOk(c, n);
    }
  }

  lemma ReasonsKeepFlow(c: Core, reasons: map<Id, Reason>, rec: Reconciler, hold: Hold)
    requires FlowOk(c, rec, hold)
    ensures FlowOk(WithReasons(c, reasons), rec, hold)
  {
  }

  lemma OutsideKeeps(s: State, a: Outside)
    requires Inv(s) && CanOutside(s.core, a)
    ensures var c := AfterOutside(s.core, a, s.now); CoreInv(c) && FlowOk(c, s.rec, s.hold)
  {
    match a
    case Increase(id) => IncreaseKeepsRecords(s.core, id, s.now); IncreaseKeepsWorkers(s.core, id, s.now); IncreaseKeepsFlow(s, id);
    case Decrease(id) => DecreaseKeeps(s, id);
    case Commit(name, href) =>
      AddVAppKeepsRecords(s.core, href, name); AddVAppKeepsWorkers(s.core, href, name); AddVAppKeepsFlow(s, href, name);
    case Foreign(href, name) =>
      AddVAppKeepsRecords(s.core, href, name); AddVAppKeepsWorkers(s.core, href, name); AddVAppKeepsFlow(s, href, name);
    case Vanish(href) => GoneKeeps(s.core, href); GoneKeepsFlow(s, href);
  }

  // The poll.

  lemma ListKeeps(s: State, listed: seq<Listed>, answers: seq<Answer>)
    requires Inv(s) && CanPoll(s, List(listed, answers))
    ensures Inv(DoPoll(s, List(listed, answers)))
  {
    var stop := FirstFailure(answers);
    var vApps := FoundIn(listed[..stop], answers[..stop]);
    forall i | 0 <= i < |vApps|
      ensures vApps[i].href in s.core.vcd.vapps && s.core.vcd.vapps[vApps[i].href] == vApps[i].name
    {
      FoundInHolds(listed[..stop], answers[..stop], vApps[i]);
    }
  }

  /** A tracked vApp is a leftover while creates are held: no intent has an HREF then. */
  lemma LookupKeeps(s: State)
    requires Inv(s) && CanPoll(s, Lookup)
    ensures Inv(DoPoll(s, Lookup))
  {
    var href := Item(s.rec.p).href;
    if s.hold.on && M.Holders(s.core.store, href) != {} {
      var k :| k in M.Holders(s.core.store, href);
      assert RecordOk(s.core, k);
    }
  }

  /** A vApp recorded under an intent in the store is found by its HREF. */
  lemma RecordedIsTracked(c: Core, n: Id, href: Id)
    requires CoreInv(c)
    ensures n in c.hist.recorded && c.hist.recorded[n].1 == href && c.hist.recorded[n].0 in c.store ==>
              M.Tracked(c.store, href)
  {
    if n in c.hist.recorded && c.hist.recorded[n].1 == href && c.hist.recorded[n].0 in c.store {
      assert NameOk(c, n);
      assert c.hist.recorded[n].0 in M.Holders(c.store, href);
    }
  }

  lemma AdoptKeepsRecords(s: State)
    requires Inv(s) && CanPoll(s, Adopt)
    ensures DomainsOk(DoPoll(s, Adopt).core) && Records(DoPoll(s, Adopt).core)
  {
    var c, v := s.core, Item(s.rec.p);
    var d := Adopted(c, v, s.now);
    RecordedIsTracked(c, v.name, v.href);
    if !M.Tracked(c.store, v.href) {
      forall k | k in d.store
        ensures RecordOk(d, k)
      {
        if k != v.href {
          assert RecordOk(c, k);
        }
      }
    }
  }

  lemma AdoptKeepsWorkers(s: State)
    requires Inv(s) && CanPoll(s, Adopt)
    ensures Workers(DoPoll(s, Adopt).core) && NamesOk(DoPoll(s, Adopt).core)
  {
    var c, d := s.core, DoPoll(s, Adopt).core;
    forall v | v in d.workers
      ensures WorkerOk(d, v)
    {
      assert WorkerOk(c, v);
    }
    forall n | n in d.hist.registered
      ensures NameOk(d, n)
    {
      assert NameOk(c, n);
    }
  }

  lemma AdoptKeepsHold(s: State)
    requires Inv(s) && CanPoll(s, Adopt)
    ensures var t := DoPoll(s, Adopt); HoldOk(t.core, t.rec, t.hold)
  {
    var href := Item(s.rec.p).href;
    if s.hold.on && M.Tracked(s.core.store, href) {
      var k :| k in M.Holders(s.core.store, href);
      assert RecordOk(s.core, k);
    }
  }

  lemma AdoptKeepsFlow(s: State)
    requires Inv(s) && CanPoll(s, Adopt)
    ensures var t := DoPoll(s, Adopt); FlowOk(t.core, t.rec, t.hold)
  {
    AdoptKeepsHold(s);
  }

  lemma ObserveIsMild(c: Core, v: Listed, seen: Option<Observed>, now: Time)
    ensures var d := Observe(c, v, seen, now); Mild(c.store, d.store, {}) && d == Replaced(c, d.store, {})
  {
  }

  lemma RefreshKeeps(s: State, hasVM: bool, status: Observed, read: Option<Observed>)
    requires Inv(s) && CanPoll(s, Refresh(hasVM, status, read))
    ensures Inv(DoPoll(s, Refresh(hasVM, status, read)))
  {
    var t := DoPoll(s, Refresh(hasVM, status, read));
    var seen := if s.rec.leftover || !hasVM then Some(status) else read;
    ObserveIsMild(s.core, Item(s.rec.p), seen, s.now);
    assert t.core == Replaced(s.core, t.core.store, {});
    MildKeeps(s.core, t.core.store, {});
    MildKeepsHold(s.core, t.core.store, {}, s.rec, s.hold);
  }

  lemma MarkIsMild(c: Core, known: set<Id>, now: Time)
    ensures var st := M.MarkDisappeared(c.store, known, now);
            Mild(c.store, st, set k | k in c.store && c.store[k].phase == Deleting && st[k].phase == Deleted)
  {
  }

  /** What Marked does besides remembering reasons. */
  lemma MarkedIsReplaced(c: Core, known: set<Id>, now: Time)
    ensures var st := M.MarkDisappeared(c.store, known, now);
            var lost := set k | k in c.store && c.store[k].phase == Deleting && st[k].phase == Deleted;
            var d := Marked(c, known, now);
            d == WithReasons(Replaced(c, st, lost), d.hist.reasons)
  {
  }

  lemma MarkKeepsCore(c: Core, known: set<Id>, now: Time)
    requires CoreInv(c)
    ensures CoreInv(Marked(c, known, now))
  {
    var st := M.MarkDisappeared(c.store, known, now);
    var lost := set k | k in c.store && c.store[k].phase == Deleting && st[k].phase == Deleted;
    MarkIsMild(c, known, now);
    MildKeeps(c, st, lost);
    ReasonsKeep(Replaced(c, st, lost), Marked(c, known, now).hist.reasons);
    MarkedIsReplaced(c, known, now);
  }

  lemma MarkKeepsHold(c: Core, known: set<Id>, now: Time, rec: Reconciler, hold: Hold)
    requires CoreInv(c) && HoldOk(c, rec, hold)
    ensures HoldOk(Marked(c, known, now), rec, hold)
  {
    var st := M.MarkDisappeared(c.store, known, now);
    var lost := set k | k in c.store && c.store[k].phase == Deleting && st[k].phase == Deleted;
    MarkIsMild(c, known, now);
    MildKeepsHold(c, st, lost, rec, hold);
    MarkedIsReplaced(c, known, now);
  }

  lemma MarkKeeps(s: State)
    requires Inv(s) && CanPoll(s, Mark)
    ensures Inv(DoPoll(s, Mark))
  {
    var known := Known(s.rec.p.listed, s.rec.p.answers);
    MarkKeepsCore(s.core, known, s.now);
    MarkKeepsHold(s.core, known, s.now, s.rec, s.hold);
  }

  lemma PollMovesKeep(s: State, a: Polled)
    requires Inv(s) && CanPoll(s, a) && (a.ListFails? || a.LoadInflight? || a.LoadFailed? || a.EndReads? || a.CheckSize?)
    ensures Inv(DoPoll(s, a))
  {
  }

  lemma PollKeeps(s: State, a: Polled)
    requires Inv(s) && CanPoll(s, a)
    ensures Inv(DoPoll(s, a))
  {
    match a
    case List(listed, answers) => ListKeeps(s, listed, answers);
    case Lookup => LookupKeeps(s);
    case Adopt => AdoptKeepsRecords(s); AdoptKeepsWorkers(s); AdoptKeepsFlow(s);
    case Refresh(hasVM, status, read) => RefreshKeeps(s, hasVM, status, read);
    case Mark => MarkKeeps(s);
    case CheckHold(_) =>
    case Panic =>
    case _ => PollMovesKeep(s, a);
  }

  // Dispatch.

  /** A worker starts on a record, which is rewritten in the same step. */
  function Launched(c: Core, k: Id, r: Instance, w: Worker): Core {
    Spawn(Assign(c.(store := c.store[k := r]), k), w)
  }

  predicate Rewrites(r: Instance, r': Instance) {
    r'.id == r.id && r'.intentID == r.intentID && r'.leftover == r.leftover
  }

  predicate CanLaunch(c: Core, k: Id, r: Instance, w: Worker) {
    && k in c.store && Rewrites(c.store[k], r)
    && ((w == Creator(k, Preparing) && r.phase == Creating && c.store[k].phase == PendingCreate && !r.leftover)
        || (w == Deleter(k, r.id, Asking) && r.phase == Deleting && r.id != NO_ID
            && (k in c.hist.intents ==> c.store[k].phase == PendingDelete)))
  }

  lemma LaunchKeepsOther(c: Core, k: Id, r: Instance, w: Worker, j: Id)
    requires CoreInv(c) && CanLaunch(c, k, r, w) && j in c.store && j != k
    ensures RecordOk(Launched(c, k, r, w), j)
  {
    assert RecordOk(c, j);
    assert c.hist.spawned !in c.workers;
  }

  lemma LaunchKeepsRecords(c: Core, k: Id, r: Instance, w: Worker)
    requires CoreInv(c) && CanLaunch(c, k, r, w)
    ensures Records(Launched(c, k, r, w))
  {
    var d := Launched(c, k, r, w);
    forall j | j in d.store
      ensures RecordOk(d, j)
    {
      if j != k {
        LaunchKeepsOther(c, k, r, w, j);
      } else {
        assert RecordOk(c, k);
      }
    }
  }

  lemma LaunchKeepsWorkers(c: Core, k: Id, r: Instance, w: Worker)
    requires CoreInv(c) && CanLaunch(c, k, r, w)
    ensures Workers(Launched(c, k, r, w))
  {
    var d := Launched(c, k, r, w);
    assert RecordOk(c, k);
    forall v | v in d.workers
      ensures WorkerOk(d, v)
    {
      if v != c.hist.spawned {
        assert WorkerOk(c, v);
      }
    }
  }

  lemma LaunchKeepsNames(c: Core, k: Id, r: Instance, w: Worker)
    requires CoreInv(c) && CanLaunch(c, k, r, w)
    ensures NamesOk(Launched(c, k, r, w)) && DomainsOk(Launched(c, k, r, w))
  {
    var d := Launched(c, k, r, w);
    forall n | n in d.hist.registered
      ensures NameOk(d, n)
    {
      assert NameOk(c, n);
      if n in c.names.inflight {
        assert WorkerOk(c, c.hist.holder[n]);
      }
    }
  }

  lemma LaunchKeeps(c: Core, k: Id, r: Instance, w: Worker)
    requires CoreInv(c) && CanLaunch(c, k, r, w)
    ensures CoreInv(Launched(c, k, r, w))
  {
    LaunchKeepsRecords(c, k, r, w);
    LaunchKeepsWorkers(c, k, r, w);
    LaunchKeepsNames(c, k, r, w);
  }

  lemma DispatchCreateKeeps(s: State)
    requires Inv(s) && CanDispatch(s, DispatchCreate)
    ensures CoreInv(DoDispatch(s, DispatchCreate).core)
  {
    var c, k := s.core, s.rec.ids[0];
    assert k in s.rec.ids;
    var r := StartCreate(c.store[k], s.now).(lastUpdated := Some(s.now));
    UpdateSetsOne(c, k, r => StartCreate(r, s.now), s.now);
    LaunchKeeps(c, k, r, Creator(k, Preparing));
    assert CreateStarted(c, k, s.now) == Launched(c, k, r, Creator(k, Preparing));
  }

  lemma DispatchDeleteKeeps(s: State)
    requires Inv(s) && CanDispatch(s, DispatchDelete)
    ensures CoreInv(DoDispatch(s, DispatchDelete).core)
  {
    var c, k := s.core, s.rec.ids[0];
    assert k in s.rec.ids;
    var r := StartDelete(c.store[k], s.now).(lastUpdated := Some(s.now));
    UpdateSetsOne(c, k, r => StartDelete(r, s.now), s.now);
    LaunchKeeps(c, k, r, Deleter(k, r.id, Asking));
    assert DeleteStarted(c, k, s.rec.hrefs[k], s.now) == Launched(c, k, r, Deleter(k, r.id, Asking));
  }

  lemma RestHasNoDuplicates(ids: seq<Id>)
    requires NoDuplicates(ids) && ids != []
    ensures NoDuplicates(ids[1..]) && ids[0] !in ids[1..]
    ensures forall k :: k in ids[1..] ==> k in ids
  {
  }

  lemma LaunchKeepsHold(c: Core, k: Id, r: Instance, w: Worker, rec: Reconciler, rest: Reconciler, hold: Hold)
    requires CoreInv(c) && FlowOk(c, rec, hold) && CanLaunch(c, k, r, w) && (w.Creator? ==> rec.DispatchingCreates?)
    requires rest.DispatchingCreates? || rest.DispatchingDeletes?
    ensures HoldOk(Launched(c, k, r, w), rest, hold)
  {
    assert RecordOk(c, k);
  }

  lemma LaunchKeepsCreates(c: Core, r: Instance, w: Worker, ids: seq<Id>, held: bool)
    requires CoreInv(c) && ids != [] && PcOk(c, DispatchingCreates(ids), held) && CanLaunch(c, ids[0], r, w)
    ensures PcOk(Launched(c, ids[0], r, w), DispatchingCreates(ids[1..]), held)
  {
    RestHasNoDuplicates(ids);
    forall j | j in ids[1..]
      ensures j in ids && j != ids[0]
    {
    }
  }

  lemma LaunchKeepsDeletes(c: Core, r: Instance, w: Worker, ids: seq<Id>, hrefs: map<Id, Id>, held: bool)
    requires CoreInv(c) && ids != [] && PcOk(c, DispatchingDeletes(ids, hrefs), held) && CanLaunch(c, ids[0], r, w)
    ensures PcOk(Launched(c, ids[0], r, w), DispatchingDeletes(ids[1..], hrefs), held)
  {
    RestHasNoDuplicates(ids);
    forall j | j in ids[1..]
      ensures j in ids && j != ids[0]
    {
    }
  }

  lemma LaunchKeepsFlow(c: Core, k: Id, r: Instance, w: Worker, rec: Reconciler, rest: Reconciler, hold: Hold)
    requires CoreInv(c) && FlowOk(c, rec, hold) && CanLaunch(c, k, r, w) && (w.Creator? ==> rec.DispatchingCreates?)
    requires (rec.DispatchingCreates? && rec.ids != [] && rec.ids[0] == k && rest == DispatchingCreates(rec.ids[1..]))
          || (rec.DispatchingDeletes? && rec.ids != [] && rec.ids[0] == k && rest == rec.(ids := rec.ids[1..]))
    ensures FlowOk(Launched(c, k, r, w), rest, hold)
  {
    LaunchKeepsHold(c, k, r, w, rec, rest, hold);
    match rec
    case DispatchingCreates(ids) => LaunchKeepsCreates(c, r, w, ids, hold.on);
    case DispatchingDeletes(ids, hrefs) => LaunchKeepsDeletes(c, r, w, ids, hrefs, hold.on);
  }

  lemma DispatchCreateKeepsFlow(s: State)
    requires Inv(s) && CanDispatch(s, DispatchCreate)
    ensures var t := DoDispatch(s, DispatchCreate); FlowOk(t.core, t.rec, t.hold)
  {
    var c, k := s.core, s.rec.ids[0];
    assert k in s.rec.ids;
    var r := StartCreate(c.store[k], s.now).(lastUpdated := Some(s.now));
    UpdateSetsOne(c, k, r => StartCreate(r, s.now), s.now);
    LaunchKeepsFlow(c, k, r, Creator(k, Preparing), s.rec, DispatchingCreates(s.rec.ids[1..]), s.hold);
    assert CreateStarted(c, k, s.now) == Launched(c, k, r, Creator(k, Preparing));
  }

  lemma DispatchDeleteKeepsFlow(s: State)
    requires Inv(s) && CanDispatch(s, DispatchDelete)
    ensures var t := DoDispatch(s, DispatchDelete); FlowOk(t.core, t.rec, t.hold)
  {
    var c, k := s.core, s.rec.ids[0];
    assert k in s.rec.ids;
    var r := StartDelete(c.store[k], s.now).(lastUpdated := Some(s.now));
    UpdateSetsOne(c, k, r => StartDelete(r, s.now), s.now);
    LaunchKeepsFlow(c, k, r, Deleter(k, r.id, Asking), s.rec, s.rec.(ids := s.rec.ids[1..]), s.hold);
    assert DeleteStarted(c, k, s.rec.hrefs[k], s.now) == Launched(c, k, r, Deleter(k, r.id, Asking));
  }

  /** The branch for instances that were never created in vCD is dead: whatever waits for deletion has an HREF. */
  lemma NeverCreatedDeleteIsDead(s: State)
    requires Inv(s)
    ensures !CanDispatch(s, NeverCreatedDelete)
  {
    if s.rec.DispatchingDeletes? && s.rec.ids != [] {
      assert s.rec.ids[0] in s.rec.ids;
    }
  }

  lemma BackgroundKeeps(c: Core, background: set<Id>)
    requires CoreInv(c)
    requires forall w :: w in c.workers && c.workers[w].Cleaner? ==> c.workers[w].name in background
    ensures CoreInv(WithBackground(c, background))
  {
    var d := WithBackground(c, background);
    forall k | k in d.store
      ensures RecordOk(d, k)
    {
      assert RecordOk(c, k);
    }
    forall v | v in d.workers
      ensures WorkerOk(d, v)
    {
      assert WorkerOk(c, v);
    }
    forall n | n in d.hist.registered
      ensures NameOk(d, n)
    {
      assert NameOk(c, n);
    }
  }

  lemma ClaimKeeps(s: State)
    requires Inv(s) && CanDispatch(s, Claim)
    ensures Inv(DoDispatch(s, Claim))
  {
    forall w | w in s.core.workers && s.core.workers[w].Cleaner?
      ensures s.core.workers[w].name in s.core.names.background
    {
      assert WorkerOk(s.core, w);
    }
    if s.rec.name !in s.core.names.background {
      BackgroundKeeps(s.core, s.core.names.background + {s.rec.name});
    }
  }

  lemma UnclaimKeeps(s: State)
    requires Inv(s) && CanDispatch(s, Unclaim)
    ensures Inv(DoDispatch(s, Unclaim))
  {
    forall w | w in s.core.workers && s.core.workers[w].Cleaner?
      ensures s.core.workers[w].name in s.core.names.background - {s.rec.name}
    {
      assert WorkerOk(s.core, w);
    }
    BackgroundKeeps(s.core, s.core.names.background - {s.rec.name});
  }

  lemma DispatchCleanupKeepsRecords(s: State)
    requires Inv(s) && CanDispatch(s, DispatchCleanup)
    ensures Records(DoDispatch(s, DispatchCleanup).core)
  {
    var d := DoDispatch(s, DispatchCleanup).core;
    forall k | k in d.store
      ensures RecordOk(d, k)
    {
      assert RecordOk(s.core, k);
      if Served(s.core, k) {
        assert WorkerOk(s.core, s.core.hist.dispatchedTo[k]);
      }
    }
  }

  lemma DispatchCleanupKeepsWorkers(s: State)
    requires Inv(s) && CanDispatch(s, DispatchCleanup)
    ensures var d := DoDispatch(s, DispatchCleanup).core; DomainsOk(d) && Workers(d)
  {
    var d := DoDispatch(s, DispatchCleanup).core;
    forall w | w in d.workers
      ensures WorkerOk(d, w)
    {
      if w in s.core.workers && w != s.core.hist.spawned {
        assert WorkerOk(s.core, w);
      }
    }
  }

  lemma DispatchCleanupKeepsNames(s: State)
    requires Inv(s) && CanDispatch(s, DispatchCleanup)
    ensures NamesOk(DoDispatch(s, DispatchCleanup).core)
    ensures var t := DoDispatch(s, DispatchCleanup); FlowOk(t.core, t.rec, t.hold)
  {
    var d := DoDispatch(s, DispatchCleanup).core;
    forall n | n in d.hist.registered
      ensures NameOk(d, n)
    {
      assert NameOk(s.core, n);
      if n in s.core.names.inflight {
        assert WorkerOk(s.core, s.core.hist.holder[n]);
      }
    }
  }

  lemma MarkGCIsMild(st: M.Records, k: Id, now: Time)
    ensures Mild(st, M.MarkGC(st, k, now), {})
  {
  }

  lemma MarkNextKeeps(s: State)
    requires Inv(s) && CanDispatch(s, MarkNext)
    ensures Inv(DoDispatch(s, MarkNext))
  {
    var k := s.rec.ids[0];
    var st := M.MarkGC(s.core.store, k, s.now);
    assert Mild(s.core.store, st, {}) by {
      MarkGCIsMild(s.core.store, k, s.now);
    }
    assert s.core.(store := st) == Replaced(s.core, st, {});
    MildKeeps(s.core, st, {});
    MildKeepsHold(s.core, st, {}, s.rec, s.hold);
  }

  lemma PruneKeepsRecords(s: State)
    requires Inv(s) && CanDispatch(s, DoPrune)
    ensures Records(DoDispatch(s, DoPrune).core)
  {
    var c, d := s.core, DoDispatch(s, DoPrune).core;
    forall k | k in d.store
      ensures RecordOk(d, k)
    {
      assert RecordOk(c, k);
    }
  }

  lemma PruneKeepsDomains(s: State)
    requires Inv(s) && CanDispatch(s, DoPrune)
    ensures DomainsOk(DoDispatch(s, DoPrune).core)
  {
    forall k | k in s.core.store
      ensures k in s.core.hist.intents + s.core.vcd.vapps.Keys
    {
      assert RecordOk(s.core, k);
    }
  }

  lemma PruneKeepsWorkers(s: State)
    requires Inv(s) && CanDispatch(s, DoPrune)
    ensures Workers(DoDispatch(s, DoPrune).core)
  {
    var c, d := s.core, DoDispatch(s, DoPrune).core;
    forall v | v in d.workers
      ensures WorkerOk(d, v)
    {
      assert WorkerOk(c, v);
    }
  }

  lemma PruneKeepsNames(s: State)
    requires Inv(s) && CanDispatch(s, DoPrune)
    ensures NamesOk(DoDispatch(s, DoPrune).core)
    ensures var t := DoDispatch(s, DoPrune); FlowOk(t.core, t.rec, t.hold)
  {
  }

  /** The steps that move only the reconcile goroutine. */
  lemma DispatchMovesKeep(s: State, a: Dispatched)
    requires Inv(s) && CanDispatch(s, a) && DoDispatch(s, a).core == s.core
    requires !a.DispatchCreate? && !a.DispatchDelete? && !a.NeverCreatedDelete? && !a.Claim? && !a.Unclaim?
    requires !a.DispatchCleanup? && !a.MarkNext? && !a.DoPrune?
    ensures Inv(DoDispatch(s, a))
  {
    if a.SnapDeletes? {
      forall k | k in a.ids
        ensures k in s.core.store && s.core.store[k].id != NO_ID
      {
        assert RecordOk(s.core, k);
      }
    }
    if a.PickCleanup? {
      assert NameOk(s.core, a.name);
    }
  }

  /** The steps that start a worker. */
  lemma DispatchStartsKeep(s: State, a: Dispatched)
    requires Inv(s) && CanDispatch(s, a) && (a.DispatchCreate? || a.DispatchDelete? || a.DispatchCleanup?)
    ensures Inv(DoDispatch(s, a))
  {
    if a.DispatchCreate? {
      DispatchCreateKeeps(s);
      DispatchCreateKeepsFlow(s);
    } else if a.DispatchDelete? {
      DispatchDeleteKeeps(s);
      DispatchDeleteKeepsFlow(s);
    } else {
      DispatchCleanupKeepsRecords(s);
      DispatchCleanupKeepsWorkers(s);
      DispatchCleanupKeepsNames(s);
    }
  }

  /** The steps that change records or names but start nothing. */
  lemma DispatchEditsKeep(s: State, a: Dispatched)
    requires Inv(s) && CanDispatch(s, a)
    requires a.NeverCreatedDelete? || a.Claim? || a.Unclaim? || a.MarkNext? || a.DoPrune?
    ensures Inv(DoDispatch(s, a))
  {
    match a
    case NeverCreatedDelete => NeverCreatedDeleteIsDead(s);
    case Claim => ClaimKeeps(s);
    case Unclaim => UnclaimKeeps(s);
    case MarkNext => MarkNextKeeps(s);
    case DoPrune => PruneKeepsRecords(s); PruneKeepsDomains(s); PruneKeepsWorkers(s); PruneKeepsNames(s);
  }

  lemma DispatchKeeps(s: State, a: Dispatched)
    requires Inv(s) && CanDispatch(s, a)
    ensures Inv(DoDispatch(s, a))
  {
    if a.DispatchCreate? || a.DispatchDelete? || a.DispatchCleanup? {
      DispatchStartsKeep(s, a);
    } else if a.NeverCreatedDelete? || a.Claim? || a.Unclaim? || a.MarkNext? || a.DoPrune? {
      DispatchEditsKeep(s, a);
    } else {
      DispatchMovesKeep(s, a);
    }
  }

  // Workers.

  /** A worker moves on without touching anything shared. */
  predicate MovesOn(me: Worker, me': Worker) {
    match (me, me')
    case (Creator(k, pc), Creator(k', pc')) =>
      && k' == k && (Pending(pc') <==> Pending(pc)) && !pc.Abandoning? && !pc'.Abandoning?
      && (HasName(pc) <==> HasName(pc')) && (HasName(pc) ==> pc'.name == pc.name)
    case (Deleter(k, href, _), Deleter(k', href', _)) => k' == k && href' == href
    case (Cleaner(n, at, _), Cleaner(n', at', _)) => n' == n && at' == at
    case _ => false
  }

  lemma MoveKeeps(c: Core, w: nat, me: Worker)
    requires CoreInv(c) && w in c.workers && MovesOn(c.workers[w], me) && WorkerOk(Become(c, w, me), w)
    ensures CoreInv(Become(c, w, me))
  {
    MoveKeepsRecords(c, w, me);
    MoveKeepsWorkers(c, w, me);
    MoveKeepsNames(c, w, me);
  }

  lemma MoveKeepsRecords(c: Core, w: nat, me: Worker)
    requires CoreInv(c) && w in c.workers && MovesOn(c.workers[w], me)
    ensures Records(Become(c, w, me))
  {
    assert WorkerOk(c, w);
    var d := Become(c, w, me);
    forall k | k in d.store
      ensures RecordOk(d, k)
    {
      assert RecordOk(c, k);
    }
  }

  lemma MoveKeepsWorkers(c: Core, w: nat, me: Worker)
    requires CoreInv(c) && w in c.workers && MovesOn(c.workers[w], me) && WorkerOk(Become(c, w, me), w)
    ensures Workers(Become(c, w, me)) && DomainsOk(Become(c, w, me))
  {
    forall v | v in c.workers
      ensures WorkerOk(Become(c, w, me), v)
    {
      assert WorkerOk(c, v);
    }
  }

  lemma MoveKeepsNames(c: Core, w: nat, me: Worker)
    requires CoreInv(c) && w in c.workers && MovesOn(c.workers[w], me)
    ensures NamesOk(Become(c, w, me))
  {
    assert WorkerOk(c, w);
    var d := Become(c, w, me);
    forall n | n in d.hist.registered
      ensures NameOk(d, n)
    {
      assert NameOk(c, n);
    }
  }

  lemma MoveKeepsFlow(c: Core, w: nat, me: Worker, rec: Reconciler, hold: Hold)
    requires FlowOk(c, rec, hold) && w in c.workers && MovesOn(c.workers[w], me)
    ensures FlowOk(Become(c, w, me), rec, hold)
  {
  }

  predicate Moves(a: Work) {
    a.PrepareFails? || a.BuildReturns? || a.CountFailure? || a.CountSuccess? || a.DeleteSucceeds? || a.DeleteFails? ||
    a.CleanupSucceeds? || a.CleanupNotFound? || a.CleanupFails?
  }

  /** What the move leaves of everything but the worker. */
  function MoveCore(c: Core, w: nat, a: Work, now: Time): Core
    requires CanWork(c, w, a) && Moves(a)
  {
    match a
    case DeleteSucceeds(why) => Erased(c, c.workers[w].href, why)
    case CleanupSucceeds(href, why) => Erased(c, href, why)
    case CleanupNotFound(miss) => Unseen(c, c.workers[w].name, miss, now)
    case _ => c
  }

  lemma MoveCoreKeeps(s: State, w: nat, a: Work)
    requires Inv(s) && CanWork(s.core, w, a) && Moves(a)
    ensures var c := MoveCore(s.core, w, a, s.now); CoreInv(c) && FlowOk(c, s.rec, s.hold) && c.workers == s.core.workers
  {
    match a
    case DeleteSucceeds(_) => GoneKeeps(s.core, s.core.workers[w].href); GoneKeepsFlow(s, s.core.workers[w].href);
    case CleanupSucceeds(href, _) => GoneKeeps(s.core, href); GoneKeepsFlow(s, href);
    case CleanupNotFound(miss) => UnseenKeeps(s.core, s.core.workers[w].name, miss, s.now); UnseenKeepsFlow(s, s.core.workers[w].name, miss);
    case _ =>
  }

  lemma MovesBecome(c: Core, w: nat, a: Work, now: Time)
    requires CanWork(c, w, a) && Moves(a)
    ensures var d, b := AfterWork(c, w, a, now), MoveCore(c, w, a, now);
            b.workers == c.workers && w in d.workers && d == Become(b, w, d.workers[w])
  {
  }

  lemma MovedCreatorOk(s: State, w: nat, a: Work)
    requires Inv(s) && CanWork(s.core, w, a) && Moves(a) && s.core.workers[w].Creator?
    ensures var me := AfterWork(s.core, w, a, s.now).workers[w];
            MovesOn(s.core.workers[w], me) && WorkerOk(AfterWork(s.core, w, a, s.now), w)
  {
    assert WorkerOk(s.core, w);
  }

  lemma MovedDeleterOk(s: State, w: nat, a: Work)
    requires Inv(s) && CanWork(s.core, w, a) && Moves(a) && s.core.workers[w].Deleter?
    ensures var me := AfterWork(s.core, w, a, s.now).workers[w];
            MovesOn(s.core.workers[w], me) && WorkerOk(AfterWork(s.core, w, a, s.now), w)
  {
    assert WorkerOk(s.core, w);
  }

  lemma MovedCleanerOk(s: State, w: nat, a: Work)
    requires Inv(s) && CanWork(s.core, w, a) && Moves(a) && s.core.workers[w].Cleaner?
    ensures var me := AfterWork(s.core, w, a, s.now).workers[w];
            MovesOn(s.core.workers[w], me) && WorkerOk(AfterWork(s.core, w, a, s.now), w)
  {
    assert WorkerOk(s.core, w);
  }

  lemma MovedWorkerOk(s: State, w: nat, a: Work)
    requires Inv(s) && CanWork(s.core, w, a) && Moves(a)
    ensures var me := AfterWork(s.core, w, a, s.now).workers[w];
            MovesOn(s.core.workers[w], me) && WorkerOk(AfterWork(s.core, w, a, s.now), w)
  {
    match s.core.workers[w]
    case Creator(_, _) => MovedCreatorOk(s, w, a);
    case Deleter(_, _, _) => MovedDeleterOk(s, w, a);
    case Cleaner(_, _, _) => MovedCleanerOk(s, w, a);
  }

  lemma MovesKeep(s: State, w: nat, a: Work)
    requires Inv(s) && CanWork(s.core, w, a) && Moves(a)
    ensures var d := AfterWork(s.core, w, a, s.now); CoreInv(d) && FlowOk(d, s.rec, s.hold)
  {
    var c, me := MoveCore(s.core, w, a, s.now), AfterWork(s.core, w, a, s.now).workers[w];
    MovesBecome(s.core, w, a, s.now);
    MoveCoreKeeps(s, w, a);
    MovedWorkerOk(s, w, a);
    MoveKeeps(c, w, me);
    MoveKeepsFlow(c, w, me, s.rec, s.hold);
  }

  // A worker's final update of its record.

  function Settled(c: Core, w: nat, k: Id, r: Instance): Core {
    End(c.(store := c.store[k := r]), w)
  }

  predicate CanSettle(c: Core, w: nat, k: Id, r: Instance) {
    && w in c.workers && k in c.store && Rewrites(c.store[k], r)
    && ((c.workers[w] == Creator(k, Reverting) && r.phase == PendingCreate)
        || (c.workers[w].Deleter? && c.workers[w].key == k && (r.phase == PendingDelete || r.phase == Deleted)))
  }

  lemma SettleKeepsRecords(c: Core, w: nat, k: Id, r: Instance)
    requires CoreInv(c) && CanSettle(c, w, k, r)
    ensures Records(Settled(c, w, k, r))
  {
    assert WorkerOk(c, w) && RecordOk(c, k);
    forall j | j in c.store
      ensures RecordOk(Settled(c, w, k, r), j)
    {
      assert RecordOk(c, j);
    }
  }

  lemma SettleKeepsWorkers(c: Core, w: nat, k: Id, r: Instance)
    requires CoreInv(c) && CanSettle(c, w, k, r)
    ensures Workers(Settled(c, w, k, r)) && DomainsOk(Settled(c, w, k, r))
  {
    assert WorkerOk(c, w) && RecordOk(c, k);
    forall v | v in c.workers && v != w
      ensures WorkerOk(Settled(c, w, k, r), v)
    {
      assert WorkerOk(c, v);
    }
  }

  lemma SettleKeepsNames(c: Core, w: nat, k: Id, r: Instance)
    requires CoreInv(c) && CanSettle(c, w, k, r)
    ensures NamesOk(Settled(c, w, k, r))
  {
    forall n | n in c.hist.registered
      ensures NameOk(Settled(c, w, k, r), n)
    {
      assert NameOk(c, n);
    }
  }

  lemma SettleKeepsPc(c: Core, w: nat, k: Id, r: Instance, rec: Reconciler, held: bool)
    requires CoreInv(c) && PcOk(c, rec, held) && CanSettle(c, w, k, r)
    ensures PcOk(Settled(c, w, k, r), rec, held)
  {
    assert WorkerOk(c, w) && RecordOk(c, k);
  }

  lemma SettleKeepsHold(c: Core, w: nat, k: Id, r: Instance, rec: Reconciler, hold: Hold)
    requires CoreInv(c) && HoldOk(c, rec, hold) && CanSettle(c, w, k, r)
    ensures HoldOk(Settled(c, w, k, r), rec, hold)
  {
    assert WorkerOk(c, w) && RecordOk(c, k);
  }

  lemma SettleKeepsFlow(c: Core, w: nat, k: Id, r: Instance, rec: Reconciler, hold: Hold)
    requires CoreInv(c) && FlowOk(c, rec, hold) && CanSettle(c, w, k, r)
    ensures FlowOk(Settled(c, w, k, r), rec, hold)
  {
    SettleKeepsPc(c, w, k, r, rec, hold.on);
    SettleKeepsHold(c, w, k, r, rec, hold);
  }

  lemma SettleKeeps(s: State, w: nat, k: Id, r: Instance)
    requires Inv(s) && CanSettle(s.core, w, k, r)
    ensures var d := Settled(s.core, w, k, r); CoreInv(d) && FlowOk(d, s.rec, s.hold)
  {
    SettleKeepsRecords(s.core, w, k, r);
    SettleKeepsWorkers(s.core, w, k, r);
    SettleKeepsNames(s.core, w, k, r);
    SettleKeepsFlow(s.core, w, k, r, s.rec, s.hold);
  }

  predicate CanEnd(c: Core, w: nat) {
    w in c.workers && c.workers[w].Deleter? && c.workers[w].key !in c.store
  }

  lemma EndKeepsRecords(c: Core, w: nat)
    requires CoreInv(c) && CanEnd(c, w)
    ensures Records(End(c, w))
  {
  }

  lemma EndKeepsWorkers(c: Core, w: nat)
    requires CoreInv(c) && CanEnd(c, w)
    ensures DomainsOk(End(c, w)) && Workers(End(c, w)) && NamesOk(End(c, w))
  {
    var d := End(c, w);
    assert WorkerOk(c, w);
    forall v | v in d.workers
      ensures WorkerOk(d, v)
    {
      assert WorkerOk(c, v);
    }
    forall n | n in d.hist.registered
      ensures NameOk(d, n)
    {
      assert NameOk(c, n);
    }
  }

  lemma EndKeepsFlow(c: Core, w: nat, rec: Reconciler, hold: Hold)
    requires FlowOk(c, rec, hold)
    ensures FlowOk(End(c, w), rec, hold)
  {
  }

  predicate Settles(a: Work) {
    a.Revert? || a.FinishDeleted? || a.FinishUndeleted?
  }

  /** The final update without its reason. */
  function SettledBase(c: Core, w: nat, a: Work, now: Time): Core
    requires CanWork(c, w, a) && Settles(a)
  {
    var me := c.workers[w];
    var k := if me.Creator? then me.intent else me.key;
    if k in c.store then Settled(c, w, k, Final(a, now)(c.store[k]).(lastUpdated := Some(now))) else End(c, w)
  }

  function Final(a: Work, now: Time): Instance -> Instance
    requires Settles(a)
  {
    match a
    case Revert(error, delay) => (r: Instance) => FailCreate(r, error, delay, now)
    case FinishDeleted => (r: Instance) => FinishDelete(r, now)
    case FinishUndeleted(error, delay) => (r: Instance) => FailDelete(r, error, delay, now)
  }

  lemma SettlesToBase(c: Core, w: nat, a: Work, now: Time)
    requires CoreInv(c) && CanWork(c, w, a) && Settles(a)
    ensures AfterWork(c, w, a, now) == WithReasons(SettledBase(c, w, a, now), AfterWork(c, w, a, now).hist.reasons)
  {
    var me := c.workers[w];
    var k := if me.Creator? then me.intent else me.key;
    if k in c.store {
      UpdateSetsOne(c, k, Final(a, now), now);
    }
  }

  lemma BaseKeeps(s: State, w: nat, a: Work)
    requires Inv(s) && CanWork(s.core, w, a) && Settles(a)
    ensures var d := SettledBase(s.core, w, a, s.now); CoreInv(d) && FlowOk(d, s.rec, s.hold)
  {
    var c, me := s.core, s.core.workers[w];
    assert WorkerOk(c, w);
    var k := if me.Creator? then me.intent else me.key;
    if k !in c.store {
      EndKeepsRecords(c, w);
      EndKeepsWorkers(c, w);
      EndKeepsFlow(c, w, s.rec, s.hold);
    } else {
      SettleKeeps(s, w, k, Final(a, s.now)(c.store[k]).(lastUpdated := Some(s.now)));
    }
  }

  lemma SettlesKeep(s: State, w: nat, a: Work)
    requires Inv(s) && CanWork(s.core, w, a) && Settles(a)
    ensures var d := AfterWork(s.core, w, a, s.now); CoreInv(d) && FlowOk(d, s.rec, s.hold)
  {
    var base, reasons := SettledBase(s.core, w, a, s.now), AfterWork(s.core, w, a, s.now).hist.reasons;
    BaseKeeps(s, w, a);
    SettlesToBase(s.core, w, a, s.now);
    ReasonsKeep(base, reasons);
    ReasonsKeepFlow(base, reasons, s.rec, s.hold);
  }

  // A create stores its HREF.

  /** Nothing else in the store has the HREF that a create is about to store: no duplicate is ever removed. */
  lemma NoDuplicateToRemove(c: Core, w: nat)
    requires CoreInv(c) && w in c.workers && c.workers[w].Creator? && c.workers[w].create.Counted?
    ensures M.Holders(c.store, c.workers[w].create.href) == {}
  {
    assert WorkerOk(c, w);
    forall j | j in c.store
      ensures c.store[j].id != c.workers[w].create.href
    {
      assert RecordOk(c, j);
    }
  }

  function Stored(c: Core, w: nat, r: Instance, pc: CreatePC): Core
    requires w in c.workers && c.workers[w].Creator? && pc.Counted?
  {
    var k := c.workers[w].intent;
    Become(c.(store := c.store[k := r], hist := c.hist.(recorded := c.hist.recorded[pc.name := (k, pc.href)])), w,
           Creator(k, Recorded(pc.name)))
  }

  predicate CanStore(c: Core, w: nat, r: Instance, pc: CreatePC) {
    && w in c.workers && c.workers[w].Creator? && c.workers[w].create == pc && pc.Counted?
    && c.workers[w].intent in c.store
    && r.id == pc.href && r.phase == Running && r.intentID == c.workers[w].intent && !r.leftover
  }

  lemma StoreKeepsRecords(c: Core, w: nat, r: Instance, pc: CreatePC)
    requires CoreInv(c) && CanStore(c, w, r, pc)
    ensures Records(Stored(c, w, r, pc)) && DomainsOk(Stored(c, w, r, pc))
  {
    assert WorkerOk(c, w);
    NoDuplicateToRemove(c, w);
    forall j | j in c.store
      ensures RecordOk(Stored(c, w, r, pc), j)
    {
      assert RecordOk(c, j);
    }
  }

  lemma StoreKeepsWorkers(c: Core, w: nat, r: Instance, pc: CreatePC)
    requires CoreInv(c) && CanStore(c, w, r, pc)
    ensures Workers(Stored(c, w, r, pc))
  {
    assert WorkerOk(c, w);
    forall v | v in c.workers
      ensures WorkerOk(Stored(c, w, r, pc), v)
    {
      assert WorkerOk(c, v);
    }
  }

  lemma StoreKeepsNames(c: Core, w: nat, r: Instance, pc: CreatePC)
    requires CoreInv(c) && CanStore(c, w, r, pc)
    ensures NamesOk(Stored(c, w, r, pc))
  {
    assert WorkerOk(c, w);
    forall n | n in c.hist.registered
      ensures NameOk(Stored(c, w, r, pc), n)
    {
      assert NameOk(c, n);
    }
  }

  lemma StoreKeepsFlow(c: Core, w: nat, r: Instance, pc: CreatePC, rec: Reconciler, hold: Hold)
    requires CoreInv(c) && FlowOk(c, rec, hold) && CanStore(c, w, r, pc)
    ensures FlowOk(Stored(c, w, r, pc), rec, hold)
  {
    assert WorkerOk(c, w);
  }

  lemma RecordKeeps(s: State, w: nat, a: Work)
    requires Inv(s) && CanWork(s.core, w, a) && a.Record?
    ensures var d := AfterWork(s.core, w, a, s.now); CoreInv(d) && FlowOk(d, s.rec, s.hold)
  {
    var c, me, now := s.core, s.core.workers[w], s.now;
    var pc := me.create;
    assert WorkerOk(c, w);
    NoDuplicateToRemove(c, w);
    var r := FinishCreate(c.store[me.intent], pc.href, pc.name, a.vmName, a.ip, a.osType, now).(lastUpdated := Some(now));
    assert RecordOk(c, me.intent);
    StoreKeepsRecords(c, w, r, pc);
    StoreKeepsWorkers(c, w, r, pc);
    StoreKeepsNames(c, w, r, pc);
    StoreKeepsFlow(c, w, r, pc, s.rec, s.hold);
    assert M.Replace(c.store, me.intent, r) == c.store[me.intent := r];
    assert AfterWork(c, w, a, now) == Stored(c, w, r, pc);
  }

  // Names change hands.

  lemma RegisterKeepsRecords(c: Core, w: nat, now: Time, name: Id)
    requires CoreInv(c) && CanWork(c, w, Register(name))
    ensures Records(AfterWork(c, w, Register(name), now))
  {
    assert WorkerOk(c, w);
    var d := AfterWork(c, w, Register(name), now);
    forall k | k in d.store
      ensures RecordOk(d, k)
    {
      assert RecordOk(c, k);
    }
  }

  lemma RegisterKeepsWorkers(c: Core, w: nat, now: Time, name: Id)
    requires CoreInv(c) && CanWork(c, w, Register(name))
    ensures Workers(AfterWork(c, w, Register(name), now))
  {
    forall v | v in c.workers
      ensures WorkerOk(AfterWork(c, w, Register(name), now), v)
    {
      assert WorkerOk(c, v);
    }
  }

  lemma RegisterKeepsNames(c: Core, w: nat, now: Time, name: Id)
    requires CoreInv(c) && CanWork(c, w, Register(name))
    ensures var d := AfterWork(c, w, Register(name), now); DomainsOk(d) && NamesOk(d)
  {
    var d := AfterWork(c, w, Register(name), now);
    assert DomainsOk(c);
    forall n | n in d.hist.registered
      ensures NameOk(d, n)
    {
      if n != name {
        assert NameOk(c, n);
      }
    }
  }

  lemma RegisterKeepsFlow(s: State, w: nat, name: Id)
    requires Inv(s) && CanWork(s.core, w, Register(name))
    ensures FlowOk(AfterWork(s.core, w, Register(name), s.now), s.rec, s.hold)
  {
    assert WorkerOk(s.core, w);
  }

  lemma BuildFailsKeepsRecords(c: Core, w: nat, now: Time)
    requires CoreInv(c) && CanWork(c, w, BuildFails)
    ensures Records(AfterWork(c, w, BuildFails, now))
  {
    assert WorkerOk(c, w);
    var d := AfterWork(c, w, BuildFails, now);
    forall k | k in d.store
      ensures RecordOk(d, k)
    {
      assert RecordOk(c, k);
    }
  }

  lemma BuildFailsKeepsWorkers(c: Core, w: nat, now: Time)
    requires CoreInv(c) && CanWork(c, w, BuildFails)
    ensures Workers(AfterWork(c, w, BuildFails, now))
  {
    assert WorkerOk(c, w);
    var d := AfterWork(c, w, BuildFails, now);
    forall v | v in d.workers
      ensures WorkerOk(d, v)
    {
      assert WorkerOk(c, v);
    }
  }

  lemma BuildFailsKeepsNames(c: Core, w: nat, now: Time)
    requires CoreInv(c) && CanWork(c, w, BuildFails)
    ensures var d := AfterWork(c, w, BuildFails, now); DomainsOk(d) && NamesOk(d)
  {
    assert WorkerOk(c, w);
    var d := AfterWork(c, w, BuildFails, now);
    forall n | n in d.hist.registered
      ensures NameOk(d, n)
    {
      assert NameOk(c, n);
    }
  }

  lemma BuildFailsKeepsFlow(s: State, w: nat)
    requires Inv(s) && CanWork(s.core, w, BuildFails)
    ensures FlowOk(AfterWork(s.core, w, BuildFails, s.now), s.rec, s.hold)
  {
    assert WorkerOk(s.core, w);
  }

  lemma DropInflightKeepsRecords(c: Core, w: nat, now: Time)
    requires CoreInv(c) && CanWork(c, w, DropInflight)
    ensures Records(AfterWork(c, w, DropInflight, now))
  {
    assert WorkerOk(c, w);
    var d := AfterWork(c, w, DropInflight, now);
    forall k | k in d.store
      ensures RecordOk(d, k)
    {
      assert RecordOk(c, k);
    }
  }

  lemma DropInflightKeepsWorkers(c: Core, w: nat, now: Time)
    requires CoreInv(c) && CanWork(c, w, DropInflight)
    ensures Workers(AfterWork(c, w, DropInflight, now))
  {
    assert WorkerOk(c, w);
    var d := AfterWork(c, w, DropInflight, now);
    forall v | v in d.workers
      ensures WorkerOk(d, v)
    {
      assert WorkerOk(c, v);
    }
  }

  lemma DropInflightKeepsNames(c: Core, w: nat, now: Time)
    requires CoreInv(c) && CanWork(c, w, DropInflight)
    ensures var d := AfterWork(c, w, DropInflight, now); DomainsOk(d) && NamesOk(d)
  {
    assert WorkerOk(c, w);
    var d := AfterWork(c, w, DropInflight, now);
    forall n | n in d.hist.registered
      ensures NameOk(d, n)
    {
      assert NameOk(c, n);
    }
  }

  lemma DropInflightKeepsFlow(s: State, w: nat)
    requires Inv(s) && CanWork(s.core, w, DropInflight)
    ensures FlowOk(AfterWork(s.core, w, DropInflight, s.now), s.rec, s.hold)
  {
    assert WorkerOk(s.core, w);
  }

  lemma ReleaseKeepsRecords(c: Core, w: nat, now: Time)
    requires CoreInv(c) && CanWork(c, w, Release)
    ensures var d := AfterWork(c, w, Release, now); DomainsOk(d) && Records(d) && NamesOk(d)
  {
    assert WorkerOk(c, w);
    var d := AfterWork(c, w, Release, now);
    forall k | k in d.store
      ensures RecordOk(d, k)
    {
      assert RecordOk(c, k);
    }
    forall n | n in d.hist.registered
      ensures NameOk(d, n)
    {
      assert NameOk(c, n);
    }
  }

  lemma ReleaseKeepsWorkers(c: Core, w: nat, now: Time)
    requires CoreInv(c) && CanWork(c, w, Release)
    ensures Workers(AfterWork(c, w, Release, now))
  {
    assert WorkerOk(c, w);
    var d := AfterWork(c, w, Release, now);
    forall v | v in d.workers
      ensures WorkerOk(d, v)
    {
      assert WorkerOk(c, v);
    }
  }

  lemma ReleaseKeepsFlow(s: State, w: nat)
    requires Inv(s) && CanWork(s.core, w, Release)
    ensures FlowOk(AfterWork(s.core, w, Release, s.now), s.rec, s.hold)
  {
    assert WorkerOk(s.core, w);
  }

  lemma RetireKeepsRecords(c: Core, w: nat, now: Time)
    requires CoreInv(c) && CanWork(c, w, Retire)
    ensures Records(AfterWork(c, w, Retire, now))
  {
    assert WorkerOk(c, w);
    var d := AfterWork(c, w, Retire, now);
    forall k | k in d.store
      ensures RecordOk(d, k)
    {
      assert RecordOk(c, k);
    }
  }

  lemma RetireKeepsWorkers(c: Core, w: nat, now: Time)
    requires CoreInv(c) && CanWork(c, w, Retire)
    ensures Workers(AfterWork(c, w, Retire, now))
  {
    assert WorkerOk(c, w);
    var d := AfterWork(c, w, Retire, now);
    forall v | v in d.workers
      ensures WorkerOk(d, v)
    {
      assert WorkerOk(c, v);
    }
  }

  lemma RetireKeepsNames(c: Core, w: nat, now: Time)
    requires CoreInv(c) && CanWork(c, w, Retire)
    ensures var d := AfterWork(c, w, Retire, now); DomainsOk(d) && NamesOk(d)
  {
    var d := AfterWork(c, w, Retire, now);
    assert WorkerOk(c, w);
    forall n | n in c.hist.registered
      ensures NameOk(d, n)
    {
      assert NameOk(c, n);
      if n in c.names.inflight {
        assert d.workers[d.hist.holder[n]] == c.workers[c.hist.holder[n]];
      }
    }
  }

  lemma RetireKeepsFlow(s: State, w: nat)
    requires Inv(s) && CanWork(s.core, w, Retire)
    ensures FlowOk(AfterWork(s.core, w, Retire, s.now), s.rec, s.hold)
  {
    assert WorkerOk(s.core, w);
  }

  lemma LeaveKeepsRecords(c: Core, w: nat, now: Time)
    requires CoreInv(c) && CanWork(c, w, Leave)
    ensures var d := AfterWork(c, w, Leave, now); DomainsOk(d) && Records(d) && NamesOk(d)
  {
    var d := AfterWork(c, w, Leave, now);
    forall k | k in d.store
      ensures RecordOk(d, k)
    {
      assert RecordOk(c, k);
    }
    forall n | n in d.hist.registered
      ensures NameOk(d, n)
    {
      assert NameOk(c, n);
    }
  }

  lemma LeaveKeepsWorkers(c: Core, w: nat, now: Time)
    requires CoreInv(c) && CanWork(c, w, Leave)
    ensures Workers(AfterWork(c, w, Leave, now))
  {
  }

  lemma LeaveKeepsFlow(s: State, w: nat)
    requires Inv(s) && CanWork(s.core, w, Leave)
    ensures FlowOk(AfterWork(s.core, w, Leave, s.now), s.rec, s.hold)
  {
    assert WorkerOk(s.core, w);
  }

  lemma HandoversKeep(s: State, w: nat, a: Work)
    requires Inv(s) && CanWork(s.core, w, a)
    requires a.Register? || a.BuildFails? || a.DropInflight? || a.Release? || a.Retire? || a.Leave?
    ensures var d := AfterWork(s.core, w, a, s.now); CoreInv(d) && FlowOk(d, s.rec, s.hold)
  {
    var c, now := s.core, s.now;
    match a
    case Register(n) =>
      RegisterKeepsRecords(c, w, now, n); RegisterKeepsWorkers(c, w, now, n); RegisterKeepsNames(c, w, now, n); RegisterKeepsFlow(s, w, n);
    case BuildFails =>
      BuildFailsKeepsRecords(c, w, now); BuildFailsKeepsWorkers(c, w, now); BuildFailsKeepsNames(c, w, now); BuildFailsKeepsFlow(s, w);
    case DropInflight =>
      DropInflightKeepsRecords(c, w, now); DropInflightKeepsWorkers(c, w, now); DropInflightKeepsNames(c, w, now); DropInflightKeepsFlow(s, w);
    case Release => ReleaseKeepsRecords(c, w, now); ReleaseKeepsWorkers(c, w, now); ReleaseKeepsFlow(s, w);
    case Retire => RetireKeepsRecords(c, w, now); RetireKeepsWorkers(c, w, now); RetireKeepsNames(c, w, now); RetireKeepsFlow(s, w);
    case Leave => LeaveKeepsRecords(c, w, now); LeaveKeepsWorkers(c, w, now); LeaveKeepsFlow(s, w);
  }

  lemma WorkKeeps(s: State, w: nat, a: Work)
    requires Inv(s) && CanWork(s.core, w, a)
    ensures var d := AfterWork(s.core, w, a, s.now); CoreInv(d) && FlowOk(d, s.rec, s.hold)
  {
    if Moves(a) {
      MovesKeep(s, w, a);
    } else if Settles(a) {
      SettlesKeep(s, w, a);
    } else if a.Record? {
      RecordKeeps(s, w, a);
    } else {
      HandoversKeep(s, w, a);
    }
  }

  // Runs.

  lemma ActionKeeps(s: State, a: Action)
    requires Inv(s) && Can(s, a)
    ensures Inv(Do(s, a))
  {
    match a
    case Tick(_) =>
    case Out(o) => OutsideKeeps(s, o);
    case Pol(p) => PollKeeps(s, p);
    case Dis(d) => DispatchKeeps(s, d);
    case Wrk(w, k) => WorkKeeps(s, w, k);
  }

  /** The invariant holds in every reachable state. */
  lemma {:induction false} RunsKeepInv(acts: seq<Action>)
    requires IsRun(acts)
    ensures Inv(After(acts))
    decreases |acts|
  {
    if acts == [] {
      InitialInv();
    } else {
      RunsKeepInv(acts[..|acts| - 1]);
      ActionKeeps(After(acts[..|acts| - 1]), acts[|acts| - 1]);
    }
  }
}
