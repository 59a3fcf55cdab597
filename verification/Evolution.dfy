/** How one step can change one record: its phase, its HREF, its count of missed polls. */
module Evolution {
  import opened Basics
  import opened Lifecycle
  import opened Listing
  import opened Protocol
  import opened Invariant
  import opened Preservation
  import M = StoreModel

  /** Worker w of this action deals with record k. */
  predicate WorksOn(s: State, a: Action, k: Id) {
    a.Wrk? && a.w in s.core.workers &&
    match s.core.workers[a.w]
    case Creator(i, _) => i == k
    case Deleter(j, _, _) => j == k
    case Cleaner(_, _, _) => false
  }

  /** The phase graph of an intent, each edge with the only steps that take it. */
  predicate Edge(s: State, a: Action, k: Id, p: Phase, q: Phase) {
    || p == q
    || (p == PendingCreate && q == Creating && a == Dis(DispatchCreate))
    || (p == Creating && q == PendingCreate && a.Wrk? && a.k.Revert? && WorksOn(s, a, k))
    || (p == Creating && q == Running && a.Wrk? && a.k.Record? && WorksOn(s, a, k))
    || (p == Running && q == PendingDelete && (a == Dis(MarkNext) || (a.Out? && a.o.Decrease?)))
    || (p == PendingDelete && q == Deleting && a == Dis(DispatchDelete))
    || (p == Deleting && q == Deleted && a.Wrk? && a.k.FinishDeleted? && WorksOn(s, a, k))
    || (p == Deleting && q == PendingDelete && a.Wrk? && a.k.FinishUndeleted? && WorksOn(s, a, k))
    || ((p == Running || p == PendingDelete || p == Deleting) && q == Deleted && a == Pol(Mark))
    || (p == Deleted && q == PendingDelete && a.Wrk? && a.k.FinishUndeleted? && WorksOn(s, a, k) && k in s.core.hist.lost)
  }

  /** The listing of the poll at hand counts against this record: it should be in vCD and is neither read nor left unread. */
  predicate CountedMiss(s: State, a: Action, r: Instance) {
    && a == Pol(Mark) && s.rec.Marking? && |s.rec.p.answers| == |s.rec.p.listed|
    && (r.phase == Running || r.phase == PendingDelete || r.phase == Deleting)
    && !Present(s.rec.p.listed, s.rec.p.answers, r.id)
  }

  /** The step writes what a poll observed into this record. */
  predicate Refreshes(s: State, a: Action, r: Instance) {
    && a.Pol? && a.p.Refresh? && s.rec.Refreshing? && HasItem(s.rec.p) && Item(s.rec.p).href == r.id && r.id != NO_ID
    && (s.rec.leftover || !a.p.hasVM || a.p.read.Some?)
  }

  function MissesAfter(s: State, a: Action, r: Instance): nat {
    if CountedMiss(s, a, r) then r.missedPolls + 1 else if Refreshes(s, a, r) then 0 else r.missedPolls
  }

  /** The step ends a delete of this record, with evidence that holds of its vApp. */
  predicate EndsDelete(s: State, a: Action, k: Id, href: Id) {
    && a.Wrk? && a.k.FinishDeleted? && WorksOn(s, a, k)
    && s.core.workers[a.w].Deleter? && s.core.workers[a.w].delete.Confirmed? && Sound(s.core, href, s.core.workers[a.w].delete.why)
  }

  /** What makes a record Deleted: enough counted misses, or a delete with its evidence. */
  predicate Evidence(s: State, a: Action, k: Id, r: Instance, r': Instance) {
    || (CountedMiss(s, a, r) && r'.missedPolls >= 3)
    || EndsDelete(s, a, k, r.id)
  }

  /** The record carries the name under which vCD knows its vApp. */
  predicate NamesItself(c: Core, r: Instance) {
    r.id != NO_ID ==> r.id in c.vcd.vapps && r.name == c.vcd.vapps[r.id]
  }

  /** A poll that marks changes nothing but the records that it misses, and the third miss is the last. */
  predicate MarksExactly(s: State, a: Action, r: Instance, r': Instance) {
    a == Pol(Mark) ==>
      if CountedMiss(s, a, r) then r'.phase == if r.missedPolls >= 2 then Deleted else r.phase else r' == r
  }

  /** A failure sets when to try again, an end clears it, and nothing else touches it. */
  function RetryAfter(s: State, a: Action, k: Id, before: Option<Time>): Option<Time> {
    if !WorksOn(s, a, k) then before
    else match a.k
      case Revert(_, delay) => Some(s.now + delay)
      case FinishUndeleted(_, delay) => Some(s.now + delay)
      case Record(_, _, _) => None
      case FinishDeleted => None
      case _ => before
  }

  /** When a record is retried and how often it was, since when its instance runs, and since when it is Deleted. */
  predicate Dated(s: State, a: Action, k: Id, r: Instance, r': Instance) {
    && r'.nextRetryAfter == RetryAfter(s, a, k, r.nextRetryAfter)
    && r'.retryCount == r.retryCount + (if SendsBack(s, a, k) then 1 else 0)
    && r'.createCompletedAt == (if a.Wrk? && a.k.Record? && WorksOn(s, a, k) then Some(s.now) else r.createCompletedAt)
    && (r'.phase == Deleted ==>
          r'.deleteCompletedAt == if r.phase != Deleted || EndsDeleted(s, a, k) then Some(s.now) else r.deleteCompletedAt)
  }

  predicate SendsBack(s: State, a: Action, k: Id) {
    a.Wrk? && (a.k.Revert? || a.k.FinishUndeleted?) && WorksOn(s, a, k)
  }

  predicate EndsDeleted(s: State, a: Action, k: Id) {
    a.Wrk? && a.k.FinishDeleted? && WorksOn(s, a, k)
  }

  predicate Evolves(s: State, a: Action, k: Id, r: Instance, r': Instance) {
    && MarksExactly(s, a, r, r') && Dated(s, a, k, r, r')
    && r'.leftover == r.leftover && (r.id != NO_ID ==> r'.id == r.id)
    && (!r.leftover ==> Edge(s, a, k, r.phase, r'.phase))
    && r'.missedPolls == MissesAfter(s, a, r)
    && (r.phase != Deleted && r'.phase == Deleted ==> Evidence(s, a, k, r, r'))
    && (NamesItself(s.core, r) ==> NamesItself(s.core, r'))
  }

  /** A record stays and evolves, or it is pruned as deleted. */
  predicate StaysOrPruned(s: State, a: Action, t: State, k: Id)
    requires k in s.core.store
  {
    if k in t.core.store then Evolves(s, a, k, s.core.store[k], t.core.store[k])
    else a == Dis(DoPrune) && s.core.store[k].phase == Deleted
  }

  /** A record that the step leaves alone, other than by counting or refreshing it. */
  lemma SameEvolves(s: State, a: Action, t: State, k: Id)
    requires k in s.core.store && k in t.core.store && t.core.store[k] == s.core.store[k]
    requires !a.Pol? || (!a.p.Mark? && !a.p.Refresh?)
    requires WorksOn(s, a, k) ==> !a.k.Record? && !Settles(a.k)
    ensures StaysOrPruned(s, a, t, k)
  {
  }

  lemma OutsideEvolves(s: State, o: Outside, k: Id)
    requires Inv(s) && CanOutside(s.core, o) && k in s.core.store
    ensures StaysOrPruned(s, Out(o), Do(s, Out(o)), k)
  {
    if o.Decrease? {
      DecreaseEvolves(s, o.id, k);
    } else {
      OthersLeaveRecord(s, o, k);
      SameEvolves(s, Out(o), Do(s, Out(o)), k);
    }
  }

  lemma OthersLeaveRecord(s: State, o: Outside, k: Id)
    requires Inv(s) && CanOutside(s.core, o) && k in s.core.store && !o.Decrease?
    ensures k in Do(s, Out(o)).core.store && Do(s, Out(o)).core.store[k] == s.core.store[k]
  {
    assert RecordOk(s.core, k);
  }

  lemma DecreaseEvolves(s: State, id: Id, k: Id)
    requires k in s.core.store
    ensures StaysOrPruned(s, Out(Decrease(id)), Do(s, Out(Decrease(id))), k)
  {
    var r, r' := s.core.store[k], Do(s, Out(Decrease(id))).core.store[k];
    assert r' == r || r' == RequestDelete(r, s.now);
    RequestEvolves(s, id, k, r);
  }

  lemma RequestEvolves(s: State, id: Id, k: Id, r: Instance)
    ensures Evolves(s, Out(Decrease(id)), k, r, r) && Evolves(s, Out(Decrease(id)), k, r, RequestDelete(r, s.now))
  {
  }

  lemma MarkSets(s: State, k: Id)
    requires CanPoll(s, Mark) && k in s.core.store
    ensures var t := Do(s, Pol(Mark));
            k in t.core.store && t.core.store[k] == Missed(s.core.store[k], Known(s.rec.p.listed, s.rec.p.answers), s.now)
  {
  }

  lemma MissedEvolves(s: State, k: Id)
    requires CanPoll(s, Mark) && k in s.core.store && (k in s.core.hist.intents || s.core.store[k].leftover)
    requires s.core.store[k].id == NO_ID <==> s.core.store[k].phase == PendingCreate || s.core.store[k].phase == Creating
    ensures Evolves(s, Pol(Mark), k, s.core.store[k], Missed(s.core.store[k], Known(s.rec.p.listed, s.rec.p.answers), s.now))
  {
    KnownIsPresent(s.rec.p.listed, s.rec.p.answers, s.core.store[k].id);
  }

  lemma MarkEvolves(s: State, k: Id)
    requires Inv(s) && CanPoll(s, Mark) && k in s.core.store
    ensures StaysOrPruned(s, Pol(Mark), Do(s, Pol(Mark)), k)
  {
    assert RecordOk(s.core, k);
    MarkSets(s, k);
    MissedEvolves(s, k);
  }

  lemma RefreshSets(s: State, p: Polled, k: Id)
    requires CanPoll(s, p) && k in s.core.store && p.Refresh?
    ensures var t, r, seen := Do(s, Pol(p)), s.core.store[k], if s.rec.leftover || !p.hasVM then Some(p.status) else p.read;
            && k in t.core.store
            && t.core.store[k] == if Refreshes(s, Pol(p), r) then Refreshed(r, Item(s.rec.p).name, seen.value, s.now) else r
  {
  }

  lemma RefreshEvolves(s: State, p: Polled, k: Id)
    requires Inv(s) && CanPoll(s, p) && k in s.core.store && p.Refresh?
    ensures StaysOrPruned(s, Pol(p), Do(s, Pol(p)), k)
  {
    RefreshSets(s, p, k);
    var v := Item(s.rec.p);
    assert v.href in s.core.vcd.vapps && s.core.vcd.vapps[v.href] == v.name by {
      assert PollOk(s.core, s.rec.p);
    }
    RefreshedEvolves(s, p, k, s.core.store[k]);
  }

  lemma RefreshedEvolves(s: State, p: Polled, k: Id, r: Instance)
    requires CanPoll(s, p) && p.Refresh?
    requires var v := Item(s.rec.p); v.href in s.core.vcd.vapps && s.core.vcd.vapps[v.href] == v.name
    ensures var seen := if s.rec.leftover || !p.hasVM then Some(p.status) else p.read;
            Evolves(s, Pol(p), k, r, if Refreshes(s, Pol(p), r) then Refreshed(r, Item(s.rec.p).name, seen.value, s.now) else r)
  {
  }

  lemma PollEvolves(s: State, p: Polled, k: Id)
    requires Inv(s) && CanPoll(s, p) && k in s.core.store && !p.Mark? && !p.Refresh?
    ensures StaysOrPruned(s, Pol(p), Do(s, Pol(p)), k)
  {
    if p.Adopt? && k == Item(s.rec.p).href {
      assert RecordOk(s.core, k);
      assert k in M.Holders(s.core.store, k);
    }
    SameEvolves(s, Pol(p), Do(s, Pol(p)), k);
  }

  lemma DispatchCreateSets(s: State)
    requires Inv(s) && CanDispatch(s, DispatchCreate)
    ensures var i := s.rec.ids[0];
            && i in s.core.store && s.core.store[i].phase == PendingCreate
            && Do(s, Dis(DispatchCreate)).core.store
               == s.core.store[i := StartCreate(s.core.store[i], s.now).(lastUpdated := Some(s.now))]
  {
    assert s.rec.ids[0] in s.rec.ids;
    UpdateSetsOne(s.core, s.rec.ids[0], r => StartCreate(r, s.now), s.now);
  }

  lemma DispatchCreateEvolves(s: State, k: Id)
    requires Inv(s) && CanDispatch(s, DispatchCreate) && k in s.core.store
    ensures StaysOrPruned(s, Dis(DispatchCreate), Do(s, Dis(DispatchCreate)), k)
  {
    DispatchCreateSets(s);
    if k != s.rec.ids[0] {
      SameEvolves(s, Dis(DispatchCreate), Do(s, Dis(DispatchCreate)), k);
    } else {
      StartCreateEvolves(s, k, s.core.store[k]);
    }
  }

  lemma StartCreateEvolves(s: State, k: Id, r: Instance)
    requires r.phase == PendingCreate
    ensures Evolves(s, Dis(DispatchCreate), k, r, StartCreate(r, s.now).(lastUpdated := Some(s.now)))
  {
  }

  lemma DispatchDeleteSets(s: State)
    requires Inv(s) && CanDispatch(s, DispatchDelete)
    ensures var i := s.rec.ids[0];
            && i in s.core.store && (i in s.core.hist.intents ==> s.core.store[i].phase == PendingDelete)
            && Do(s, Dis(DispatchDelete)).core.store
               == s.core.store[i := StartDelete(s.core.store[i], s.now).(lastUpdated := Some(s.now))]
  {
    assert s.rec.ids[0] in s.rec.ids;
    UpdateSetsOne(s.core, s.rec.ids[0], r => StartDelete(r, s.now), s.now);
  }

  lemma DispatchDeleteEvolves(s: State, k: Id)
    requires Inv(s) && CanDispatch(s, DispatchDelete) && k in s.core.store
    ensures StaysOrPruned(s, Dis(DispatchDelete), Do(s, Dis(DispatchDelete)), k)
  {
    DispatchDeleteSets(s);
    if k != s.rec.ids[0] {
      SameEvolves(s, Dis(DispatchDelete), Do(s, Dis(DispatchDelete)), k);
    } else {
      assert RecordOk(s.core, k);
      StartDeleteEvolves(s, k, s.core.store[k]);
    }
  }

  lemma StartDeleteEvolves(s: State, k: Id, r: Instance)
    requires r.leftover || r.phase == PendingDelete
    ensures Evolves(s, Dis(DispatchDelete), k, r, StartDelete(r, s.now).(lastUpdated := Some(s.now)))
  {
  }

  lemma PruneEvolves(s: State, k: Id)
    requires CanDispatch(s, DoPrune) && k in s.core.store
    ensures StaysOrPruned(s, Dis(DoPrune), Do(s, Dis(DoPrune)), k)
  {
  }

  lemma MarkNextEvolves(s: State, k: Id)
    requires CanDispatch(s, MarkNext) && k in s.core.store
    ensures StaysOrPruned(s, Dis(MarkNext), Do(s, Dis(MarkNext)), k)
  {
  }

  lemma DispatchLeavesStore(s: State, d: Dispatched)
    requires CanDispatch(s, d) && !d.DispatchCreate? && !d.DispatchDelete? && !d.DoPrune? && !d.MarkNext? && !d.NeverCreatedDelete?
    ensures DoDispatch(s, d).core.store == s.core.store
  {
  }

  lemma DispatchMoveEvolves(s: State, d: Dispatched, k: Id)
    requires Inv(s) && CanDispatch(s, d) && k in s.core.store && !d.DispatchCreate? && !d.DispatchDelete?
    requires !d.DoPrune? && !d.MarkNext?
    ensures StaysOrPruned(s, Dis(d), Do(s, Dis(d)), k)
  {
    if d.NeverCreatedDelete? {
      NeverCreatedDeleteIsDead(s);
    } else {
      DispatchLeavesStore(s, d);
      SameEvolves(s, Dis(d), Do(s, Dis(d)), k);
    }
  }

  lemma DispatchEvolves(s: State, d: Dispatched, k: Id)
    requires Inv(s) && CanDispatch(s, d) && k in s.core.store
    ensures StaysOrPruned(s, Dis(d), Do(s, Dis(d)), k)
  {
    if d.DispatchCreate? {
      DispatchCreateEvolves(s, k);
    } else if d.DispatchDelete? {
      DispatchDeleteEvolves(s, k);
    } else if d.DoPrune? {
      PruneEvolves(s, k);
    } else if d.MarkNext? {
      MarkNextEvolves(s, k);
    } else {
      DispatchMoveEvolves(s, d, k);
    }
  }

  /** What the end of a create writes, and where. */
  function Finished(s: State, w: nat, a: Work, r: Instance): Instance
    requires CanWork(s.core, w, a) && a.Record?
  {
    var me := s.core.workers[w];
    FinishCreate(r, me.create.href, me.create.name, a.vmName, a.ip, a.osType, s.now).(lastUpdated := Some(s.now))
  }

  lemma RecordSets(s: State, w: nat, a: Work)
    requires Inv(s) && CanWork(s.core, w, a) && a.Record?
    ensures var me, d := s.core.workers[w], Do(s, Wrk(w, a)).core;
            && me.intent in s.core.store && s.core.store[me.intent].phase == Creating && s.core.store[me.intent].id == NO_ID
            && me.create.href in s.core.vcd.vapps && s.core.vcd.vapps[me.create.href] == me.create.name
            && d.store == s.core.store[me.intent := Finished(s, w, a, s.core.store[me.intent])]
  {
    assert WorkerOk(s.core, w) && RecordOk(s.core, s.core.workers[w].intent);
    NoDuplicateToRemove(s.core, w);
  }

  lemma FinishedCreateEvolves(s: State, w: nat, a: Work, r: Instance)
    requires CanWork(s.core, w, a) && a.Record? && r.phase == Creating && r.id == NO_ID
    requires var me := s.core.workers[w]; me.create.href in s.core.vcd.vapps && s.core.vcd.vapps[me.create.href] == me.create.name
    ensures Evolves(s, Wrk(w, a), s.core.workers[w].intent, r, Finished(s, w, a, r))
  {
  }

  lemma RecordEvolves(s: State, w: nat, a: Work, k: Id)
    requires Inv(s) && CanWork(s.core, w, a) && k in s.core.store && a.Record?
    ensures StaysOrPruned(s, Wrk(w, a), Do(s, Wrk(w, a)), k)
  {
    RecordSets(s, w, a);
    if k != s.core.workers[w].intent {
      SameEvolves(s, Wrk(w, a), Do(s, Wrk(w, a)), k);
    } else {
      FinishedCreateEvolves(s, w, a, s.core.store[k]);
    }
  }

  /** A worker's last update touches its own record only. */
  lemma SettleTouchesOne(s: State, w: nat, a: Work, k: Id)
    requires Inv(s) && CanWork(s.core, w, a) && Settles(a) && k in s.core.store
    requires var me := s.core.workers[w]; k != if me.Creator? then me.intent else me.key
    ensures StaysOrPruned(s, Wrk(w, a), Do(s, Wrk(w, a)), k)
  {
    SettlesToBase(s.core, w, a, s.now);
    SameEvolves(s, Wrk(w, a), Do(s, Wrk(w, a)), k);
  }

  lemma SettleSetsFinal(s: State, w: nat, a: Work, k: Id)
    requires Inv(s) && CanWork(s.core, w, a) && Settles(a) && k in s.core.store
    requires var me := s.core.workers[w]; k == if me.Creator? then me.intent else me.key
    ensures var d := Do(s, Wrk(w, a)).core;
            k in d.store && d.store[k] == Final(a, s.now)(s.core.store[k]).(lastUpdated := Some(s.now))
  {
    SettlesToBase(s.core, w, a, s.now);
  }

  lemma FinisherOf(s: State, w: nat, k: Id)
    requires Inv(s) && CanWork(s.core, w, FinishDeleted) && k in s.core.store && s.core.workers[w].key == k
    ensures var r := s.core.store[k]; (r.leftover || r.phase == Deleting || r.phase == Deleted) && Sound(s.core, r.id, s.core.workers[w].delete.why)
  {
    assert RecordOk(s.core, k) && WorkerOk(s.core, w);
  }

  lemma FinishedEvolves(s: State, w: nat, k: Id, r: Instance)
    requires CanWork(s.core, w, FinishDeleted) && s.core.workers[w].key == k
    requires (r.leftover || r.phase == Deleting || r.phase == Deleted) && Sound(s.core, r.id, s.core.workers[w].delete.why)
    ensures Evolves(s, Wrk(w, FinishDeleted), k, r, FinishDelete(r, s.now).(lastUpdated := Some(s.now)))
  {
  }

  lemma FinishEvolves(s: State, w: nat, k: Id)
    requires Inv(s) && CanWork(s.core, w, FinishDeleted) && k in s.core.store
    ensures StaysOrPruned(s, Wrk(w, FinishDeleted), Do(s, Wrk(w, FinishDeleted)), k)
  {
    if s.core.workers[w].key != k {
      SettleTouchesOne(s, w, FinishDeleted, k);
    } else {
      SettleSetsFinal(s, w, FinishDeleted, k);
      FinisherOf(s, w, k);
      FinishedEvolves(s, w, k, s.core.store[k]);
    }
  }

  /** The phases from which a failed worker sends its record back. */
  predicate GoesBack(s: State, a: Work, k: Id, r: Instance) {
    r.leftover || (if a.Revert? then r.phase == Creating else r.phase == Deleting || (r.phase == Deleted && k in s.core.hist.lost))
  }

  lemma SentBackEvolves(s: State, w: nat, a: Work, k: Id, r: Instance)
    requires CanWork(s.core, w, a) && (a.Revert? || a.FinishUndeleted?) && WorksOn(s, Wrk(w, a), k) && GoesBack(s, a, k, r)
    ensures Evolves(s, Wrk(w, a), k, r, Final(a, s.now)(r).(lastUpdated := Some(s.now)))
  {
  }

  lemma SenderOf(s: State, w: nat, a: Work, k: Id)
    requires Inv(s) && CanWork(s.core, w, a) && (a.Revert? || a.FinishUndeleted?) && k in s.core.store
    requires k == if a.Revert? then s.core.workers[w].intent else s.core.workers[w].key
    ensures GoesBack(s, a, k, s.core.store[k])
  {
    assert RecordOk(s.core, k) && WorkerOk(s.core, w);
  }

  lemma SendBackEvolves(s: State, w: nat, a: Work, k: Id)
    requires Inv(s) && CanWork(s.core, w, a) && k in s.core.store && (a.Revert? || a.FinishUndeleted?)
    ensures StaysOrPruned(s, Wrk(w, a), Do(s, Wrk(w, a)), k)
  {
    if k != if a.Revert? then s.core.workers[w].intent else s.core.workers[w].key {
      SettleTouchesOne(s, w, a, k);
    } else {
      SettleSetsFinal(s, w, a, k);
      SenderOf(s, w, a, k);
      SentBackEvolves(s, w, a, k, s.core.store[k]);
    }
  }

  lemma WorkLeavesStore(c: Core, w: nat, a: Work, now: Time)
    requires CanWork(c, w, a) && !a.Record? && !Settles(a)
    ensures AfterWork(c, w, a, now).store == c.store
  {
  }

  lemma WorkEvolves(s: State, w: nat, a: Work, k: Id)
    requires CanWork(s.core, w, a) && k in s.core.store && !a.Record? && !Settles(a)
    ensures StaysOrPruned(s, Wrk(w, a), Do(s, Wrk(w, a)), k)
  {
    WorkLeavesStore(s.core, w, a, s.now);
    SameEvolves(s, Wrk(w, a), Do(s, Wrk(w, a)), k);
  }

  lemma WorkerEvolves(s: State, w: nat, x: Work, k: Id)
    requires Inv(s) && CanWork(s.core, w, x) && k in s.core.store
    ensures StaysOrPruned(s, Wrk(w, x), Do(s, Wrk(w, x)), k)
  {
    if x.Record? {
      RecordEvolves(s, w, x, k);
    } else if x.FinishDeleted? {
      FinishEvolves(s, w, k);
    } else if x.Revert? || x.FinishUndeleted? {
      SendBackEvolves(s, w, x, k);
    } else {
      WorkEvolves(s, w, x, k);
    }
  }

  lemma StepEvolves(s: State, a: Action, k: Id)
    requires Inv(s) && Can(s, a) && k in s.core.store
    ensures StaysOrPruned(s, a, Do(s, a), k)
  {
    match a
    case Tick(_) =>
    case Out(o) => OutsideEvolves(s, o, k);
    case Pol(p) =>
      if p.Mark? {
        MarkEvolves(s, k);
      } else if p.Refresh? {
        RefreshEvolves(s, p, k);
      } else {
        PollEvolves(s, p, k);
      }
    case Dis(d) => DispatchEvolves(s, d, k);
    case Wrk(w, x) => WorkerEvolves(s, w, x, k);
  }
}
