/**
 * The reconciliation protocol as a step system. The reconcile goroutine polls and dispatches; create,
 * delete and cleanup workers finish in any order; callers add and remove instances; vCD commits POSTs
 * late, and its listings may be stale or incomplete. Each action is one atomic step: one store method, one
 * operation on a shared map, or one event in vCD, together with steps no other goroutine can see.
 */
module Protocol {
  import opened Basics
  import opened Lifecycle
  import opened Listing
  import M = StoreModel
  import Breaker
  import D = VcdDelete
  import VcdCleanup
  import opened Backoff

  /** How long a lost POST may take to become visible. */
  const SAFE_CALL_MAX_ELAPSED: Time := 5 * MINUTE

  // Goroutines.

  datatype CreatePC =
    | Preparing                    // no name registered yet
    | Building(name: Id)           // in flight: the POST and everything after it
    | Built(name: Id, href: Id)    // createInstance returned the vApp
    | Counted(name: Id, href: Id)  // the breaker knows; the HREF is stored next
    | Recorded(name: Id)           // the store knows the HREF; createRecorded is next
    | Abandoning(name: Id)         // awaiting cleanup; leaves the in-flight names next
    | Failed                       // createInstance returned an error
    | Reverting                    // the breaker knows; the record goes back next

  datatype DeletePC = Asking | Confirmed(why: D.Evidence) | Unconfirmed

  datatype Retirement = CleanedUp(href: Id, why: D.Evidence) | NeverSeen(requestedAt: Time, at: Time, miss: VcdCleanup.Miss)

  datatype CleanupPC = Cleaning | Retiring(why: Retirement) | Leaving

  datatype Worker =
    | Creator(intent: Id, create: CreatePC)
    | Deleter(key: Id, href: Id, delete: DeletePC)
    | Cleaner(name: Id, requestedAt: Time, cleanup: CleanupPC)

  /** One poll: what was listed, what each read answered, and the position among the vApps read. */
  datatype Poll = Poll(listed: seq<Listed>, answers: seq<Answer>, vApps: seq<Listed>, next: nat)

  datatype Reconciler =
    | Idle
    | Polling(p: Poll)
    | CheckInflight(p: Poll)               // untracked: is its create in flight?
    | CheckFailed(p: Poll)                 // no: does it await cleanup?
    | Adopting(p: Poll)                    // no: add it as a leftover
    | Refreshing(p: Poll, leftover: bool)  // tracked: update what was observed
    | Sizing(p: Poll)
    | Marking(p: Poll)
    | Holding(ok: bool, p: Poll)
    | PickCreates
    | ListingCreates
    | DispatchingCreates(ids: seq<Id>)
    | PickDeletes
    | DispatchingDeletes(ids: seq<Id>, hrefs: map<Id, Id>)
    | Cleanups
    | Picked(name: Id, requestedAt: Time)
    | Claimed(name: Id, requestedAt: Time)
    | PickGC
    | MarkingGC(ids: seq<Id>)
    | Pruning

  // Shared state.

  /** inflightCreates, failedCreateCleanups and backgroundDeletes. */
  datatype Names = Names(inflight: set<Id>, failed: map<Id, Time>, background: set<Id>)

  /** startupHold, startupPolled and startedAt. */
  datatype Hold = Hold(on: bool, polled: bool, startedAt: Time) {

    /** The timeout counts from the first complete poll; the hold ends with the leftovers or with the timeout. */
    function After(pollOk: bool, done: bool, timeout: Time, now: Time): Hold {
      if !on then this
      else
        var h := if pollOk && !polled then Hold(true, true, now) else this;
        if h.polled && (done || now - h.startedAt >= timeout) then h.(on := false) else h
    }
  }

  /** Every vApp there ever was, by HREF, with its name; and those that exist. */
  datatype Vcd = Vcd(vapps: map<Id, Id>, existing: set<Id>)

  /** What made a record Deleted: three polls that omitted it, or a delete with its evidence. */
  datatype Reason = Omitted | Deletion(why: D.Evidence)

  /** What happened so far; no action depends on it except that new ids and names are new. */
  datatype History = History(
    intents: set<Id>,                // handed out by Increase
    registered: set<Id>,             // names createInstance registered
    dispatchedTo: map<Id, nat>,         // the worker last dispatched for an intent
    holder: map<Id, nat>,            // the create that registered a name
    recorded: map<Id, (Id, Id)>,     // the intent and HREF a name was recorded under
    retired: map<Id, Retirement>,    // names whose cleanup ended, and why
    cleaner: map<Id, nat>,           // the cleanup last dispatched for a name
    requested: map<Id, Time>,        // when the cleanup of a name was requested
    unseen: set<(Id, Time)>,         // when a lookup of a name found nothing
    reasons: map<Id, Reason>,        // what last made a record Deleted
    pruned: set<Id>,                 // intents removed from the store
    lost: set<Id>,                   // intents that listings marked deleted while a delete was in flight
    spawned: nat)                    // workers started so far

  /** What more than one goroutine can see. */
  datatype Core = Core(store: M.Records, names: Names, workers: map<nat, Worker>, vcd: Vcd, hist: History)

  datatype State = State(core: Core, rec: Reconciler, hold: Hold, breaker: Breaker.Live, now: Time)

  const NO_HISTORY := History({}, {}, map[], map[], map[], map[], map[], map[], {}, map[], {}, {}, 0)

  const INITIAL := State(Core(map[], Names({}, map[], {}), map[], Vcd(map[], {}), NO_HISTORY), Idle,
                         Hold(true, false, 0), Breaker.CLOSED, 0)

  // Callers and vCD.

  datatype Outside =
    | Increase(id: Id)
    | Decrease(id: Id)
    | Commit(name: Id, href: Id)   // a POST of this process takes effect
    | Foreign(href: Id, name: Id)  // a vApp of someone else, or of a previous run
    | Vanish(href: Id)

  predicate CanOutside(c: Core, a: Outside) {
    match a
    case Increase(id) => id !in c.hist.intents && id !in c.vcd.vapps
    case Decrease(_) => true
    case Commit(name, href) => name in c.hist.registered && FreshHref(c, href)
    case Foreign(href, name) => name !in c.hist.registered && FreshHref(c, href)
    case Vanish(_) => true
  }

  predicate FreshHref(c: Core, href: Id) {
    href != NO_ID && href !in c.vcd.vapps && href !in c.hist.intents
  }

  function AfterOutside(c: Core, a: Outside, now: Time): Core
    requires CanOutside(c, a)
  {
    match a
    case Increase(id) =>
      c.(store := M.AddCreateIntent(c.store, id, now), hist := c.hist.(intents := c.hist.intents + {id}))
    case Decrease(id) => c.(store := M.MarkForDeletion(c.store, id, now))
    case Commit(name, href) => AddVApp(c, href, name)
    case Foreign(href, name) => AddVApp(c, href, name)
    case Vanish(href) => Removed(c, href)
  }

  function AddVApp(c: Core, href: Id, name: Id): Core {
    c.(vcd := Vcd(c.vcd.vapps[href := name], c.vcd.existing + {href}))
  }

  function Removed(c: Core, href: Id): Core {
    c.(vcd := c.vcd.(existing := c.vcd.existing - {href}))
  }

  // The reconcile goroutine: poll.

  datatype Polled =
    | ListFails
    | List(listed: seq<Listed>, answers: seq<Answer>)
    | Lookup
    | LoadInflight
    | LoadFailed
    | Adopt
    | Refresh(hasVM: bool, status: Observed, read: Option<Observed>)
    | EndReads
    | CheckSize
    | Mark
    | CheckHold(timeout: Time)
    | Panic

  /** A listing may omit vApps and may be stale, but it names only vApps that there are or were. */
  predicate Honest(c: Core, listed: seq<Listed>) {
    forall i :: 0 <= i < |listed| ==> listed[i].href in c.vcd.vapps && c.vcd.vapps[listed[i].href] == listed[i].name
  }

  /** vCD answers a read with not-found only when there is no such vApp; the text of other errors binds it to nothing. */
  predicate Denied(c: Core, listed: seq<Listed>, answers: seq<Answer>)
    requires |answers| == |listed|
  {
    forall i :: 0 <= i < |listed| && answers[i] == NotFound ==> listed[i].href !in c.vcd.existing
  }

  predicate HasItem(p: Poll) {
    p.next < |p.vApps|
  }

  function Item(p: Poll): Listed
    requires HasItem(p)
  {
    p.vApps[p.next]
  }

  function NextItem(p: Poll): Poll {
    p.(next := p.next + 1)
  }

  predicate Complete(p: Poll)
    requires |p.answers| == |p.listed|
  {
    FirstFailure(p.answers) == |p.listed|
  }

  predicate CanPoll(s: State, a: Polled) {
    match a
    case ListFails => s.rec.Idle?
    case List(listed, answers) => s.rec.Idle? && |listed| == |answers| && Honest(s.core, listed) && Denied(s.core, listed, answers)
    case Lookup => s.rec.Polling? && HasItem(s.rec.p)
    case LoadInflight => s.rec.CheckInflight? && HasItem(s.rec.p)
    case LoadFailed => s.rec.CheckFailed? && HasItem(s.rec.p)
    case Adopt => s.rec.Adopting? && HasItem(s.rec.p)
    case Refresh(_, _, _) => s.rec.Refreshing? && HasItem(s.rec.p)
    case EndReads => s.rec.Polling? && !HasItem(s.rec.p)
    case CheckSize => s.rec.Sizing? && |s.rec.p.answers| == |s.rec.p.listed|
    case Mark => s.rec.Marking? && |s.rec.p.answers| == |s.rec.p.listed|
    case CheckHold(_) => s.rec.Holding?
    case Panic => true
  }

  function DoPoll(s: State, a: Polled): State
    requires CanPoll(s, a)
  {
    match a
    case ListFails => s.(rec := Holding(false, Poll([], [], [], 0)))
    case List(listed, answers) =>
      var stop := FirstFailure(answers);
      s.(rec := Polling(Poll(listed, answers, FoundIn(listed[..stop], answers[..stop]), 0)))
    case Lookup =>
      var p := s.rec.p;
      var holders := M.Holders(s.core.store, Item(p).href);
      s.(rec := if holders == {} then CheckInflight(p)
                else Refreshing(p, forall k :: k in holders ==> s.core.store[k].leftover))
    case LoadInflight =>
      var p := s.rec.p;
      s.(rec := if Item(p).name in s.core.names.inflight then Polling(NextItem(p)) else CheckFailed(p))
    case LoadFailed =>
      var p := s.rec.p;
      s.(rec := if Item(p).name in s.core.names.failed then Polling(NextItem(p)) else Adopting(p))
    case Adopt => s.(core := Adopted(s.core, Item(s.rec.p), s.now), rec := Polling(NextItem(s.rec.p)))
    case Refresh(hasVM, status, read) =>
      var seen := if s.rec.leftover || !hasVM then Some(status) else read;
      s.(core := Observe(s.core, Item(s.rec.p), seen, s.now), rec := Polling(NextItem(s.rec.p)))
    case EndReads => s.(rec := Sizing(s.rec.p))
    case CheckSize =>
      // An empty listing counts only when there is nothing left to miss.
      var p := s.rec.p;
      s.(rec := if Known(p.listed, p.answers) != {} || M.Matching(s.core.store, Undeleted) == {} then Marking(p)
                else Holding(Complete(p), p))
    case Mark =>
      var p := s.rec.p;
      s.(core := Marked(s.core, Known(p.listed, p.answers), s.now), rec := Holding(Complete(p), p))
    case CheckHold(timeout) => s.(hold := HoldAfter(s, s.rec.ok, timeout), rec := PickCreates)
    case Panic => s.(rec := Idle)
  }

  function Adopted(c: Core, v: Listed, now: Time): Core {
    c.(store := M.AddLeftover(c.store, v.href, v.name, now))
  }

  function Observe(c: Core, v: Listed, seen: Option<Observed>, now: Time): Core {
    if seen.None? then c else c.(store := M.UpdateFromVCD(c.store, v.href, v.name, seen.value, now))
  }

  function Marked(c: Core, known: set<Id>, now: Time): Core {
    var marked := M.MarkDisappeared(c.store, known, now);
    var lost := set k | k in c.store && c.store[k].phase == Deleting && marked[k].phase == Deleted;
    var omitted := map k | k in c.store && c.store[k].phase != Deleted && marked[k].phase == Deleted :: Omitted;
    c.(store := marked, hist := c.hist.(lost := c.hist.lost + lost, reasons := c.hist.reasons + omitted))
  }

  function HoldAfter(s: State, ok: bool, timeout: Time): Hold {
    s.hold.After(ok, M.Matching(s.core.store, PendingLeftover) == {}, timeout, s.now)
  }

  // The reconcile goroutine: dispatch.

  datatype Dispatched =
    | SkipCreates
    | OpenCreates
    | SnapCreates(ids: seq<Id>)
    | DispatchCreate
    | EndCreates
    | SnapDeletes(ids: seq<Id>)
    | DispatchDelete
    | NeverCreatedDelete
    | EndDeletes
    | PickCleanup(name: Id)
    | Claim
    | Unclaim
    | DispatchCleanup
    | EndCleanups
    | SnapGC(ids: seq<Id>)
    | MarkNext
    | EndGC
    | DoPrune

  /** The ids of the chosen records, each once, in some order. */
  predicate Snapshot(ids: seq<Id>, chosen: set<Id>) {
    (forall k :: k in ids ==> k in chosen) && (forall k :: k in chosen ==> k in ids) && NoDuplicates(ids)
  }

  predicate NoDuplicates(ids: seq<Id>) {
    forall i, j :: 0 <= i < j < |ids| ==> ids[i] != ids[j]
  }

  predicate CanDispatch(s: State, a: Dispatched) {
    match a
    case SkipCreates => s.rec.PickCreates? && (s.hold.on || s.breaker.Blocks(s.now))
    case OpenCreates => s.rec.PickCreates? && !s.hold.on && !s.breaker.Blocks(s.now)
    case SnapCreates(ids) => s.rec.ListingCreates? && Snapshot(ids, M.Matching(s.core.store, r => ReadyToCreate(r, s.now)))
    case DispatchCreate => s.rec.DispatchingCreates? && s.rec.ids != []
    case EndCreates => s.rec.DispatchingCreates?
    case SnapDeletes(ids) => s.rec.PickDeletes? && Snapshot(ids, M.Matching(s.core.store, r => ReadyToDelete(r, s.now)))
    case DispatchDelete => NextDelete(s) && s.rec.hrefs[s.rec.ids[0]] != NO_ID
    case NeverCreatedDelete => NextDelete(s) && s.rec.hrefs[s.rec.ids[0]] == NO_ID
    case EndDeletes => s.rec.DispatchingDeletes?
    case PickCleanup(name) => s.rec.Cleanups? && name in s.core.names.failed
    case Claim => s.rec.Picked?
    case Unclaim => s.rec.Claimed?
    case DispatchCleanup => s.rec.Claimed?
    case EndCleanups => s.rec.Cleanups?
    case SnapGC(_) => s.rec.PickGC?
    case MarkNext => s.rec.MarkingGC? && s.rec.ids != []
    case EndGC => s.rec.PickGC? || s.rec.MarkingGC?
    case DoPrune => s.rec.Pruning?
  }

  predicate NextDelete(s: State) {
    s.rec.DispatchingDeletes? && s.rec.ids != [] && s.rec.ids[0] in s.rec.hrefs
  }

  function Spawn(c: Core, w: Worker): Core {
    c.(workers := c.workers[c.hist.spawned := w], hist := c.hist.(spawned := c.hist.spawned + 1))
  }

  function Update(c: Core, k: Id, f: Instance -> Instance, now: Time): Core {
    c.(store := M.UpdateInstance(c.store, k, f, now))
  }

  function Assign(c: Core, k: Id): Core {
    c.(hist := c.hist.(dispatchedTo := c.hist.dispatchedTo[k := c.hist.spawned], lost := c.hist.lost - {k}))
  }

  function CreateStarted(c: Core, k: Id, now: Time): Core {
    Spawn(Assign(Update(c, k, r => StartCreate(r, now), now), k), Creator(k, Preparing))
  }

  function DeleteStarted(c: Core, k: Id, href: Id, now: Time): Core {
    Spawn(Assign(Update(c, k, r => StartDelete(r, now), now), k), Deleter(k, href, Asking))
  }

  function WithBackground(c: Core, background: set<Id>): Core {
    c.(names := c.names.(background := background))
  }

  function CleanupStarted(c: Core, name: Id, requestedAt: Time): Core {
    Spawn(c.(hist := c.hist.(cleaner := c.hist.cleaner[name := c.hist.spawned])), Cleaner(name, requestedAt, Cleaning))
  }

  function Pruned(c: Core, now: Time): Core {
    c.(store := M.Prune(c.store, now),
       hist := c.hist.(pruned := c.hist.pruned + set k | k in c.store && Prunable(c.store[k], now)))
  }

  function DoDispatch(s: State, a: Dispatched): State
    requires CanDispatch(s, a)
  {
    match a
    case SkipCreates => s.(rec := PickDeletes)
    case OpenCreates => s.(rec := ListingCreates)
    case SnapCreates(ids) => s.(rec := DispatchingCreates(ids))
    case DispatchCreate =>
      s.(core := CreateStarted(s.core, s.rec.ids[0], s.now), rec := DispatchingCreates(s.rec.ids[1..]))
    case EndCreates => s.(rec := PickDeletes)
    case SnapDeletes(ids) => s.(rec := DispatchingDeletes(ids, map k | k in s.core.store :: s.core.store[k].id))
    case DispatchDelete =>
      var k := s.rec.ids[0];
      s.(core := DeleteStarted(s.core, k, s.rec.hrefs[k], s.now), rec := s.rec.(ids := s.rec.ids[1..]))
    case NeverCreatedDelete =>
      s.(core := Update(s.core, s.rec.ids[0], r => NeverCreated(r, s.now), s.now), rec := s.rec.(ids := s.rec.ids[1..]))
    case EndDeletes => s.(rec := Cleanups)
    case PickCleanup(name) => s.(rec := Picked(name, s.core.names.failed[name]))
    case Claim =>
      if s.rec.name in s.core.names.background then s.(rec := Cleanups)
      else s.(core := WithBackground(s.core, s.core.names.background + {s.rec.name}), rec := Claimed(s.rec.name, s.rec.requestedAt))
    case Unclaim => s.(core := WithBackground(s.core, s.core.names.background - {s.rec.name}), rec := PickGC)
    case DispatchCleanup => s.(core := CleanupStarted(s.core, s.rec.name, s.rec.requestedAt), rec := Cleanups)
    case EndCleanups => s.(rec := PickGC)
    case SnapGC(ids) => s.(rec := MarkingGC(ids))
    case MarkNext =>
      s.(core := s.core.(store := M.MarkGC(s.core.store, s.rec.ids[0], s.now)), rec := MarkingGC(s.rec.ids[1..]))
    case EndGC => s.(rec := Pruning)
    case DoPrune => s.(core := Pruned(s.core, s.now), rec := Idle)
  }

  // Workers.

  datatype Work =
    | Register(name: Id)
    | PrepareFails
    | BuildReturns(href: Id)
    | BuildFails                       // the name joins the failed-create cleanups
    | DropInflight
    | CountFailure(u: Random)
    | Revert(error: string, delay: Time)
    | CountSuccess
    | Record(vmName: string, ip: string, osType: string)
    | Release                          // createRecorded
    | DeleteSucceeds(why: D.Evidence)
    | DeleteFails
    | FinishDeleted
    | FinishUndeleted(error: string, delay: Time)
    | CleanupSucceeds(href: Id, why: D.Evidence)
    | CleanupNotFound(miss: VcdCleanup.Miss)
    | CleanupFails
    | Retire
    | Leave

  predicate Convincing(why: D.Evidence) {
    match why
    case ReadNotFound(e) => e.notFound
    case TaskSucceeded(_) => true
    case TextOnly(e) => e.notFound
  }

  /** What vCD guarantees of a delete that counts as done. */
  predicate Possible(c: Core, href: Id, why: D.Evidence) {
    Convincing(why) && (why.ReadNotFound? ==> href !in c.vcd.existing)
  }

  predicate CanWork(c: Core, w: nat, a: Work) {
    w in c.workers &&
    var me := c.workers[w];
    match a
    case Register(name) =>
      && me.Creator? && me.create.Preparing?
      && name !in c.hist.registered && name !in c.vcd.vapps.Values
    case PrepareFails => me.Creator? && me.create.Preparing?
    case BuildReturns(href) =>
      me.Creator? && me.create.Building? && href in c.vcd.vapps && c.vcd.vapps[href] == me.create.name
    case BuildFails => me.Creator? && me.create.Building?
    case DropInflight => me.Creator? && me.create.Abandoning?
    case CountFailure(_) => me.Creator? && me.create.Failed?
    case Revert(_, _) => me.Creator? && me.create.Reverting?
    case CountSuccess => me.Creator? && me.create.Built?
    case Record(_, _, _) => me.Creator? && me.create.Counted?
    case Release => me.Creator? && me.create.Recorded?
    case DeleteSucceeds(why) => me.Deleter? && me.delete.Asking? && Possible(c, me.href, why)
    case DeleteFails => me.Deleter? && me.delete.Asking?
    case FinishDeleted => me.Deleter? && me.delete.Confirmed?
    case FinishUndeleted(_, _) => me.Deleter? && me.delete.Unconfirmed?
    case CleanupSucceeds(href, why) =>
      me.Cleaner? && me.cleanup.Cleaning? && href in c.vcd.vapps && c.vcd.vapps[href] == me.name && Possible(c, href, why)
    case CleanupNotFound(miss) => me.Cleaner? && me.cleanup.Cleaning? && miss.error.sentinel
    case CleanupFails => me.Cleaner? && me.cleanup.Cleaning?
    case Retire => me.Cleaner? && me.cleanup.Retiring?
    case Leave => me.Cleaner? && me.cleanup.Leaving?
  }

  function Become(c: Core, w: nat, me: Worker): Core {
    c.(workers := c.workers[w := me])
  }

  function End(c: Core, w: nat): Core {
    c.(workers := c.workers - {w})
  }

  function WithNames(c: Core, inflight: set<Id>, failed: map<Id, Time>): Core {
    c.(names := c.names.(inflight := inflight, failed := failed))
  }

  function Registered(c: Core, w: nat, name: Id): Core {
    WithNames(c, c.names.inflight + {name}, c.names.failed)
    .(hist := c.hist.(registered := c.hist.registered + {name}, holder := c.hist.holder[name := w]))
  }

  /** LoadOrStore: the first request keeps its time. */
  function CleanupRequested(c: Core, name: Id, now: Time): Core {
    if name in c.names.failed then c
    else
      WithNames(c, c.names.inflight, c.names.failed[name := now])
      .(hist := c.hist.(requested := c.hist.requested[name := now]))
  }

  /** Only a lookup of the name itself says that there is nothing of that name. */
  function Unseen(c: Core, name: Id, miss: VcdCleanup.Miss, now: Time): Core {
    if miss.OtherMissing? then c else c.(hist := c.hist.(unseen := c.hist.unseen + {(name, now)}))
  }

  function Explained(c: Core, k: Id, why: D.Evidence): Core {
    c.(hist := c.hist.(reasons := c.hist.reasons[k := Deletion(why)]))
  }

  /** A delete task that succeeds removes the vApp; other evidence leaves vCD as it is. */
  function Erased(c: Core, href: Id, why: D.Evidence): Core {
    if why.TaskSucceeded? then Removed(c, href) else c
  }

  function InflightDropped(c: Core, name: Id): Core {
    WithNames(c, c.names.inflight - {name}, c.names.failed)
  }

  function HrefStored(c: Core, k: Id, href: Id, name: Id, vmName: string, ip: string, osType: string, now: Time): Core {
    Update(c, k, r => FinishCreate(r, href, name, vmName, ip, osType, now), now)
    .(hist := c.hist.(recorded := c.hist.recorded[name := (k, href)]))
  }

  function Retired(c: Core, name: Id, why: Retirement): Core {
    WithNames(c, c.names.inflight, c.names.failed - {name})
    .(hist := if name in c.names.failed then c.hist.(retired := c.hist.retired[name := why]) else c.hist)
  }

  function AfterWork(c: Core, w: nat, a: Work, now: Time): Core
    requires CanWork(c, w, a)
  {
    var me := c.workers[w];
    match a
    case Register(name) => Become(Registered(c, w, name), w, me.(create := Building(name)))
    case PrepareFails => Become(c, w, me.(create := Failed))
    case BuildReturns(href) => Become(c, w, me.(create := Built(me.create.name, href)))
    case BuildFails => Become(CleanupRequested(c, me.create.name, now), w, me.(create := Abandoning(me.create.name)))
    case DropInflight => Become(InflightDropped(c, me.create.name), w, me.(create := Failed))
    case CountFailure(_) => Become(c, w, me.(create := Reverting))
    case Revert(error, delay) => End(Update(c, me.intent, r => FailCreate(r, error, delay, now), now), w)
    case CountSuccess => Become(c, w, me.(create := Counted(me.create.name, me.create.href)))
    case Record(vmName, ip, osType) =>
      Become(HrefStored(c, me.intent, me.create.href, me.create.name, vmName, ip, osType, now), w,
             me.(create := Recorded(me.create.name)))
    case Release => End(InflightDropped(c, me.create.name), w)
    case DeleteSucceeds(why) => Become(Erased(c, me.href, why), w, me.(delete := Confirmed(why)))
    case DeleteFails => Become(c, w, me.(delete := Unconfirmed))
    case FinishDeleted => End(Explained(Update(c, me.key, r => FinishDelete(r, now), now), me.key, me.delete.why), w)
    case FinishUndeleted(error, delay) => End(Update(c, me.key, r => FailDelete(r, error, delay, now), now), w)
    case CleanupSucceeds(href, why) => Become(Erased(c, href, why), w, me.(cleanup := Retiring(CleanedUp(href, why))))
    case CleanupNotFound(miss) =>
      Become(Unseen(c, me.name, miss, now), w,
             me.(cleanup := if now - me.requestedAt >= SAFE_CALL_MAX_ELAPSED then Retiring(NeverSeen(me.requestedAt, now, miss)) else Leaving))
    case CleanupFails => Become(c, w, me.(cleanup := Leaving))
    case Retire => Become(Retired(c, me.name, me.cleanup.why), w, me.(cleanup := Leaving))
    case Leave => End(WithBackground(c, c.names.background - {me.name}), w)
  }

  function BreakerAfter(s: State, a: Work): Breaker.Live {
    match a
    case CountFailure(u) => s.breaker.After(Breaker.Failed(s.now, u))
    case CountSuccess => s.breaker.After(Breaker.Succeeded(s.now))
    case _ => s.breaker
  }

  // Runs.

  datatype Action = Tick(ns: nat) | Out(o: Outside) | Pol(p: Polled) | Dis(d: Dispatched) | Wrk(w: nat, k: Work)

  predicate Can(s: State, a: Action) {
    match a
    case Tick(_) => true
    case Out(o) => CanOutside(s.core, o)
    case Pol(p) => CanPoll(s, p)
    case Dis(d) => CanDispatch(s, d)
    case Wrk(w, k) => CanWork(s.core, w, k)
  }

  function Do(s: State, a: Action): State
    requires Can(s, a)
  {
    match a
    case Tick(d) => s.(now := s.now + d)
    case Out(o) => s.(core := AfterOutside(s.core, o, s.now))
    case Pol(p) => DoPoll(s, p)
    case Dis(d) => DoDispatch(s, d)
    case Wrk(w, k) => s.(core := AfterWork(s.core, w, k, s.now), breaker := BreakerAfter(s, k))
  }

  /** The actions can be taken one after the other, from the start. */
  predicate IsRun(acts: seq<Action>)
    decreases |acts|, 0
  {
    acts == [] || (IsRun(acts[..|acts| - 1]) && Can(After(acts[..|acts| - 1]), acts[|acts| - 1]))
  }

  function After(acts: seq<Action>): State
    requires IsRun(acts)
    decreases |acts|, 1
  {
    if acts == [] then INITIAL else Do(After(acts[..|acts| - 1]), acts[|acts| - 1])
  }
}
