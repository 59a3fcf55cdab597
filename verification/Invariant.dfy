/**
 * What every action keeps. The invariant is stated record by record, worker by worker and name by name;
 * the history says which worker or record each of them belongs to.
 */
module Invariant {
  import opened Basics
  import opened Lifecycle
  import opened Listing
  import opened Protocol
  import D = VcdDelete
  import M = StoreModel

  /** The create has not yet made its final store update. */
  predicate Pending(pc: CreatePC) {
    !pc.Recorded?
  }

  predicate HasName(pc: CreatePC) {
    pc.Building? || pc.Built? || pc.Counted? || pc.Recorded? || pc.Abandoning?
  }

  /** The intent's last dispatched worker is still there. */
  predicate Served(c: Core, k: Id) {
    k in c.hist.dispatchedTo && c.hist.dispatchedTo[k] in c.workers
  }

  function Server(c: Core, k: Id): Worker
    requires Served(c, k)
  {
    c.workers[c.hist.dispatchedTo[k]]
  }

  /** The HREF's name was recorded under this intent, with this HREF. */
  predicate Linked(c: Core, k: Id, href: Id) {
    href in c.vcd.vapps && c.vcd.vapps[href] in c.hist.recorded && c.hist.recorded[c.vcd.vapps[href]] == (k, href)
  }

  /** No create or cleanup owns the vApp, and no intent in the store has its HREF. */
  predicate Disowned(c: Core, href: Id)
    requires href in c.vcd.vapps
  {
    var n := c.vcd.vapps[href];
    && n !in c.names.inflight && n !in c.names.failed
    && (n in c.hist.recorded && c.hist.recorded[n].1 == href ==> c.hist.recorded[n].0 !in c.store)
  }

  predicate LeftoverOk(c: Core, k: Id, r: Instance) {
    && r.id == k && k in c.vcd.vapps && k !in c.hist.intents && Disowned(c, k)
    && (r.phase == PendingDelete || r.phase == Deleting || r.phase == Deleted)
  }

  predicate IntentOk(c: Core, k: Id, r: Instance) {
    && k in c.hist.intents
    && (r.id == NO_ID <==> r.phase == PendingCreate || r.phase == Creating)
    && (r.id != NO_ID ==> Linked(c, k, r.id))
    && (r.phase == Creating ==> Served(c, k) && Server(c, k).Creator? && Server(c, k).intent == k && Pending(Server(c, k).create))
    && (r.phase == Deleting ==> Served(c, k) && Server(c, k).Deleter? && Server(c, k).key == k)
  }

  predicate RecordOk(c: Core, k: Id)
    requires k in c.store
  {
    c.store[k].intentID == k && if c.store[k].leftover then LeftoverOk(c, k, c.store[k]) else IntentOk(c, k, c.store[k])
  }

  predicate CreatorOk(c: Core, w: nat, k: Id, pc: CreatePC) {
    && (Pending(pc) ==>
          && k in c.store && k in c.hist.intents && c.store[k].phase == Creating && !c.store[k].leftover
          && k in c.hist.dispatchedTo && c.hist.dispatchedTo[k] == w)
    && (HasName(pc) ==> NamedCreatorOk(c, w, pc, pc.name))
    && (pc.Built? || pc.Counted? ==> pc.href in c.vcd.vapps && c.vcd.vapps[pc.href] == pc.name)
  }

  predicate NamedCreatorOk(c: Core, w: nat, pc: CreatePC, n: Id) {
    && n in c.hist.registered && n in c.names.inflight && n in c.hist.holder && c.hist.holder[n] == w
    && (pc.Recorded? <==> n in c.hist.recorded)
    && (pc.Abandoning? <==> n in c.names.failed || n in c.hist.retired)
  }

  /** Evidence holds of the vApp: it is gone, unless there is no more than the text of an error. */
  predicate Sound(c: Core, href: Id, why: D.Evidence) {
    Convincing(why) && (why.TextOnly? || href !in c.vcd.existing)
  }

  predicate DeleterOk(c: Core, w: nat, k: Id, href: Id, pc: DeletePC) {
    && href in c.vcd.vapps
    && (pc.Confirmed? ==> Sound(c, href, pc.why))
    && (k !in c.hist.intents ==> k == href)
    && (k in c.hist.intents ==>
          && k in c.hist.dispatchedTo && c.hist.dispatchedTo[k] == w
          && (if k in c.store then
                && (c.store[k].phase == Deleting || (c.store[k].phase == Deleted && k in c.hist.lost))
                && c.store[k].id == href
              else k in c.hist.pruned))
  }

  predicate CleanerOk(c: Core, w: nat, n: Id, requestedAt: Time, pc: CleanupPC) {
    && n in c.names.background && n in c.hist.cleaner && c.hist.cleaner[n] == w
    && CleanupTarget(c, n, requestedAt)
    && (pc.Retiring? ==> RetirementOk(c, n, pc.why))
  }

  /**
   * A name is let go when a delete of a vApp of that name counts as done, or when long after the request a
   * lookup of the name found nothing, or something other than the name was not found.
   */
  predicate RetirementOk(c: Core, n: Id, why: Retirement) {
    match why
    case CleanedUp(href, why) => href in c.vcd.vapps && c.vcd.vapps[href] == n && Sound(c, href, why)
    case NeverSeen(requestedAt, at, miss) =>
      && n in c.hist.requested && c.hist.requested[n] == requestedAt
      && (miss.NameMissing? ==> (n, at) in c.hist.unseen) && requestedAt + SAFE_CALL_MAX_ELAPSED <= at
  }

  predicate CleanupTarget(c: Core, n: Id, requestedAt: Time) {
    && n in c.hist.registered && (n in c.names.failed || n in c.hist.retired)
    && n in c.hist.requested && c.hist.requested[n] == requestedAt
  }

  predicate WorkerOk(c: Core, w: nat)
    requires w in c.workers
  {
    w < c.hist.spawned &&
    match c.workers[w]
    case Creator(k, pc) => CreatorOk(c, w, k, pc)
    case Deleter(k, href, pc) => DeleterOk(c, w, k, href, pc)
    case Cleaner(n, at, pc) => CleanerOk(c, w, n, at, pc)
  }

  /** Where a name that createInstance registered is accounted for. */
  predicate NameOk(c: Core, n: Id) {
    && (n in c.names.inflight || n in c.names.failed || n in c.hist.recorded || n in c.hist.retired)
    && (n in c.names.inflight ==>
          && n in c.hist.holder && c.hist.holder[n] in c.workers
          && var me := c.workers[c.hist.holder[n]]; me.Creator? && HasName(me.create) && me.create.name == n)
    && (n in c.names.failed ==>
          && n !in c.hist.recorded && n !in c.hist.retired
          && n in c.hist.requested && c.hist.requested[n] == c.names.failed[n])
    && (n in c.hist.recorded ==> n !in c.hist.retired && RecordedOk(c, n, c.hist.recorded[n].0, c.hist.recorded[n].1))
    && (n in c.hist.retired ==> RetirementOk(c, n, c.hist.retired[n]))
  }

  predicate RecordedOk(c: Core, n: Id, k: Id, href: Id) {
    && k in c.hist.intents && href in c.vcd.vapps && c.vcd.vapps[href] == n
    && (if k in c.store then c.store[k].id == href else k in c.hist.pruned)
  }

  predicate DomainsOk(c: Core) {
    && c.hist.intents !! c.vcd.vapps.Keys && NO_ID !in c.vcd.vapps
    && c.names.inflight <= c.hist.registered && c.names.failed.Keys <= c.hist.registered
    && c.hist.recorded.Keys <= c.hist.registered && c.hist.retired.Keys <= c.hist.registered
    && c.hist.pruned <= c.hist.intents + c.vcd.vapps.Keys
    && (forall k :: k in c.hist.intents && k in c.hist.pruned ==> k !in c.store)
  }

  predicate PollOk(c: Core, p: Poll) {
    && |p.listed| == |p.answers| && Honest(c, p.listed) && Denied(c, p.listed, p.answers)
    && p.vApps == FoundIn(p.listed[..FirstFailure(p.answers)], p.answers[..FirstFailure(p.answers)])
    && p.next <= |p.vApps|
    && (forall i :: 0 <= i < |p.vApps| ==> p.vApps[i].href in c.vcd.vapps && c.vcd.vapps[p.vApps[i].href] == p.vApps[i].name)
  }

  predicate PcOk(c: Core, rec: Reconciler, held: bool) {
    match rec
    case Polling(p) => PollOk(c, p)
    case CheckInflight(p) => PollOk(c, p) && HasItem(p)
    case CheckFailed(p) => PollOk(c, p) && HasItem(p) && Item(p).name !in c.names.inflight
    case Adopting(p) => PollOk(c, p) && HasItem(p) && Item(p).name !in c.names.inflight && Item(p).name !in c.names.failed
    case Refreshing(p, _) => PollOk(c, p) && HasItem(p)
    case Sizing(p) => PollOk(c, p)
    case Marking(p) => PollOk(c, p)
    case Holding(ok, p) => PollOk(c, p) && (ok ==> Complete(p))
    case ListingCreates => !held
    case DispatchingCreates(ids) =>
      NoDuplicates(ids) && !held &&
      forall k :: k in ids ==> k in c.store && c.store[k].phase == PendingCreate && !c.store[k].leftover
    case DispatchingDeletes(ids, hrefs) =>
      NoDuplicates(ids) &&
      forall k :: k in ids ==>
        && k in c.store && k in hrefs && hrefs[k] == c.store[k].id && hrefs[k] != NO_ID
        && (k in c.hist.intents ==> c.store[k].phase == PendingDelete)
    case Picked(n, at) => CleanupTarget(c, n, at)
    case Claimed(n, at) =>
      CleanupTarget(c, n, at) && n in c.names.background &&
      forall w :: w in c.workers && c.workers[w].Cleaner? ==> c.workers[w].name != n
    case _ => true
  }

  /** While creates are held nothing has been created, and what a poll has read is tracked as leftover. */
  predicate HoldOk(c: Core, rec: Reconciler, hold: Hold) {
    && (!hold.polled ==> hold.on)
    && (hold.on ==>
          && c.hist.registered == {}
          && (forall w :: w in c.workers ==> !c.workers[w].Creator?)
          && (forall k :: k in c.store && !c.store[k].leftover ==> c.store[k].phase == PendingCreate)
          && ReadTracked(c, rec))
  }

  predicate TrackedLeftover(c: Core, href: Id) {
    href in c.store && c.store[href].leftover
  }

  predicate ReadTracked(c: Core, rec: Reconciler) {
    match rec
    case Polling(p) => TrackedUpTo(c, p, p.next)
    case CheckInflight(p) => TrackedUpTo(c, p, p.next)
    case CheckFailed(p) => TrackedUpTo(c, p, p.next)
    case Adopting(p) => TrackedUpTo(c, p, p.next)
    case Refreshing(p, _) => TrackedUpTo(c, p, p.next + 1)
    case Sizing(p) => TrackedUpTo(c, p, |p.vApps|)
    case Marking(p) => TrackedUpTo(c, p, |p.vApps|)
    case Holding(_, p) => TrackedUpTo(c, p, |p.vApps|)
    case _ => true
  }

  predicate TrackedUpTo(c: Core, p: Poll, n: nat) {
    forall i :: 0 <= i < n && i < |p.vApps| ==> TrackedLeftover(c, p.vApps[i].href)
  }

  predicate Records(c: Core) {
    forall k :: k in c.store ==> RecordOk(c, k)
  }

  predicate Workers(c: Core) {
    forall w :: w in c.workers ==> WorkerOk(c, w)
  }

  predicate NamesOk(c: Core) {
    forall n :: n in c.hist.registered ==> NameOk(c, n)
  }

  predicate CoreInv(c: Core) {
    DomainsOk(c) && Records(c) && Workers(c) && NamesOk(c)
  }

  /** The reconcile goroutine and the startup hold fit the shared state. */
  predicate FlowOk(c: Core, rec: Reconciler, hold: Hold) {
    PcOk(c, rec, hold.on) && HoldOk(c, rec, hold)
  }

  predicate Inv(s: State) {
    CoreInv(s.core) && FlowOk(s.core, s.rec, s.hold)
  }

  lemma InitialInv()
    ensures Inv(INITIAL)
  {
  }
}
