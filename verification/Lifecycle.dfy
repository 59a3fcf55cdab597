/** The instance record, its phases, and what each step of its life writes in it. */
module Lifecycle {
  import opened Basics

  datatype Phase = PendingCreate | Creating | Running | PendingDelete | Deleting | Deleted

  /** What a poll reads about an instance besides its name. */
  datatype Observed = Observed(vmName: string, ipAddress: string, vAppStatus: string, vmStatus: string, osType: string)

  const NOTHING_OBSERVED := Observed("", "", "", "", "")

  datatype Instance = Instance(
    id: Id,            // the vApp HREF, empty until the vApp is recorded
    intentID: Id,
    name: Id,
    phase: Phase,
    observed: Observed,
    createdAt: Option<Time>,
    createStartedAt: Option<Time>,
    createCompletedAt: Option<Time>,
    deleteRequestedAt: Option<Time>,
    deleteStartedAt: Option<Time>,
    deleteCompletedAt: Option<Time>,
    gcMarkedAt: Option<Time>,
    lastUpdated: Option<Time>,
    retryCount: nat,
    lastError: string,
    nextRetryAfter: Option<Time>,
    missedPolls: nat,
    leftover: bool)

  /** Number of polls that must miss an instance before it counts as gone. */
  const MISSED_POLLS_BEFORE_DISAPPEARED: nat := 3

  /** How long a deleted record is kept. */
  const PRUNE_AFTER: Time := 5 * MINUTE

  function Blank(intentID: Id, phase: Phase): Instance {
    Instance(NO_ID, intentID, NO_ID, phase, NOTHING_OBSERVED,
             None, None, None, None, None, None, None, None, 0, "", None, 0, false)
  }

  function NewIntent(intentID: Id, now: Time): Instance {
    Blank(intentID, PendingCreate).(createdAt := Some(now))
  }

  function NewPreexisting(href: Id, name: Id, observed: Observed, now: Time): Instance {
    Blank(href, Running).(id := href, name := name, observed := observed, lastUpdated := Some(now))
  }

  function NewLeftover(href: Id, name: Id, now: Time): Instance {
    Blank(href, PendingDelete).(id := href, name := name, leftover := true,
                                deleteRequestedAt := Some(now), lastUpdated := Some(now))
  }

  /** MarkForDeletion and MarkGC touch running instances only. */
  function RequestDelete(r: Instance, now: Time): Instance {
    if r.phase != Running then r
    else r.(phase := PendingDelete, deleteRequestedAt := Some(now), lastUpdated := Some(now))
  }

  function MarkedByGC(r: Instance, now: Time): Instance {
    if r.phase != Running then r
    else RequestDelete(r, now).(gcMarkedAt := Some(now))
  }

  /** A poll read this instance: its observed state is replaced and its misses are forgotten. */
  function Refreshed(r: Instance, name: Id, observed: Observed, now: Time): Instance {
    r.(name := name, observed := observed, missedPolls := 0, lastUpdated := Some(now))
  }

  /** A listing counts against an instance it omits only while the instance should be in vCD. */
  predicate Missing(r: Instance, known: set<Id>) {
    r.id != NO_ID && r.phase != Deleted && r.phase != PendingCreate && r.phase != Creating && r.id !in known
  }

  function Missed(r: Instance, known: set<Id>, now: Time): Instance {
    if !Missing(r, known) then r
    else if r.missedPolls + 1 >= MISSED_POLLS_BEFORE_DISAPPEARED then
      r.(missedPolls := r.missedPolls + 1, phase := Deleted, deleteCompletedAt := Some(now), lastUpdated := Some(now))
    else r.(missedPolls := r.missedPolls + 1)
  }

  predicate Prunable(r: Instance, now: Time) {
    r.phase == Deleted && r.deleteCompletedAt.Some? && r.deleteCompletedAt.value < now - PRUNE_AFTER
  }

  predicate BackoffElapsed(r: Instance, now: Time) {
    r.nextRetryAfter.None? || now >= r.nextRetryAfter.value
  }

  predicate ReadyToCreate(r: Instance, now: Time) {
    r.phase == PendingCreate && BackoffElapsed(r, now)
  }

  predicate ReadyToDelete(r: Instance, now: Time) {
    r.phase == PendingDelete && BackoffElapsed(r, now)
  }

  predicate TooOld(r: Instance, maxAge: Time, now: Time) {
    r.phase == Running && r.createCompletedAt.Some? && r.createCompletedAt.value < now - maxAge
  }

  predicate Undeleted(r: Instance) {
    r.phase != Deleted
  }

  predicate PendingLeftover(r: Instance) {
    r.leftover && r.phase != Deleted
  }

  // What the dispatchers and workers write through UpdateInstance.

  function StartCreate(r: Instance, now: Time): Instance {
    r.(phase := Creating, createStartedAt := Some(now))
  }

  function FailCreate(r: Instance, error: string, delay: Time, now: Time): Instance {
    r.(phase := PendingCreate, createStartedAt := None, retryCount := r.retryCount + 1,
       lastError := error, nextRetryAfter := Some(now + delay))
  }

  function FinishCreate(r: Instance, href: Id, name: Id, vmName: string, ip: string, osType: string, now: Time): Instance {
    r.(phase := Running, createCompletedAt := Some(now), id := href, name := name,
       observed := r.observed.(vmName := vmName, ipAddress := ip, osType := osType),
       lastError := "", nextRetryAfter := None)
  }

  function StartDelete(r: Instance, now: Time): Instance {
    r.(phase := Deleting, deleteStartedAt := Some(now))
  }

  function FailDelete(r: Instance, error: string, delay: Time, now: Time): Instance {
    r.(phase := PendingDelete, deleteStartedAt := None, retryCount := r.retryCount + 1,
       lastError := error, nextRetryAfter := Some(now + delay))
  }

  function FinishDelete(r: Instance, now: Time): Instance {
    r.(phase := Deleted, deleteCompletedAt := Some(now), lastError := "", nextRetryAfter := None)
  }

  function NeverCreated(r: Instance, now: Time): Instance {
    r.(phase := Deleted, deleteCompletedAt := Some(now))
  }
}
