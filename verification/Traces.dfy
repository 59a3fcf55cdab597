/** What one goroutine of an instance group does in a run: its own actions, in order. */
module Traces {
  import opened Basics
  import opened Lifecycle
  import opened Listing
  import opened Protocol

  datatype Goroutine = Loop | At(w: nat)

  predicate TakenBy(a: Action, g: Goroutine) {
    match g
    case Loop => a.Pol? || a.Dis?
    case At(w) => a.Wrk? && a.w == w
  }

  /** The actions of one goroutine, in order. */
  function Own(acts: seq<Action>, g: Goroutine): seq<Action> {
    if acts == [] then []
    else
      var n := |acts| - 1;
      Own(acts[..n], g) + if TakenBy(acts[n], g) then [acts[n]] else []
  }

  /** From one point of a run to a later one, the goroutine did exactly this. */
  predicate Took(was: seq<Action>, now: seq<Action>, g: Goroutine, did: seq<Action>) {
    was <= now && Own(now, g) == Own(was, g) + did
  }

  lemma OwnThen(acts: seq<Action>, a: Action, g: Goroutine)
    ensures Took(acts, acts + [a], g, if TakenBy(a, g) then [a] else [])
  {
    assert (acts + [a])[..|acts|] == acts;
  }

  lemma TookThen(was: seq<Action>, mid: seq<Action>, now: seq<Action>, g: Goroutine, first: seq<Action>, then': seq<Action>)
    requires Took(was, mid, g, first) && Took(mid, now, g, then')
    ensures Took(was, now, g, first + then')
  {
    assert Own(was, g) + first + then' == Own(was, g) + (first + then');
  }

  function Times(a: Action, n: nat): seq<Action> {
    if n == 0 then [] else Times(a, n - 1) + [a]
  }

  /** How many slots the limiter grants in a row. */
  function Granted(slots: seq<bool>): (n: nat)
    ensures n <= |slots|
    ensures forall i :: 0 <= i < n ==> slots[i]
    ensures n < |slots| ==> !slots[n]
  {
    if slots == [] || !slots[0] then 0
    else
      var n := Granted(slots[1..]);
      assert forall i :: 1 <= i < n + 1 ==> slots[i] == slots[1..][i - 1];
      n + 1
  }

  // One poll.

  /** What ownsVApp finds for a vApp that no record tracks. */
  datatype Owner = InFlight | AwaitingCleanup | Nobody

  /** What a poll does with one vApp it read. */
  datatype Reading = Tracked(hasVM: bool, status: Observed, read: Option<Observed>) | Untracked(owner: Owner)

  function OwnerActions(owner: Owner): seq<Action> {
    match owner
    case InFlight => [Pol(LoadInflight)]
    case AwaitingCleanup => [Pol(LoadInflight), Pol(LoadFailed)]
    case Nobody => [Pol(LoadInflight), Pol(LoadFailed), Pol(Adopt)]
  }

  function ItemActions(item: Reading): seq<Action> {
    match item
    case Tracked(hasVM, status, read) => [Pol(Lookup), Pol(Refresh(hasVM, status, read))]
    case Untracked(owner) => [Pol(Lookup)] + OwnerActions(owner)
  }

  function ItemsActions(items: seq<Reading>): seq<Action> {
    if items == [] then [] else ItemsActions(items[..|items| - 1]) + ItemActions(items[|items| - 1])
  }

  function CountActions(counted: bool): seq<Action> {
    [Pol(CheckSize)] + if counted then [Pol(Mark)] else []
  }

  type PollAnswer = Option<(seq<Listed>, seq<Answer>)>

  function PollActions(listing: PollAnswer, items: seq<Reading>, counted: bool): seq<Action> {
    match listing
    case None => [Pol(ListFails)]
    case Some(l) => [Pol(List(l.0, l.1))] + (ItemsActions(items) + [Pol(EndReads)]) + CountActions(counted)
  }

  // One dispatch.

  function CreateActions(blocked: bool, ids: seq<Id>, slots: seq<bool>): seq<Action> {
    if blocked then [Dis(SkipCreates)]
    else [Dis(OpenCreates), Dis(SnapCreates(ids))] + Times(Dis(DispatchCreate), Min(|ids|, Granted(slots))) + [Dis(EndCreates)]
  }

  function DeleteActions(ids: seq<Id>, slots: seq<bool>): seq<Action> {
    [Dis(SnapDeletes(ids))] + Times(Dis(DispatchDelete), Min(|ids|, Granted(slots))) + [Dis(EndDeletes)]
  }

  /** What the visit of one failed create comes to. */
  datatype Visit = Absent | Busy | Started | Refused

  function VisitActions(name: Id, visit: Visit): seq<Action> {
    match visit
    case Absent => []
    case Busy => [Dis(PickCleanup(name)), Dis(Claim)]
    case Started => [Dis(PickCleanup(name)), Dis(Claim), Dis(DispatchCleanup)]
    case Refused => [Dis(PickCleanup(name)), Dis(Claim), Dis(Unclaim)]
  }

  function VisitsActions(names: seq<Id>, visits: seq<Visit>): seq<Action>
    requires |visits| <= |names|
  {
    if visits == [] then []
    else
      var n := |visits| - 1;
      VisitsActions(names, visits[..n]) + VisitActions(names[n], visits[n])
  }

  /** The visits end with the first one that is refused its slot. */
  predicate Stopped(visits: seq<Visit>) {
    visits != [] && visits[|visits| - 1] == Refused
  }

  predicate VisitsOk(names: seq<Id>, visits: seq<Visit>) {
    && |visits| <= |names| && (!Stopped(visits) ==> |visits| == |names|)
    && forall i :: 0 <= i < |visits| - 1 ==> visits[i] != Refused
  }

  function CleanupActions(names: seq<Id>, visits: seq<Visit>): seq<Action>
    requires VisitsOk(names, visits)
  {
    VisitsActions(names, visits) + if Stopped(visits) then [] else [Dis(EndCleanups)]
  }

  function GcActions(marked: Option<seq<Id>>): seq<Action> {
    match marked
    case None => [Dis(EndGC)]
    case Some(ids) => [Dis(SnapGC(ids))] + Times(Dis(MarkNext), |ids|) + [Dis(EndGC)]
  }

  /** What one reconcile cycle comes to. */
  datatype Cycle = Cycle(items: seq<Reading>, counted: bool, blocked: bool, creates: seq<Id>, deletes: seq<Id>,
                         visits: seq<Visit>, marked: Option<seq<Id>>)

  /** What the limiter answers in the three dispatches. */
  datatype Slots = Slots(creates: seq<bool>, deletes: seq<bool>, cleanups: seq<bool>)

  function DispatchActions(names: seq<Id>, slots: Slots, c: Cycle): seq<Action>
    requires VisitsOk(names, c.visits)
  {
    CreateActions(c.blocked, c.creates, slots.creates) + DeleteActions(c.deletes, slots.deletes)
    + (CleanupActions(names, c.visits) + GcActions(c.marked))
  }

  /** Poll, hold check, creates, deletes, cleanups, old instances, pruning: in this order. */
  function CycleActions(listing: PollAnswer, timeout: Time, names: seq<Id>, slots: Slots, c: Cycle): seq<Action>
    requires VisitsOk(names, c.visits)
  {
    (PollActions(listing, c.items, c.counted) + [Pol(CheckHold(timeout))]) + DispatchActions(names, slots, c) + [Dis(DoPrune)]
  }

  // One delete or cleanup.

  function CleanUpActions(w: nat, did: Work, gone: bool): seq<Action> {
    [Wrk(w, did)] + (if gone then [Wrk(w, Retire)] else []) + [Wrk(w, Leave)]
  }
}
