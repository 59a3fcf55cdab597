/**
 * The protocol and the operation limiter as one system: an operation is dispatched with a slot in hand,
 * its worker holds the slot while it is there, and the slot goes back after the worker has ended.
 */
module Operations {
  import opened Basics
  import P = Protocol
  import L = Limiter
  import Invariant
  import Preservation

  /** `hand` is the slot that the loop has acquired and not yet given to a worker. */
  datatype Joint = Joint(p: P.State, l: L.Shared, hand: Option<L.Kind>, createsEnded: nat, deletesEnded: nat, exited: bool) {

    /** Workers of this kind that have ended and still hold their slot. */
    function Ended(k: L.Kind): nat {
      if k == L.Create then createsEnded else deletesEnded
    }

    function InHand(k: L.Kind): nat {
      if hand == Some(k) then 1 else 0
    }
  }

  datatype Limits = Limits(total: nat, creates: nat, deletes: nat)

  function Start(m: Limits): Joint {
    Joint(P.INITIAL, L.New(m.total, m.creates, m.deletes), None, 0, 0, false)
  }

  datatype Act =
    | Proto(a: P.Action)
    | Slot(st: L.Step)
    | Exit  // the reconcile goroutine returns, between two cycles

  predicate ByLoop(a: P.Action) {
    a.Pol? || a.Dis?
  }

  predicate Spawns(a: P.Action) {
    a.Dis? && (a.d.DispatchCreate? || a.d.DispatchDelete? || a.d.DispatchCleanup?)
  }

  function KindFor(a: P.Action): L.Kind
    requires Spawns(a)
  {
    if a.d.DispatchCreate? then L.Create else L.Delete
  }

  function KindOf(w: P.Worker): L.Kind {
    if w.Creator? then L.Create else L.Delete
  }

  predicate Can(j: Joint, x: Act) {
    match x
    case Proto(a) => P.Can(j.p, a) && (ByLoop(a) ==> !j.exited) && (Spawns(a) ==> j.hand == Some(KindFor(a)))
    case Slot(st) => L.Can(j.l, st) && CanSlot(j, st)
    case Exit => !j.exited && j.hand.None? && j.p.rec.Idle? && L.Idle(j.l)
  }

  /** Only the loop acquires, one slot at a time; only ended workers release; only a shutdown after the loop drains. */
  predicate CanSlot(j: Joint, st: L.Step) {
    match st
    case Finish(k) => j.Ended(k) > 0
    case TakeKind(_) => !j.exited && j.hand.None?
    case Count(_) => !j.exited && j.hand.None?
    case Drain => j.exited
    case _ => true
  }

  function OneEnded(j: Joint, k: L.Kind, n: int): Joint
    requires j.Ended(k) + n >= 0
  {
    if k == L.Create then j.(createsEnded := j.createsEnded + n) else j.(deletesEnded := j.deletesEnded + n)
  }

  function Do(j: Joint, x: Act): Joint
    requires Can(j, x)
  {
    match x
    case Proto(a) => DoProto(j, a)
    case Slot(st) => DoSlot(j, st)
    case Exit => j.(exited := true)
  }

  /** A panic of the loop loses the slot in hand. */
  function DoProto(j: Joint, a: P.Action): Joint
    requires Can(j, Proto(a))
  {
    var k := j.(p := P.Do(j.p, a), hand := if Spawns(a) || a == P.Pol(P.Panic) then None else j.hand);
    if a.Wrk? && a.w !in k.p.core.workers then OneEnded(k, KindOf(j.p.core.workers[a.w]), 1) else k
  }

  function DoSlot(j: Joint, st: L.Step): Joint
    requires Can(j, Slot(st))
  {
    var k := j.(l := L.Do(j.l, st), hand := if st.Count? then Some(st.k) else j.hand);
    if st.Finish? then OneEnded(k, st.k, -1) else k
  }

  predicate IsRun(m: Limits, xs: seq<Act>)
    decreases |xs|, 0
  {
    xs == [] || (IsRun(m, xs[..|xs| - 1]) && Can(After(m, xs[..|xs| - 1]), xs[|xs| - 1]))
  }

  function After(m: Limits, xs: seq<Act>): Joint
    requires IsRun(m, xs)
    decreases |xs|, 1
  {
    if xs == [] then Start(m) else Do(After(m, xs[..|xs| - 1]), xs[|xs| - 1])
  }

  // A run of the whole is a run of the protocol.

  function Acts(xs: seq<Act>): seq<P.Action> {
    if xs == [] then []
    else
      var n := |xs| - 1;
      Acts(xs[..n]) + if xs[n].Proto? then [xs[n].a] else []
  }

  lemma OneActMore(acts: seq<P.Action>, a: P.Action)
    requires P.IsRun(acts) && P.Can(P.After(acts), a)
    ensures P.IsRun(acts + [a]) && P.After(acts + [a]) == P.Do(P.After(acts), a)
  {
    assert (acts + [a])[..|acts|] == acts;
  }

  lemma OnlyActsMove(j: Joint, x: Act)
    requires Can(j, x)
    ensures Do(j, x).p == if x.Proto? then P.Do(j.p, x.a) else j.p
  {
  }

  lemma {:induction false} RunsAreRuns(m: Limits, xs: seq<Act>)
    requires IsRun(m, xs)
    ensures P.IsRun(Acts(xs)) && P.After(Acts(xs)) == After(m, xs).p
    decreases |xs|
  {
    if xs != [] {
      var n := |xs| - 1;
      RunsAreRuns(m, xs[..n]);
      OnlyActsMove(After(m, xs[..n]), xs[n]);
      if xs[n].Proto? {
        OneActMore(Acts(xs[..n]), xs[n].a);
      } else {
        assert Acts(xs) == Acts(xs[..n]) + [] == Acts(xs[..n]);
      }
    }
  }

  // Every worker holds a slot.

  function WorkersOf(ws: map<nat, P.Worker>, k: L.Kind): set<nat> {
    set w | w in ws && KindOf(ws[w]) == k
  }

  /** The slots of a kind that are counted cover its workers, those that have ended, and the one in hand. */
  predicate Covered(j: Joint, k: L.Kind) {
    |WorkersOf(j.p.core.workers, k)| + j.Ended(k) + j.InHand(k) <= L.Of(j.l, k).running
  }

  predicate Inv(j: Joint) {
    && L.Inv(j.l) && Covered(j, L.Create) && Covered(j, L.Delete)
    && (j.exited ==> j.hand.None? && L.Idle(j.l)) && (j.l.drained ==> j.exited)
  }

  /** What an action does to the workers. */
  lemma WorkStep(s: P.State, w: nat, k: P.Work)
    requires P.CanWork(s.core, w, k)
    ensures var ws, ws' := s.core.workers, P.AfterWork(s.core, w, k, s.now).workers;
            ws' == (if w in ws' then ws[w := ws'[w]] else ws - {w}) && (w in ws' ==> KindOf(ws'[w]) == KindOf(ws[w]))
  {
  }

  lemma SpawnStep(s: P.State, d: P.Dispatched)
    requires Invariant.Inv(s) && P.CanDispatch(s, d) && Spawns(P.Dis(d))
    ensures var ws, ws', w := s.core.workers, P.DoDispatch(s, d).core.workers, s.core.hist.spawned;
            w !in ws && w in ws' && ws' == ws[w := ws'[w]] && KindOf(ws'[w]) == KindFor(P.Dis(d))
  {
    forall w | w in s.core.workers
      ensures w < s.core.hist.spawned
    {
      assert Invariant.WorkerOk(s.core, w);
    }
  }

  lemma OtherDispatch(s: P.State, d: P.Dispatched)
    requires P.CanDispatch(s, d) && !Spawns(P.Dis(d))
    ensures P.DoDispatch(s, d).core.workers == s.core.workers
  {
  }

  lemma OutsideStep(s: P.State, o: P.Outside)
    requires P.CanOutside(s.core, o)
    ensures var c := P.AfterOutside(s.core, o, s.now);
            c.workers == s.core.workers && c.names == s.core.names && c.hist.registered == s.core.hist.registered
  {
  }

  lemma PollStep(s: P.State, p: P.Polled)
    requires P.CanPoll(s, p)
    ensures P.DoPoll(s, p).core.workers == s.core.workers
  {
  }

  lemma WorkerAdded(ws: map<nat, P.Worker>, w: nat, me: P.Worker, k: L.Kind)
    requires w !in ws
    ensures |WorkersOf(ws[w := me], k)| == |WorkersOf(ws, k)| + if KindOf(me) == k then 1 else 0
  {
    assert WorkersOf(ws[w := me], k) == WorkersOf(ws, k) + if KindOf(me) == k then {w} else {};
  }

  lemma WorkerGone(ws: map<nat, P.Worker>, w: nat, k: L.Kind)
    requires w in ws
    ensures |WorkersOf(ws - {w}, k)| == |WorkersOf(ws, k)| - if KindOf(ws[w]) == k then 1 else 0
  {
    assert WorkersOf(ws - {w}, k) == WorkersOf(ws, k) - {w};
  }

  lemma WorkerMoved(ws: map<nat, P.Worker>, w: nat, me: P.Worker, k: L.Kind)
    requires w in ws && KindOf(me) == KindOf(ws[w])
    ensures WorkersOf(ws[w := me], k) == WorkersOf(ws, k)
  {
  }

  lemma WorkKeepsCovered(j: Joint, w: nat, x: P.Work, k: L.Kind)
    requires Can(j, Proto(P.Wrk(w, x))) && Covered(j, k)
    ensures Covered(Do(j, Proto(P.Wrk(w, x))), k)
  {
    WorkStep(j.p, w, x);
    var ws, ws' := j.p.core.workers, P.Do(j.p, P.Wrk(w, x)).core.workers;
    if w in ws' {
      WorkerMoved(ws, w, ws'[w], k);
    } else {
      WorkerGone(ws, w, k);
    }
  }

  lemma SpawnKeepsCovered(j: Joint, d: P.Dispatched, k: L.Kind)
    requires Invariant.Inv(j.p) && Can(j, Proto(P.Dis(d))) && Spawns(P.Dis(d)) && Covered(j, k)
    ensures Covered(Do(j, Proto(P.Dis(d))), k)
  {
    SpawnStep(j.p, d);
    var w := j.p.core.hist.spawned;
    WorkerAdded(j.p.core.workers, w, P.DoDispatch(j.p, d).core.workers[w], k);
  }

  lemma OtherWorkers(s: P.State, a: P.Action)
    requires P.Can(s, a) && !a.Wrk? && !Spawns(a)
    ensures P.Do(s, a).core.workers == s.core.workers
  {
    match a
    case Out(o) => OutsideStep(s, o);
    case Pol(p) => PollStep(s, p);
    case Dis(d) => OtherDispatch(s, d);
    case Tick(_) =>
  }

  lemma ProtoKeepsCovered(j: Joint, a: P.Action, k: L.Kind)
    requires Invariant.Inv(j.p) && Can(j, Proto(a)) && Covered(j, k)
    ensures Covered(Do(j, Proto(a)), k)
  {
    if a.Wrk? {
      WorkKeepsCovered(j, a.w, a.k, k);
    } else if Spawns(a) {
      SpawnKeepsCovered(j, a.d, k);
    } else {
      OtherWorkers(j.p, a);
    }
  }

  lemma SlotKeepsCovered(j: Joint, st: L.Step, k: L.Kind)
    requires Can(j, Slot(st)) && Covered(j, k)
    ensures Covered(Do(j, Slot(st)), k)
  {
  }

  lemma ProtoKeepsInv(j: Joint, a: P.Action)
    requires Invariant.Inv(j.p) && Inv(j) && Can(j, Proto(a))
    ensures Inv(Do(j, Proto(a))) && Do(j, Proto(a)).l == j.l
  {
    ProtoKeepsCovered(j, a, L.Create);
    ProtoKeepsCovered(j, a, L.Delete);
    ProtoLeavesSlots(j, a);
  }

  lemma ProtoLeavesSlots(j: Joint, a: P.Action)
    requires Can(j, Proto(a))
    ensures var k := Do(j, Proto(a)); k.l == j.l && k.exited == j.exited && (j.hand.None? ==> k.hand.None?)
  {
  }

  lemma SlotKeepsInv(j: Joint, st: L.Step)
    requires Inv(j) && Can(j, Slot(st))
    ensures Inv(Do(j, Slot(st))) && L.SameLimits(j.l, Do(j, Slot(st)).l)
  {
    L.StepKeepsInv(j.l, st);
    SlotKeepsCovered(j, st, L.Create);
    SlotKeepsCovered(j, st, L.Delete);
    SlotKeepsExit(j, st);
  }

  lemma SlotKeepsExit(j: Joint, st: L.Step)
    requires Can(j, Slot(st)) && (j.exited ==> j.hand.None? && L.Idle(j.l)) && (j.l.drained ==> j.exited)
    ensures var k := Do(j, Slot(st)); (k.exited ==> k.hand.None? && L.Idle(k.l)) && (k.l.drained ==> k.exited)
  {
  }

  lemma StepKeepsInv(j: Joint, x: Act)
    requires Invariant.Inv(j.p) && Inv(j) && Can(j, x)
    ensures Inv(Do(j, x)) && L.SameLimits(j.l, Do(j, x).l)
  {
    match x
    case Proto(a) => ProtoKeepsInv(j, a);
    case Slot(st) => SlotKeepsInv(j, st);
    case Exit =>
  }

  /** In every interleaving of the loop, the workers, the callers, vCD and the limiter each worker holds a slot. */
  lemma {:induction false} RunsKeepInv(m: Limits, xs: seq<Act>)
    requires IsRun(m, xs)
    ensures Inv(After(m, xs)) && L.SameLimits(Start(m).l, After(m, xs).l)
    decreases |xs|
  {
    if xs == [] {
      assert WorkersOf(map[], L.Create) == {} && WorkersOf(map[], L.Delete) == {};
    } else {
      var before := xs[..|xs| - 1];
      RunsKeepInv(m, before);
      RunsAreRuns(m, before);
      Preservation.RunsKeepInv(Acts(before));
      StepKeepsInv(After(m, before), xs[|xs| - 1]);
    }
  }

  /** The goroutines that work for the engine stay within the limits, whatever vCD answers and however they interleave. */
  lemma WorkersStayWithinLimits(m: Limits, xs: seq<Act>)
    requires IsRun(m, xs)
    ensures var ws := After(m, xs).p.core.workers;
            var creates, deletes := |WorkersOf(ws, L.Create)|, |WorkersOf(ws, L.Delete)|;
            && creates + deletes == |ws| <= m.total
            && creates <= m.creates && deletes <= m.deletes && (m.total > 1 ==> deletes <= m.total - 1)
  {
    RunsKeepInv(m, xs);
    EitherKind(After(m, xs).p.core.workers);
  }

  lemma EitherKind(ws: map<nat, P.Worker>)
    ensures |WorkersOf(ws, L.Create)| + |WorkersOf(ws, L.Delete)| == |ws|
  {
    assert WorkersOf(ws, L.Create) + WorkersOf(ws, L.Delete) == ws.Keys;
    assert |ws| == |ws.Keys|;
  }

  /** Once the limiter is drained no worker is left, and none can ever be started. */
  lemma DrainedMeansNoWorkers(m: Limits, xs: seq<Act>)
    requires IsRun(m, xs) && After(m, xs).l.drained
    ensures After(m, xs).p.core.workers == map[]
    ensures forall a :: Spawns(a) || a.Wrk? ==> !Can(After(m, xs), Proto(a))
  {
    RunsKeepInv(m, xs);
    EitherKind(After(m, xs).p.core.workers);
  }

  // The engine as a whole.

  /** The loop is in the middle of a cycle, has a slot in hand, or is about to take one. */
  predicate LoopBusy(j: Joint) {
    || !j.p.rec.Idle? || j.hand.Some?
    || j.l.c.pending > 0 || j.l.c.granted > 0 || j.l.d.pending > 0 || j.l.d.granted > 0
  }

  /** One run of protocol and limiter, as far as it has come. */
  class Group {
    const m: Limits
    var j: Joint
    ghost var xs: seq<Act>

    ghost predicate Valid()
      reads this
    {
      IsRun(m, xs) && After(m, xs) == j
    }

    constructor (m: Limits)
      ensures Valid() && j == Start(m)
    {
      this.m := m;
      j := Start(m);
      xs := [];
    }

    method Take(x: Act)
      requires Valid() && Can(j, x)
      modifies this
      ensures Valid() && j == Do(old(j), x) && xs == old(xs) + [x]
    {
      assert (xs + [x])[..|xs|] == xs;
      j := Do(j, x);
      xs := xs + [x];
    }

    /** Loop, workers, callers and vCD go on; once the limiter is drained only callers and vCD do. */
    method Others()
      requires Valid()
      modifies this
      ensures Valid() && old(xs) <= xs && j.exited == old(j).exited && j.l.drained == old(j).l.drained
      ensures old(j).l.drained ==> j.p.core.names == old(j).p.core.names
    {
      var n: nat := *;
      while n > 0
        invariant Valid() && old(xs) <= xs && j.exited == old(j).exited && j.l.drained == old(j).l.drained
        invariant old(j).l.drained ==> j.p.core.names == old(j).p.core.names
      {
        var x: Act := *;
        if Can(j, x) && x != Exit && x != Slot(L.Drain) {
          if j.l.drained {
            DrainedMeansNoWorkers(m, xs);
            RunsKeepInv(m, xs);
          }
          OthersStep(j, x);
          Take(x);
        }
        n := n - 1;
      }
    }

    /** Waits until the loop has returned; gives up when the context ends while it still cannot. */
    method AwaitLoop(patience: nat) returns (ok: bool)
      requires Valid() && !j.exited
      modifies this
      ensures Valid() && old(xs) <= xs && ok == j.exited && j.l.drained == old(j).l.drained
      ensures !ok ==> LoopBusy(j)
    {
      Others();
      for i := 0 to patience
        invariant Valid() && old(xs) <= xs && !j.exited && j.l.drained == old(j).l.drained
      {
        if Can(j, Exit) {
          Take(Exit);
          return true;
        }
        Others();
      }
      ok := Can(j, Exit);
      if ok {
        Take(Exit);
      }
    }

    /** Waits until every slot is free, and keeps them all; gives up when the context ends while a slot is in use. */
    method Drain(patience: nat) returns (ok: bool)
      requires Valid() && j.exited && !j.l.drained
      modifies this
      ensures Valid() && old(xs) <= xs && ok == j.l.drained
      ensures ok ==> j.p.core.workers == map[]
      ensures !ok ==> j.exited && j.l.total > 0
    {
      Others();
      for i := 0 to patience
        invariant Valid() && old(xs) <= xs && j.exited && !j.l.drained
      {
        if j.l.total == 0 {
          break;
        }
        Others();
      }
      ok := j.l.total == 0;
      if ok {
        RunsKeepInv(m, xs);
        Take(Slot(L.Drain));
        DrainedMeansNoWorkers(m, xs);
      }
    }
  }

  lemma OthersStep(j: Joint, x: Act)
    requires Can(j, x) && x != Exit && x != Slot(L.Drain)
    requires j.l.drained ==> j.exited && j.p.core.workers == map[]
    ensures Do(j, x).exited == j.exited && Do(j, x).l.drained == j.l.drained
    ensures j.l.drained ==> Do(j, x).p.core.names == j.p.core.names
  {
    if x.Proto? {
      ProtoLeavesSlots(j, x.a);
      if x.a.Out? {
        OutsideStep(j.p, x.a.o);
      }
    }
  }
}
