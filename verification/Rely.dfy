/** What a goroutine can rely on while the others, callers and vCD take their steps. */
module Rely {
  import opened Basics
  import opened Protocol
  import opened Invariant
  import opened Traces

  /** Its own place stays, and so does what was recorded; no vApp changes its name or comes back, and time goes on. */
  predicate Undisturbed(s: State, t: State, g: Goroutine) {
    && Remembered(s.core.hist, t.core.hist) && Lasting(s.core.vcd, t.core.vcd) && s.now <= t.now
    && match g
       case Loop => t.rec == s.rec && t.hold == s.hold
       case At(w) => w in s.core.workers ==> w in t.core.workers && t.core.workers[w] == s.core.workers[w]
  }

  predicate Remembered(h: History, h': History) {
    && h.registered <= h'.registered && h.retired.Keys <= h'.retired.Keys
    && (forall n :: n in h.recorded ==> n in h'.recorded && h'.recorded[n] == h.recorded[n])
  }

  predicate Lasting(v: Vcd, v': Vcd) {
    forall h :: h in v.vapps ==> h in v'.vapps && v'.vapps[h] == v.vapps[h] && (h !in v.existing ==> h !in v'.existing)
  }

  lemma StepLasts(s: State, a: Action)
    requires Can(s, a)
    ensures Lasting(s.core.vcd, Do(s, a).core.vcd) && s.now <= Do(s, a).now
  {
    match a
    case Tick(_) =>
    case Out(o) =>
    case Pol(p) => PollLasts(s, p);
    case Dis(d) => DispatchLasts(s, d);
    case Wrk(w, x) => WorkLasts(s.core, w, x, s.now);
  }

  lemma PollLasts(s: State, p: Polled)
    requires CanPoll(s, p)
    ensures DoPoll(s, p).core.vcd == s.core.vcd && DoPoll(s, p).now == s.now
  {
  }

  lemma DispatchLasts(s: State, d: Dispatched)
    requires CanDispatch(s, d)
    ensures DoDispatch(s, d).core.vcd == s.core.vcd && DoDispatch(s, d).now == s.now
  {
  }

  lemma WorkLasts(c: Core, w: nat, x: Work, now: Time)
    requires CanWork(c, w, x)
    ensures Lasting(c.vcd, AfterWork(c, w, x, now).vcd)
  {
  }

  lemma OutsideRemembers(c: Core, o: Outside, now: Time)
    requires CanOutside(c, o)
    ensures Remembered(c.hist, AfterOutside(c, o, now).hist) && AfterOutside(c, o, now).workers == c.workers
  {
  }

  lemma PollRemembers(s: State, p: Polled)
    requires CanPoll(s, p)
    ensures Remembered(s.core.hist, DoPoll(s, p).core.hist) && DoPoll(s, p).core.workers == s.core.workers
  {
  }

  lemma DispatchRemembers(s: State, d: Dispatched)
    requires CanDispatch(s, d)
    ensures Remembered(s.core.hist, DoDispatch(s, d).core.hist)
  {
  }

  lemma DispatchKeepsWorker(s: State, d: Dispatched, w: nat)
    requires CanDispatch(s, d) && w in s.core.workers && w < s.core.hist.spawned
    ensures w in DoDispatch(s, d).core.workers && DoDispatch(s, d).core.workers[w] == s.core.workers[w]
  {
  }

  lemma WorkKeepsOthers(c: Core, v: nat, x: Work, now: Time, w: nat)
    requires CanWork(c, v, x) && w in c.workers && w != v
    ensures w in AfterWork(c, v, x, now).workers && AfterWork(c, v, x, now).workers[w] == c.workers[w]
  {
  }

  lemma WorkLeavesRecorded(c: Core, w: nat, x: Work, now: Time)
    requires CanWork(c, w, x) && !x.Record?
    ensures AfterWork(c, w, x, now).hist.recorded == c.hist.recorded
  {
  }

  lemma WorkAddsNames(c: Core, w: nat, x: Work, now: Time)
    requires CanWork(c, w, x)
    ensures var h := AfterWork(c, w, x, now).hist;
            c.hist.registered <= h.registered && c.hist.retired.Keys <= h.retired.Keys
  {
  }

  lemma WorkRemembers(c: Core, w: nat, x: Work, now: Time)
    requires CanWork(c, w, x) && !x.Record?
    ensures Remembered(c.hist, AfterWork(c, w, x, now).hist)
  {
    WorkLeavesRecorded(c, w, x, now);
    WorkAddsNames(c, w, x, now);
  }

  /** A name is recorded once. */
  lemma RecordRemembers(c: Core, w: nat, x: Work, now: Time)
    requires CoreInv(c) && CanWork(c, w, x) && x.Record?
    ensures Remembered(c.hist, AfterWork(c, w, x, now).hist)
  {
    assert WorkerOk(c, w);
  }

  lemma StepRemembers(s: State, a: Action)
    requires Inv(s) && Can(s, a)
    ensures Remembered(s.core.hist, Do(s, a).core.hist)
  {
    match a
    case Tick(_) =>
    case Out(o) => OutsideRemembers(s.core, o, s.now);
    case Pol(p) => PollRemembers(s, p);
    case Dis(d) => DispatchRemembers(s, d);
    case Wrk(w, x) =>
      if x.Record? {
        RecordRemembers(s.core, w, x, s.now);
      } else {
        WorkRemembers(s.core, w, x, s.now);
      }
  }

  lemma OthersKeepWorker(s: State, a: Action, w: nat)
    requires Inv(s) && Can(s, a) && !TakenBy(a, At(w)) && w in s.core.workers
    ensures w in Do(s, a).core.workers && Do(s, a).core.workers[w] == s.core.workers[w]
  {
    match a
    case Tick(_) =>
    case Out(o) => OutsideRemembers(s.core, o, s.now);
    case Pol(p) => PollRemembers(s, p);
    case Dis(d) =>
      assert WorkerOk(s.core, w);
      DispatchKeepsWorker(s, d, w);
    case Wrk(v, x) => WorkKeepsOthers(s.core, v, x, s.now, w);
  }

  lemma OthersDoNotDisturb(s: State, a: Action, g: Goroutine)
    requires Inv(s) && Can(s, a) && !TakenBy(a, g)
    ensures Undisturbed(s, Do(s, a), g)
  {
    StepRemembers(s, a);
    StepLasts(s, a);
    if g.At? && g.w in s.core.workers {
      OthersKeepWorker(s, a, g.w);
    }
  }

  lemma RelyThen(s: State, t: State, u: State, g: Goroutine)
    requires Undisturbed(s, t, g) && Undisturbed(t, u, g)
    ensures Undisturbed(s, u, g)
  {
  }
}
