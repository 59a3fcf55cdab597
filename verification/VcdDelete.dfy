/** Deleting a vApp: what must have been seen before a delete counts as done. */
module VcdDelete {
  import opened Basics
  import opened VcdCall
  import opened VcdCreate

  const REFRESH := "Refresh vApp(delete)"
  const DELETE := "Delete"
  const DELETE_EMPTY := "Delete(emptyVApp)"
  const DELETE_FALLBACK := "Delete(fallback)"

  /** An operation on the object whose payload the call is given. */
  function On(desc: string): Operation {
    Operation(desc, NO_ID)
  }

  /** Why a delete counts as done. */
  datatype Evidence =
    | ReadNotFound(error: Error)  // a read of the vApp failed as not found
    | TaskSucceeded(task: Id)     // the task of a delete of the vApp was seen to succeed
    | TextOnly(error: Error)      // no read said so: the text of a session error or a panic reads as not found

  predicate IsDelete(desc: string) {
    desc == DELETE || desc == DELETE_EMPTY || desc == DELETE_FALLBACK
  }

  /** A request made under this HREF. */
  predicate Under(run: Run<Reply>, href: Id) {
    |run.start| == 1 && run.start[0].href == href
  }

  predicate Denied(run: Run<Reply>, href: Id) {
    run.op == On(REFRESH) && Under(run, href) && run.outcome.Fails? && run.outcome.error.notFound
  }

  predicate Started(run: Run<Reply>, href: Id, task: Id) {
    IsDelete(run.op.desc) && Under(run, href) && run.outcome.Returns? && run.outcome.value.task == task
  }

  /** The evidence is what these runs gave, and it is about this very vApp. */
  predicate Backed(e: Evidence, href: Id, runs: seq<Run<Reply>>) {
    match e
    case ReadNotFound(error) => exists i :: 0 <= i < |runs| && Denied(runs[i], href) && runs[i].outcome.error == error
    case TaskSucceeded(task) =>
      (exists i :: 0 <= i < |runs| && Started(runs[i], href, task)) && SeenToSucceed(runs, task)
    case TextOnly(error) => error.notFound && forall i :: 0 <= i < |runs| ==> !Denied(runs[i], href)
  }

  // The delete as a conversation.

  /** What the caller and the context bring: the client, and how long things are tried. */
  datatype Setting = Setting(client: Option<Error>, tries: nat, turns: nat, gate: bool)

  /** How the refresh retry ends: it ends well both when the vApp was read and when it counts as gone. */
  datatype Seen = Present(reply: Reply, name: Id) | Absent(error: Error) | Unreadable(error: Error)

  datatype Look = Look(seen: Seen, calls: seq<Call>, at: Cursor)

  function Reading(href: Id, gate: bool, c: Cursor): Call {
    Asking(On(REFRESH), [Body(href, NO_ID)], gate, c)
  }

  function Before(calls: seq<Call>, l: Look): Look {
    l.(calls := calls + l.calls)
  }

  function LookOf(v: Vcd<Reply>, c: Cursor, href: Id, tries: nat, gate: bool): Look
    decreases tries
  {
    if tries == 0 then Look(Unreadable(CONTEXT_ENDED), [], c)
    else
      var call := Reading(href, gate, c);
      var st := v.ask(call);
      match st.r
      case Ok(reply) => Look(Present(reply, v.left(call)), [call], st.at)
      case Err(e) =>
        if e.notFound then Look(Absent(e), [call], st.at)
        else if tries == 1 then Look(Unreadable(e), [call], st.at)
        else Before([call], LookOf(v, st.at, href, tries - 1, gate))
  }

  /** How a delete ends, with its evidence. */
  datatype Deleting = Deleting(failure: Option<Error>, evidence: Option<Evidence>, calls: seq<Call>, at: Cursor)

  function After(calls: seq<Call>, d: Deleting): Deleting {
    d.(calls := calls + d.calls)
  }

  function Failed(t: Trail): Deleting {
    Deleting(t.failure, None, t.calls, t.at)
  }

  /** A delete call and the wait for its task. */
  function DeleteCallOf(v: Vcd<Reply>, c: Cursor, desc: string, body: Body, how: Setting): Deleting {
    var call := Asking(On(desc), [body], how.gate, c);
    var st := v.ask(call);
    if st.r.Err? then Deleting(Some(st.r.error), None, [call], st.at)
    else After([call], Awaited(st.r.value.task, WaitOf(v, st.at, st.r.value.task, how.turns, how.gate)))
  }

  /** A delete that ends as the wait for its task does. */
  function Awaited(task: Id, t: Trail): Deleting {
    Deleting(t.failure, if t.failure.None? then Some(TaskSucceeded(task)) else None, t.calls, t.at)
  }

  /** Power-off or undeploy: a refusal is passed over, a task that fails is not; the payload is what the call left. */
  datatype Stopping = Stopping(t: Trail, body: Body)

  function StopOf(v: Vcd<Reply>, c: Cursor, desc: string, body: Body, how: Setting): Stopping {
    var call := Asking(On(desc), [body], how.gate, c);
    var st := v.ask(call);
    if st.r.Err? then Stopping(Trail(None, [call], st.at), body)
    else Stopping(Then([call], WaitOf(v, st.at, st.r.value.task, how.turns, how.gate)), Body(body.href, v.left(call)))
  }

  function Stopped(calls: seq<Call>, s: Stopping): Stopping {
    s.(t := Then(calls, s.t))
  }

  function StopBothOf(v: Vcd<Reply>, c: Cursor, body: Body, how: Setting): Stopping {
    var off := StopOf(v, c, "PowerOff", body, how);
    if off.t.failure.Some? then off else Stopped(off.t.calls, StopOf(v, off.t.at, "Undeploy", off.body, how))
  }

  /** As long as the vApp or its VM has a task running, both are read again, at most `turns` times before the context ends. */
  function QuietOf(v: Vcd<Reply>, c: Cursor, vapp: Body, vm: Body, busy: bool, turns: nat, gate: bool): Stopping
    decreases turns
  {
    if !busy then Stopping(Trail(None, [], c), vapp)
    else if turns == 0 then Stopping(Trail(Some(CONTEXT_ENDED), [], c), vapp)
    else
      var first := Asking(On("Refresh vApp(waitTasks)"), [vapp], gate, c);
      var a := v.ask(first);
      if a.r.Err? then Stopping(Trail(Some(a.r.error), [first], a.at), vapp)
      else
        var second := Asking(On("Refresh VM(waitTasks)"), [vm], gate, a.at);
        var b := v.ask(second);
        var body := Body(vapp.href, v.left(first));
        if b.r.Err? then Stopping(Trail(Some(b.r.error), [first, second], b.at), body)
        else
          Stopped([first, second],
                  QuietOf(v, b.at, body, Body(vm.href, v.left(second)), a.r.value.busy || b.r.value.busy, turns - 1, gate))
  }

  function StopAllOf(v: Vcd<Reply>, c: Cursor, vapp: Body, vm: Body, busy: bool, how: Setting): Stopping {
    var quiet := QuietOf(v, c, vapp, vm, busy, how.turns, how.gate);
    if quiet.t.failure.Some? then quiet else Stopped(quiet.t.calls, StopBothOf(v, quiet.t.at, quiet.body, how))
  }

  function VmCall(c: Cursor, vm: Id, gate: bool): Call {
    Asking(On("Refresh VM for delete"), [Body(vm, NO_ID)], gate, c)
  }

  /** The vApp is there: it is stopped where it has a VM that can be read, and deleted. */
  function PresentOf(v: Vcd<Reply>, c: Cursor, body: Body, reply: Reply, how: Setting): Deleting {
    if reply.vms == 0 then DeleteCallOf(v, c, DELETE_EMPTY, body, how)
    else if reply.vms != 1 then Deleting(Some(CONTEXT_ENDED), None, [], c)
    else
      var call := VmCall(c, reply.vm, how.gate);
      var st := v.ask(call);
      if st.r.Err? then After([call], DeleteCallOf(v, st.at, DELETE_FALLBACK, body, how))
      else After([call], StopAndDeleteOf(v, st.at, body, Body(reply.vm, v.left(call)), reply.busy || st.r.value.busy, how))
  }

  function StopAndDeleteOf(v: Vcd<Reply>, c: Cursor, vapp: Body, vm: Body, busy: bool, how: Setting): Deleting {
    var stopped := StopAllOf(v, c, vapp, vm, busy, how);
    if stopped.t.failure.Some? then Failed(stopped.t)
    else After(stopped.t.calls, DeleteCallOf(v, stopped.t.at, DELETE, stopped.body, how))
  }

  /** The first read that failed as not found. */
  function FirstDenial(runs: seq<Run<Reply>>, href: Id): (e: Option<Error>)
    ensures e.None? <==> forall i :: 0 <= i < |runs| ==> !Denied(runs[i], href)
    ensures e.Some? ==> exists i :: 0 <= i < |runs| && Denied(runs[i], href) && runs[i].outcome.error == e.value
  {
    if runs == [] then None
    else if Denied(runs[0], href) then Some(runs[0].outcome.error)
    else
      var e := FirstDenial(runs[1..], href);
      assert forall i :: 1 <= i < |runs| ==> runs[i] == runs[1..][i - 1];
      assert e.Some? ==> exists i :: 0 <= i < |runs[1..]| && Denied(runs[1..][i], href) && runs[i + 1] == runs[1..][i];
      e
  }

  /** A vApp that counts as gone: by a read that said so, or by nothing but the text of an error. */
  function Judge(runs: seq<Run<Reply>>, href: Id, e: Error): Evidence {
    match FirstDenial(runs, href)
    case Some(denial) => ReadNotFound(denial)
    case None => TextOnly(e)
  }

  function DeleteOf(v: Vcd<Reply>, c: Cursor, href: Id, how: Setting): Deleting {
    if how.client.Some? then Deleting(how.client, None, [], c)
    else
      var look := LookOf(v, c, href, how.tries, how.gate);
      match look.seen
      case Unreadable(e) => Deleting(Some(e), None, look.calls, look.at)
      case Absent(e) => Deleting(None, Some(Judge(AllRuns(v, look.calls), href, e)), look.calls, look.at)
      case Present(reply, name) =>
        // The code tells a vApp that was read from one that is gone by the name in the payload.
        After(look.calls, PresentOf(v, look.at, Body(href, name), reply, how))
  }

  // What the evidence rests on.

  lemma {:induction false} LookReads(v: Vcd<Reply>, c: Cursor, href: Id, tries: nat, gate: bool)
    ensures forall call :: call in LookOf(v, c, href, tries, gate).calls ==> call == Reading(href, gate, call.from)
    ensures LookOf(v, c, href, tries, gate).seen.Absent? ==> LookOf(v, c, href, tries, gate).seen.error.notFound
    decreases tries
  {
    if tries > 1 {
      var st := v.ask(Reading(href, gate, c));
      if st.r.Err? && !st.r.error.notFound {
        LookReads(v, st.at, href, tries - 1, gate);
      }
    }
  }

  lemma StartedAndSeen(v: Vcd<Reply>, c: Cursor, desc: string, body: Body, how: Setting)
    requires Lawful(v) && IsDelete(desc)
    ensures var d := DeleteCallOf(v, c, desc, body, how);
            d.evidence.Some? ==> d.evidence.value.TaskSucceeded? && Backed(d.evidence.value, body.href, AllRuns(v, d.calls))
  {
    var d := DeleteCallOf(v, c, desc, body, how);
    if d.evidence.Some? {
      var call := Asking(On(desc), [body], how.gate, c);
      var st := v.ask(call);
      var t := WaitOf(v, st.at, st.r.value.task, how.turns, how.gate);
      assert LawfulCall(v, call);
      WaitSees(v, st.at, st.r.value.task, how.turns, how.gate);
      RanJoin(v, [call], t.calls);
      OneCall(v, call);
      LaterSeen(v.ran(call), AllRuns(v, t.calls), st.r.value.task);
      var run := Run(call.op, call.start, Returns(st.r.value));
      var i :| 0 <= i < |v.ran(call)| && v.ran(call)[i] == run;
      assert Started(AllRuns(v, d.calls)[i], body.href, st.r.value.task);
    }
  }

  lemma BackedLater(e: Evidence, href: Id, before: seq<Run<Reply>>, runs: seq<Run<Reply>>)
    requires e.TaskSucceeded? && Backed(e, href, runs)
    ensures Backed(e, href, before + runs)
  {
    var i :| 0 <= i < |runs| && Started(runs[i], href, e.task);
    assert (before + runs)[|before| + i] == runs[i];
    LaterSeen(before, runs, e.task);
  }

  lemma AfterBacked(v: Vcd<Reply>, calls: seq<Call>, d: Deleting, href: Id)
    requires d.evidence.Some? ==> d.evidence.value.TaskSucceeded? && Backed(d.evidence.value, href, AllRuns(v, d.calls))
    ensures var e := After(calls, d);
            e.evidence.Some? ==> e.evidence.value.TaskSucceeded? && Backed(e.evidence.value, href, AllRuns(v, e.calls))
  {
    RanJoin(v, calls, d.calls);
    if d.evidence.Some? {
      BackedLater(d.evidence.value, href, AllRuns(v, calls), AllRuns(v, d.calls));
    }
  }

  lemma {:induction false} QuietKeepsHref(v: Vcd<Reply>, c: Cursor, vapp: Body, vm: Body, busy: bool, turns: nat, gate: bool)
    ensures QuietOf(v, c, vapp, vm, busy, turns, gate).body.href == vapp.href
    decreases turns
  {
    if busy && turns > 0 {
      var first := Asking(On("Refresh vApp(waitTasks)"), [vapp], gate, c);
      var a := v.ask(first);
      if a.r.Ok? {
        var second := Asking(On("Refresh VM(waitTasks)"), [vm], gate, a.at);
        var b := v.ask(second);
        if b.r.Ok? {
          var next := Body(vapp.href, v.left(first));
          QuietKeepsHref(v, b.at, next, Body(vm.href, v.left(second)), a.r.value.busy || b.r.value.busy, turns - 1, gate);
        }
      }
    }
  }

  lemma StopKeepsHref(v: Vcd<Reply>, c: Cursor, vapp: Body, vm: Body, busy: bool, how: Setting)
    ensures StopAllOf(v, c, vapp, vm, busy, how).body.href == vapp.href
  {
    QuietKeepsHref(v, c, vapp, vm, busy, how.turns, how.gate);
  }

  lemma PresentBacked(v: Vcd<Reply>, c: Cursor, body: Body, reply: Reply, how: Setting)
    requires Lawful(v)
    ensures var d := PresentOf(v, c, body, reply, how);
            d.evidence.Some? ==> d.evidence.value.TaskSucceeded? && Backed(d.evidence.value, body.href, AllRuns(v, d.calls))
  {
    if reply.vms == 0 {
      StartedAndSeen(v, c, DELETE_EMPTY, body, how);
    } else if reply.vms == 1 {
      var call := VmCall(c, reply.vm, how.gate);
      var st := v.ask(call);
      if st.r.Err? {
        StartedAndSeen(v, st.at, DELETE_FALLBACK, body, how);
        AfterBacked(v, [call], DeleteCallOf(v, st.at, DELETE_FALLBACK, body, how), body.href);
      } else {
        var vm, busy := Body(reply.vm, v.left(call)), reply.busy || st.r.value.busy;
        StoppedBacked(v, st.at, body, vm, busy, how);
        AfterBacked(v, [call], StopAndDeleteOf(v, st.at, body, vm, busy, how), body.href);
      }
    }
  }

  lemma StoppedBacked(v: Vcd<Reply>, c: Cursor, vapp: Body, vm: Body, busy: bool, how: Setting)
    requires Lawful(v)
    ensures var d := StopAndDeleteOf(v, c, vapp, vm, busy, how);
            d.evidence.Some? ==> d.evidence.value.TaskSucceeded? && Backed(d.evidence.value, vapp.href, AllRuns(v, d.calls))
  {
    var stopped := StopAllOf(v, c, vapp, vm, busy, how);
    if stopped.t.failure.None? {
      StopKeepsHref(v, c, vapp, vm, busy, how);
      StartedAndSeen(v, stopped.t.at, DELETE, stopped.body, how);
      AfterBacked(v, stopped.t.calls, DeleteCallOf(v, stopped.t.at, DELETE, stopped.body, how), vapp.href);
    }
  }

  /** A delete succeeds exactly with evidence, and the evidence is what its own calls gave. */
  lemma DeleteIsBacked(v: Vcd<Reply>, c: Cursor, href: Id, how: Setting)
    requires Lawful(v)
    ensures var d := DeleteOf(v, c, href, how);
            && (d.failure.None? <==> d.evidence.Some?)
            && (d.evidence.Some? ==> Backed(d.evidence.value, href, AllRuns(v, d.calls)))
  {
    if how.client.None? {
      var look := LookOf(v, c, href, how.tries, how.gate);
      LookReads(v, c, href, how.tries, how.gate);
      match look.seen
      case Present(reply, name) =>
        PresentBacked(v, look.at, Body(href, name), reply, how);
        PresentFailsWithout(v, look.at, Body(href, name), reply, how);
        AfterBacked(v, look.calls, PresentOf(v, look.at, Body(href, name), reply, how), href);
      case Absent(e) =>
      case Unreadable(e) =>
    }
  }

  lemma PresentFailsWithout(v: Vcd<Reply>, c: Cursor, body: Body, reply: Reply, how: Setting)
    ensures var d := PresentOf(v, c, body, reply, how); d.failure.None? <==> d.evidence.Some?
  {
  }

  // When absence rests on a read.

  /** Every call that reads as not found ran into a read that said so. */
  ghost predicate Truthful(v: Vcd<Reply>) {
    forall call :: RanInto(v, call, ReadsNotFound())
  }

  lemma CleanSessionsAreTruthful(s: Script<Reply>)
    requires SessionErrors(s, NeverNotFound())
    ensures Truthful(VcdOf(s))
  {
    forall call
      ensures RanInto(VcdOf(s), call, ReadsNotFound())
    {
      NotFoundIsRun(s, call);
    }
  }

  lemma {:induction false} AbsentWasRead(v: Vcd<Reply>, c: Cursor, href: Id, tries: nat, gate: bool)
    requires Lawful(v) && Truthful(v) && LookOf(v, c, href, tries, gate).seen.Absent?
    ensures var runs := AllRuns(v, LookOf(v, c, href, tries, gate).calls);
            exists i :: 0 <= i < |runs| && Denied(runs[i], href)
    decreases tries
  {
    var call := Reading(href, gate, c);
    var st := v.ask(call);
    var look := LookOf(v, c, href, tries, gate);
    OneCall(v, call);
    if st.r.error.notFound {
      assert RanInto(v, call, ReadsNotFound()) && LawfulCall(v, call);
      var run :| run in v.ran(call) && run.outcome.Fails? && ReadsNotFound()(run.outcome.error);
      var i :| 0 <= i < |v.ran(call)| && v.ran(call)[i] == run;
      assert Denied(AllRuns(v, look.calls)[i], href);
    } else {
      var rest := LookOf(v, st.at, href, tries - 1, gate);
      AbsentWasRead(v, st.at, href, tries - 1, gate);
      RanJoin(v, [call], rest.calls);
      var runs := AllRuns(v, rest.calls);
      var i :| 0 <= i < |runs| && Denied(runs[i], href);
      assert AllRuns(v, look.calls)[|v.ran(call)| + i] == runs[i];
    }
  }

  /** Where sessions and panics never read as not found, no delete counts as done by a text alone. */
  lemma TextIsNeverAll(v: Vcd<Reply>, c: Cursor, href: Id, how: Setting)
    requires Lawful(v) && Truthful(v) && DeleteOf(v, c, href, how).evidence.Some?
    ensures !DeleteOf(v, c, href, how).evidence.value.TextOnly?
  {
    var look := LookOf(v, c, href, how.tries, how.gate);
    var d := DeleteOf(v, c, href, how);
    match look.seen
    case Absent(e) =>
      AbsentWasRead(v, c, href, how.tries, how.gate);
      var runs := AllRuns(v, look.calls);
      assert FirstDenial(runs, href).Some?;
      assert d.evidence == Some(Judge(runs, href, e));
    case Present(reply, name) =>
      PresentBacked(v, look.at, Body(href, name), reply, how);
      assert d.evidence == PresentOf(v, look.at, Body(href, name), reply, how).evidence;
    case Unreadable(_) =>
  }

  /** A vCD that answers one attempt, after which the time is up. */
  function OneAnswer(a: Attempt<Reply>): Script<Reply> {
    Script([a], [], [], [Elapsed])
  }

  /** The error of the one attempt, as the call reports it. */
  predicate Reports(st: Step<Reply>, e: Error) {
    st.r.Err? && st.r.error.sentinel == e.sentinel && (e.notFound ==> st.r.error.notFound) && st.at.done == 1
  }

  lemma OneAnswerOp(a: Attempt<Reply>, gate: bool)
    requires ResultOf(a).Err?
    ensures var st := OpOf(OneAnswer(a), START, gate, true); Reports(st, ResultOf(a).error) && st.at.pauses == 0
  {
    var s, e := OneAnswer(a), ResultOf(a).error;
    var first := AttemptAt(s, START);
    assert first == Step(Err(e), START.(done := 1));
    assert Reports(Replay(s, first, gate).st, e);
  }

  lemma OneAnswerCall(a: Attempt<Reply>, call: Call)
    requires ResultOf(a).Err? && call.retry && call.from == START
    ensures Reports(StepOf(OneAnswer(a), call), ResultOf(a).error)
  {
    OneAnswerOp(a, call.gate);
    var st := OpOf(OneAnswer(a), START, call.gate, true);
    assert PauseAt(OneAnswer(a), st.at).0 == Elapsed;
  }

  /** The failing input: a session that cannot be locked, with an error text that reads as not found. */
  function LockedOut(e: Error): Script<Reply> {
    OneAnswer(LockFails(e))
  }

  lemma LockedOutRunsNothing(e: Error, call: Call)
    requires call.retry && call.from == START
    ensures RunsOfCall(LockedOut(e), call) == []
  {
    OneAnswerCall(LockFails(e), call);
    var tried := LockedOut(e).attempts[0..1];
    assert tried == [LockFails(e)] && tried[..0] == [];
    assert RunsOf(tried[..0], call.op, call.start) == [];
  }

  /** Nothing was run, and the delete counts as done. */
  lemma SessionErrorReadsAsAbsent(e: Error, href: Id, gate: bool)
    requires e.notFound
    ensures var d := DeleteOf(VcdOf(LockedOut(e)), START, href, Setting(None, 1, 0, gate));
            d.evidence.Some? && d.evidence.value.TextOnly? && AllRuns(VcdOf(LockedOut(e)), d.calls) == []
  {
    var v, call := VcdOf(LockedOut(e)), Reading(href, gate, START);
    OneAnswerCall(LockFails(e), call);
    LockedOutRunsNothing(e, call);
    OneCall(v, call);
    assert LookOf(v, START, href, 1, gate).calls == [call];
  }

  ghost predicate NotByText(s: Script<Reply>, c: Cursor, href: Id, how: Setting) {
    var d := DeleteOf(VcdOf(s), c, href, how); d.evidence.Some? ==> !d.evidence.value.TextOnly?
  }

  /** Whatever the errors of sessions and panics may be, no delete counts as done by a text alone. */
  ghost predicate NeverByText(may: Error -> bool) {
    forall s: Script<Reply>, c, href, how :: SessionErrors(s, may) ==> NotByText(s, c, href, how)
  }

  lemma CleanSessionsNeverByText(s: Script<Reply>, c: Cursor, href: Id, how: Setting)
    requires SessionErrors(s, NeverNotFound())
    ensures NotByText(s, c, href, how)
  {
    if DeleteOf(VcdOf(s), c, href, how).evidence.Some? {
      ScriptsAreLawful(s);
      CleanSessionsAreTruthful(s);
      TextIsNeverAll(VcdOf(s), c, href, how);
    }
  }

  lemma MisleadingErrorRefutes(may: Error -> bool, e: Error)
    requires may(e) && e.notFound
    ensures !NeverByText(may)
  {
    SessionErrorReadsAsAbsent(e, NO_ID, false);
    assert SessionErrors(LockedOut(e), may);
    assert !NotByText(LockedOut(e), START, NO_ID, Setting(None, 1, 0, false));
  }

  /** The code meets this exactly when no error that a session or a panic may bring reads as not found. */
  lemma NeverByTextExactlyWhen(may: Error -> bool)
    ensures NeverByText(may) <==> forall e :: may(e) ==> !e.notFound
  {
    if e :| may(e) && e.notFound {
      MisleadingErrorRefutes(may, e);
    } else {
      forall s: Script<Reply>, c, href, how | SessionErrors(s, may)
        ensures NotByText(s, c, href, how)
      {
        assert SessionErrors(s, NeverNotFound());
        CleanSessionsNeverByText(s, c, href, how);
      }
    }
  }

  // The code.

  /** A successful read leaves the vApp's own name in the payload; names are not empty. */
  predicate ReadsNames(s: Script<Reply>) {
    forall a :: a in s.attempts && a.Runs? && a.outcome.Returns? ==> a.left.name != NO_ID
  }

  /** A call on one object; its payload is afterwards what the call left. */
  method AskOn(vcd: World<Reply>, desc: string, payload: Payload, gate: bool) returns (r: Result<Reply>)
    requires vcd.Idle()
    modifies vcd, payload
    ensures var call := Asking(On(desc), [old(payload.body)], gate, old(vcd.at));
            && vcd.Idle() && vcd.calls == old(vcd.calls) + [call] && Step(r, vcd.at) == vcd.v.ask(call)
            && payload.body == if r.Err? then old(payload.body) else Body(old(payload.body.href), vcd.v.left(call))
  {
    assert Bodies([payload]) == [payload.body];
    r := vcd.SafeCall(On(desc), gate, [payload]);
    assert Bodies([payload])[0] == payload.body;
  }

  lemma BeforeBefore(xs: seq<Call>, ys: seq<Call>, l: Look)
    ensures Before(xs, Before(ys, l)) == Before(xs + ys, l)
  {
    assert xs + (ys + l.calls) == xs + ys + l.calls;
  }

  lemma AfterAfter(xs: seq<Call>, ys: seq<Call>, d: Deleting)
    ensures After(xs, After(ys, d)) == After(xs + ys, d)
  {
    assert xs + (ys + d.calls) == xs + ys + d.calls;
  }

  /** One read of the vApp into a new payload; the name stays empty exactly when it fails. */
  method ReadOnce(vcd: World<Reply>, href: Id, gate: bool) returns (r: Result<Reply>, vapp: Payload)
    requires vcd.Idle() && ReadsNames(vcd.script)
    modifies vcd
    ensures var call := Reading(href, gate, old(vcd.at));
            && vcd.Idle() && vcd.calls == old(vcd.calls) + [call] && Step(r, vcd.at) == vcd.v.ask(call)
            && fresh(vapp) && vapp.body == Body(href, if r.Ok? then vcd.v.left(call) else NO_ID)
            && (r.Ok? ==> vapp.body.name != NO_ID)
  {
    vapp := new Payload(Body(href, NO_ID));
    ghost var call := Reading(href, gate, vcd.at);
    r := AskOn(vcd, REFRESH, vapp, gate);
    assert vcd.v.ask(call) == StepOf(vcd.script, call);
    if r.Ok? {
      NamesAreRead(vcd.script, call);
    }
  }

  lemma NamesAreRead(s: Script<Reply>, call: Call)
    requires ReadsNames(s) && StepOf(s, call).r.Ok?
    ensures NameLeft(s, StepOf(s, call).at) != NO_ID
  {
    CallEnds(s, call.from, call.gate, call.retry);
    assert s.attempts[StepOf(s, call).at.done - 1] in s.attempts;
  }

  /**
   * The refresh retry. It ends well in two ways: the vApp was read, or the error reads as not found. Only
   * the rollback of the payload tells them apart afterwards: the name stays empty.
   */
  method RefreshVApp(vcd: World<Reply>, href: Id, tries: nat, gate: bool) returns (failure: Option<Error>, vapp: Payload, seen: Seen)
    requires vcd.Idle() && ReadsNames(vcd.script)
    modifies vcd
    ensures vcd.Idle()
    ensures Look(seen, vcd.calls, vcd.at) == Before(old(vcd.calls), LookOf(vcd.v, old(vcd.at), href, tries, gate))
    ensures failure == if seen.Unreadable? then Some(seen.error) else None
    ensures fresh(vapp) && vapp.body.href == href && (vapp.body.name == NO_ID <==> !seen.Present?)
    ensures seen.Present? ==> seen.name == vapp.body.name
  {
    ghost var goal := Before(vcd.calls, LookOf(vcd.v, vcd.at, href, tries, gate));
    vapp := new Payload(Body(href, NO_ID));
    var i := 0;
    while i < tries
      invariant 0 <= i <= tries && vcd.Idle() && fresh(vapp)
      invariant goal == Before(vcd.calls, LookOf(vcd.v, vcd.at, href, tries - i, gate))
      invariant i == tries ==> tries == 0
      invariant vapp.body == Body(href, NO_ID)
    {
      ghost var was, call := vcd.calls, Reading(href, gate, vcd.at);
      var r;
      r, vapp := ReadOnce(vcd, href, gate);
      match r {
        case Ok(reply) => return None, vapp, Present(reply, vapp.body.name);
        case Err(e) =>
          if e.notFound {
            return None, vapp, Absent(e);
          }
          if i + 1 == tries {
            return Some(e), vapp, Unreadable(e);
          }
      }
      BeforeBefore(was, [call], LookOf(vcd.v, vcd.at, href, tries - i - 1, gate));
      i := i + 1;
    }
    return Some(CONTEXT_ENDED), vapp, Unreadable(CONTEXT_ENDED);
  }

  /** A delete call and the wait for its task. */
  method DeleteAndWait(vcd: World<Reply>, desc: string, vapp: Payload, how: Setting) returns (failure: Option<Error>, evidence: Option<Evidence>)
    requires vcd.Idle()
    modifies vcd, vapp
    ensures vcd.Idle()
    ensures Deleting(failure, evidence, vcd.calls, vcd.at)
            == After(old(vcd.calls), DeleteCallOf(vcd.v, old(vcd.at), desc, old(vapp.body), how))
  {
    ghost var was, call := vcd.calls, Asking(On(desc), [vapp.body], how.gate, vcd.at);
    var r := AskOn(vcd, desc, vapp, how.gate);
    if r.Err? {
      return Some(r.error), None;
    }
    AfterAfter(was, [call], Awaited(r.value.task, WaitOf(vcd.v, vcd.at, r.value.task, how.turns, how.gate)));
    failure := WaitTaskCompletion(vcd, r.value.task, how.turns, how.gate);
    evidence := if failure.None? then Some(TaskSucceeded(r.value.task)) else None;
  }

  /** Power-off or undeploy; a refusal is passed over, a failing task is not. */
  method StopStep(vcd: World<Reply>, desc: string, vapp: Payload, how: Setting) returns (failure: Option<Error>)
    requires vcd.Idle()
    modifies vcd, vapp
    ensures vcd.Idle()
    ensures var stop := StopOf(vcd.v, old(vcd.at), desc, old(vapp.body), how);
            Trail(failure, vcd.calls, vcd.at) == Then(old(vcd.calls), stop.t) && vapp.body == stop.body
  {
    ghost var was, call := vcd.calls, Asking(On(desc), [vapp.body], how.gate, vcd.at);
    var r := AskOn(vcd, desc, vapp, how.gate);
    if r.Err? {
      return None;
    }
    ThenThen(was, [call], WaitOf(vcd.v, vcd.at, r.value.task, how.turns, how.gate));
    failure := WaitTaskCompletion(vcd, r.value.task, how.turns, how.gate);
  }

  lemma StoppedStopped(xs: seq<Call>, ys: seq<Call>, s: Stopping)
    ensures Stopped(xs, Stopped(ys, s)) == Stopped(xs + ys, s)
  {
    ThenThen(xs, ys, s.t);
  }

  /** Powers off and undeploys. */
  method PowerOffAndUndeploy(vcd: World<Reply>, vapp: Payload, how: Setting) returns (failure: Option<Error>)
    requires vcd.Idle()
    modifies vcd, vapp
    ensures vcd.Idle()
    ensures Stopping(Trail(failure, vcd.calls, vcd.at), vapp.body) == Stopped(old(vcd.calls), StopBothOf(vcd.v, old(vcd.at), old(vapp.body), how))
  {
    ghost var was, off := vcd.calls, StopOf(vcd.v, vcd.at, "PowerOff", vapp.body, how);
    failure := StopStep(vcd, "PowerOff", vapp, how);
    if failure.Some? {
      return;
    }
    StoppedStopped(was, off.t.calls, StopOf(vcd.v, off.t.at, "Undeploy", off.body, how));
    failure := StopStep(vcd, "Undeploy", vapp, how);
  }

  /** Waits until neither the vApp nor its VM has a task running. */
  method WaitForTasks(vcd: World<Reply>, vapp: Payload, vm: Payload, running: bool, turns: nat, gate: bool) returns (failure: Option<Error>)
    requires vcd.Idle() && vapp != vm
    modifies vcd, vapp, vm
    ensures vcd.Idle()
    ensures Stopping(Trail(failure, vcd.calls, vcd.at), vapp.body)
            == Stopped(old(vcd.calls), QuietOf(vcd.v, old(vcd.at), old(vapp.body), old(vm.body), running, turns, gate))
  {
    ghost var goal := Stopped(vcd.calls, QuietOf(vcd.v, vcd.at, vapp.body, vm.body, running, turns, gate));
    var busy, left := running, turns;
    while busy
      invariant vcd.Idle()
      invariant goal == Stopped(vcd.calls, QuietOf(vcd.v, vcd.at, vapp.body, vm.body, busy, left, gate))
      decreases left
    {
      if left == 0 {
        return Some(CONTEXT_ENDED);
      }
      ghost var was := vcd.calls;
      failure, busy := RefreshBoth(vcd, vapp, vm, gate);
      if failure.Some? {
        return;
      }
      StoppedStopped(was, vcd.calls[|was|..], QuietOf(vcd.v, vcd.at, vapp.body, vm.body, busy, left - 1, gate));
      left := left - 1;
    }
    return None;
  }

  /** The vApp is read, and then its VM. */
  method RefreshBoth(vcd: World<Reply>, vapp: Payload, vm: Payload, gate: bool) returns (failure: Option<Error>, busy: bool)
    requires vcd.Idle() && vapp != vm
    modifies vcd, vapp, vm
    ensures vcd.Idle()
    ensures var first := Asking(On("Refresh vApp(waitTasks)"), [old(vapp.body)], gate, old(vcd.at));
            var a := vcd.v.ask(first);
            if a.r.Err? then
              && failure == Some(a.r.error) && vcd.calls == old(vcd.calls) + [first] && vcd.at == a.at && vapp.body == old(vapp.body)
            else
              var second := Asking(On("Refresh VM(waitTasks)"), [old(vm.body)], gate, a.at);
              var b := vcd.v.ask(second);
              && vcd.calls == old(vcd.calls) + [first, second] && vcd.at == b.at
              && vapp.body == Body(old(vapp.body.href), vcd.v.left(first))
              && failure == (if b.r.Err? then Some(b.r.error) else None)
              && (b.r.Ok? ==> vm.body == Body(old(vm.body.href), vcd.v.left(second)) && busy == (a.r.value.busy || b.r.value.busy))
  {
    ghost var was := vcd.calls;
    ghost var first := Asking(On("Refresh vApp(waitTasks)"), [vapp.body], gate, vcd.at);
    var a := AskOn(vcd, "Refresh vApp(waitTasks)", vapp, gate);
    if a.Err? {
      return Some(a.error), true;
    }
    ghost var second := Asking(On("Refresh VM(waitTasks)"), [vm.body], gate, vcd.at);
    var b := AskOn(vcd, "Refresh VM(waitTasks)", vm, gate);
    assert was + [first] + [second] == was + [first, second];
    if b.Err? {
      return Some(b.error), true;
    }
    return None, a.value.busy || b.value.busy;
  }

  method StopVApp(vcd: World<Reply>, vapp: Payload, vm: Payload, busy: bool, how: Setting) returns (failure: Option<Error>)
    requires vcd.Idle() && vapp != vm
    modifies vcd, vapp, vm
    ensures vcd.Idle()
    ensures Stopping(Trail(failure, vcd.calls, vcd.at), vapp.body)
            == Stopped(old(vcd.calls), StopAllOf(vcd.v, old(vcd.at), old(vapp.body), old(vm.body), busy, how))
  {
    ghost var was, quiet := vcd.calls, QuietOf(vcd.v, vcd.at, vapp.body, vm.body, busy, how.turns, how.gate);
    failure := WaitForTasks(vcd, vapp, vm, busy, how.turns, how.gate);
    if failure.Some? {
      return;
    }
    StoppedStopped(was, quiet.t.calls, StopBothOf(vcd.v, vcd.at, vapp.body, how));
    failure := PowerOffAndUndeploy(vcd, vapp, how);
  }

  /** The vApp is there: it is stopped where it has a VM that can be read, and deleted. */
  method DeletePresent(vcd: World<Reply>, vapp: Payload, reply: Reply, how: Setting) returns (failure: Option<Error>, evidence: Option<Evidence>)
    requires vcd.Idle()
    modifies vcd, vapp
    ensures vcd.Idle()
    ensures Deleting(failure, evidence, vcd.calls, vcd.at)
            == After(old(vcd.calls), PresentOf(vcd.v, old(vcd.at), old(vapp.body), reply, how))
  {
    if reply.vms == 0 {
      failure, evidence := DeleteAndWait(vcd, DELETE_EMPTY, vapp, how);
      return;
    }
    if reply.vms != 1 {
      return Some(CONTEXT_ENDED), None;
    }
    ghost var was, call := vcd.calls, VmCall(vcd.at, reply.vm, how.gate);
    var vm := new Payload(Body(reply.vm, NO_ID));
    var r := AskOn(vcd, "Refresh VM for delete", vm, how.gate);
    if r.Err? {
      AfterAfter(was, [call], DeleteCallOf(vcd.v, vcd.at, DELETE_FALLBACK, vapp.body, how));
      failure, evidence := DeleteAndWait(vcd, DELETE_FALLBACK, vapp, how);
      return;
    }
    AfterAfter(was, [call], StopAndDeleteOf(vcd.v, vcd.at, vapp.body, vm.body, reply.busy || r.value.busy, how));
    failure, evidence := StopAndDelete(vcd, vapp, vm, reply.busy || r.value.busy, how);
  }

  method StopAndDelete(vcd: World<Reply>, vapp: Payload, vm: Payload, busy: bool, how: Setting) returns (failure: Option<Error>, evidence: Option<Evidence>)
    requires vcd.Idle() && vapp != vm
    modifies vcd, vapp, vm
    ensures vcd.Idle()
    ensures Deleting(failure, evidence, vcd.calls, vcd.at)
            == After(old(vcd.calls), StopAndDeleteOf(vcd.v, old(vcd.at), old(vapp.body), old(vm.body), busy, how))
  {
    ghost var was, stopped := vcd.calls, StopAllOf(vcd.v, vcd.at, vapp.body, vm.body, busy, how);
    failure := StopVApp(vcd, vapp, vm, busy, how);
    if failure.Some? {
      return failure, None;
    }
    AfterAfter(was, stopped.t.calls, DeleteCallOf(vcd.v, stopped.t.at, DELETE, stopped.body, how));
    failure, evidence := DeleteAndWait(vcd, DELETE, vapp, how);
  }

  /** The delete makes exactly the calls of DeleteOf, and ends as it does; what that means is DeleteIsBacked. */
  method DeleteInstance(vcd: World<Reply>, href: Id, how: Setting) returns (failure: Option<Error>, evidence: Option<Evidence>)
    requires vcd.Idle() && ReadsNames(vcd.script)
    modifies vcd
    ensures vcd.Idle()
    ensures Deleting(failure, evidence, vcd.calls, vcd.at) == After(old(vcd.calls), DeleteOf(vcd.v, old(vcd.at), href, how))
  {
    if how.client.Some? {
      return how.client, None;
    }
    ghost var was, look := vcd.calls, LookOf(vcd.v, vcd.at, href, how.tries, how.gate);
    var n := |vcd.runs|;
    var vapp, seen;
    failure, vapp, seen := RefreshVApp(vcd, href, how.tries, how.gate);
    if failure.Some? {
      return failure, None;
    }
    if vapp.body.name == NO_ID {
      RanJoin(vcd.v, was, look.calls);
      assert vcd.runs[n..] == AllRuns(vcd.v, look.calls);
      return None, Some(Judge(vcd.runs[n..], href, seen.error));
    }
    AfterAfter(was, look.calls, PresentOf(vcd.v, look.at, vapp.body, seen.reply, how));
    failure, evidence := DeletePresent(vcd, vapp, seen.reply, how);
  }
}
