/** Cleaning up after a failed create: what must have been seen before its name may be let go. */
module VcdCleanup {
  import opened Basics
  import opened VcdCall
  import opened VcdCreate
  import opened VcdDelete

  function GetVApp(name: Id): Operation {
    Operation("GetVAppByName(cleanup)", name)
  }

  // The cleanup of a name as a conversation.

  datatype Cleaning = Cleaning(failure: Option<Error>, found: Option<Id>, evidence: Option<Evidence>, calls: seq<Call>, at: Cursor)

  /** The organization, its data center, the vApp of the name, and the delete of it; any of them may fail. */
  function CleanupOf(v: Vcd<Reply>, c: Cursor, name: Id, how: Setting): Cleaning {
    if how.client.Some? then Cleaning(how.client, None, None, [], c)
    else
      var org := Asking(On("GetOrgByName(cleanup)"), [], how.gate, c);
      var a := v.ask(org);
      if a.r.Err? then Cleaning(Some(a.r.error), None, None, [org], a.at)
      else
        var vdc := Asking(On("GetVDCByName(cleanup)"), [], how.gate, a.at);
        var b := v.ask(vdc);
        if b.r.Err? then Cleaning(Some(b.r.error), None, None, [org, vdc], b.at)
        else Cleaned([org, vdc], FindOf(v, b.at, name, how))
  }

  function Cleaned(calls: seq<Call>, f: Cleaning): Cleaning {
    f.(calls := calls + f.calls)
  }

  lemma CleanedCleaned(xs: seq<Call>, ys: seq<Call>, f: Cleaning)
    ensures Cleaned(xs, Cleaned(ys, f)) == Cleaned(xs + ys, f)
  {
    assert xs + (ys + f.calls) == xs + ys + f.calls;
  }

  function FindOf(v: Vcd<Reply>, c: Cursor, name: Id, how: Setting): Cleaning {
    var find := Asking(GetVApp(name), [], how.gate, c);
    var st := v.ask(find);
    if st.r.Err? then Cleaning(Some(st.r.error), None, None, [find], st.at)
    else
      var d := DeleteOf(v, st.at, st.r.value.href, how);
      Cleaning(d.failure, Some(st.r.value.href), d.evidence, [find] + d.calls, d.at)
  }

  /** A lookup of this very name that vCD answered with the sentinel. */
  predicate Missed(run: Run<Reply>, name: Id) {
    run.op == GetVApp(name) && run.outcome.Fails? && run.outcome.error.sentinel
  }

  /** What a cleanup's not-found error stands for. */
  datatype Miss =
    | NameMissing(error: Error)   // a lookup of the name found nothing
    | OtherMissing(error: Error)  // something else was not found, or could not be asked

  function FirstMiss(runs: seq<Run<Reply>>, name: Id): (e: Option<Error>)
    ensures e.None? <==> forall i :: 0 <= i < |runs| ==> !Missed(runs[i], name)
    ensures e.Some? ==> exists i :: 0 <= i < |runs| && Missed(runs[i], name) && runs[i].outcome.error == e.value
  {
    if runs == [] then None
    else if Missed(runs[0], name) then Some(runs[0].outcome.error)
    else
      var e := FirstMiss(runs[1..], name);
      assert forall i :: 1 <= i < |runs| ==> runs[i] == runs[1..][i - 1];
      assert e.Some? ==> exists i :: 0 <= i < |runs[1..]| && Missed(runs[1..][i], name) && runs[i + 1] == runs[1..][i];
      e
  }

  function MissOf(runs: seq<Run<Reply>>, name: Id, e: Error): Miss {
    match FirstMiss(runs, name)
    case Some(m) => NameMissing(m)
    case None => OtherMissing(e)
  }

  /** The miss is what these runs gave. */
  predicate MissBacked(m: Miss, name: Id, runs: seq<Run<Reply>>) {
    match m
    case NameMissing(e) => exists i :: 0 <= i < |runs| && Missed(runs[i], name) && runs[i].outcome.error == e
    case OtherMissing(e) => e.sentinel && forall i :: 0 <= i < |runs| ==> !Missed(runs[i], name)
  }

  // Where a not-found of a cleanup comes from.

  /** The error is how one of these calls ended, or the caller brought it. */
  predicate BroughtBy(v: Vcd<Reply>, calls: seq<Call>, how: Setting, e: Error) {
    || (exists k :: 0 <= k < |calls| && v.ask(calls[k]).r == Err(e))
    || how.client == Some(e)
  }

  lemma BroughtLater(v: Vcd<Reply>, before: seq<Call>, calls: seq<Call>, how: Setting, e: Error)
    requires BroughtBy(v, calls, how, e)
    ensures BroughtBy(v, before + calls, how, e)
  {
    if k :| 0 <= k < |calls| && v.ask(calls[k]).r == Err(e) {
      assert (before + calls)[|before| + k] == calls[k];
    }
  }

  lemma OneBrought(v: Vcd<Reply>, call: Call, how: Setting)
    requires v.ask(call).r.Err?
    ensures BroughtBy(v, [call], how, v.ask(call).r.error)
  {
    assert [call][0] == call;
  }

  lemma {:induction false} WaitBrought(v: Vcd<Reply>, c: Cursor, task: Id, turns: nat, how: Setting)
    ensures var t := WaitOf(v, c, task, turns, how.gate);
            t.failure.Some? && t.failure.value.sentinel ==> BroughtBy(v, t.calls, how, t.failure.value)
    decreases turns
  {
    if turns > 0 {
      var call := Asking(RefreshTask(task), [], how.gate, c);
      var st := v.ask(call);
      if st.r.Err? {
        OneBrought(v, call, how);
      } else if st.r.value.status == InProgress {
        var rest := WaitOf(v, st.at, task, turns - 1, how.gate);
        WaitBrought(v, st.at, task, turns - 1, how);
        if rest.failure.Some? && rest.failure.value.sentinel {
          BroughtLater(v, [call], rest.calls, how, rest.failure.value);
        }
      }
    }
  }

  lemma DeleteCallBrought(v: Vcd<Reply>, c: Cursor, desc: string, body: Body, how: Setting)
    ensures var d := DeleteCallOf(v, c, desc, body, how);
            d.failure.Some? && d.failure.value.sentinel ==> BroughtBy(v, d.calls, how, d.failure.value)
  {
    var call := Asking(On(desc), [body], how.gate, c);
    var st := v.ask(call);
    if st.r.Err? {
      OneBrought(v, call, how);
    } else {
      var t := WaitOf(v, st.at, st.r.value.task, how.turns, how.gate);
      WaitBrought(v, st.at, st.r.value.task, how.turns, how);
      if t.failure.Some? && t.failure.value.sentinel {
        BroughtLater(v, [call], t.calls, how, t.failure.value);
      }
    }
  }

  lemma StopBrought(v: Vcd<Reply>, c: Cursor, desc: string, body: Body, how: Setting)
    ensures var t := StopOf(v, c, desc, body, how).t;
            t.failure.Some? && t.failure.value.sentinel ==> BroughtBy(v, t.calls, how, t.failure.value)
  {
    var call := Asking(On(desc), [body], how.gate, c);
    var st := v.ask(call);
    if st.r.Ok? {
      var t := WaitOf(v, st.at, st.r.value.task, how.turns, how.gate);
      WaitBrought(v, st.at, st.r.value.task, how.turns, how);
      if t.failure.Some? && t.failure.value.sentinel {
        BroughtLater(v, [call], t.calls, how, t.failure.value);
      }
    }
  }

  lemma StoppedBroughtLater(v: Vcd<Reply>, calls: seq<Call>, s: Stopping, how: Setting)
    requires s.t.failure.Some? && s.t.failure.value.sentinel ==> BroughtBy(v, s.t.calls, how, s.t.failure.value)
    ensures var t := Stopped(calls, s).t; t.failure.Some? && t.failure.value.sentinel ==> BroughtBy(v, t.calls, how, t.failure.value)
  {
    if s.t.failure.Some? && s.t.failure.value.sentinel {
      BroughtLater(v, calls, s.t.calls, how, s.t.failure.value);
    }
  }

  lemma StopBothBrought(v: Vcd<Reply>, c: Cursor, body: Body, how: Setting)
    ensures var t := StopBothOf(v, c, body, how).t;
            t.failure.Some? && t.failure.value.sentinel ==> BroughtBy(v, t.calls, how, t.failure.value)
  {
    var off := StopOf(v, c, "PowerOff", body, how);
    StopBrought(v, c, "PowerOff", body, how);
    if off.t.failure.None? {
      StopBrought(v, off.t.at, "Undeploy", off.body, how);
      StoppedBroughtLater(v, off.t.calls, StopOf(v, off.t.at, "Undeploy", off.body, how), how);
    }
  }

  lemma {:induction false} QuietBrought(v: Vcd<Reply>, c: Cursor, vapp: Body, vm: Body, busy: bool, turns: nat, how: Setting)
    ensures var t := QuietOf(v, c, vapp, vm, busy, turns, how.gate).t;
            t.failure.Some? && t.failure.value.sentinel ==> BroughtBy(v, t.calls, how, t.failure.value)
    decreases turns
  {
    if busy && turns > 0 {
      var first := Asking(On("Refresh vApp(waitTasks)"), [vapp], how.gate, c);
      var a := v.ask(first);
      if a.r.Err? {
        OneBrought(v, first, how);
      } else {
        var second := Asking(On("Refresh VM(waitTasks)"), [vm], how.gate, a.at);
        var b := v.ask(second);
        if b.r.Err? {
          OneBrought(v, second, how);
          BroughtLater(v, [first], [second], how, b.r.error);
          assert [first] + [second] == [first, second];
        } else {
          var next, other, more := Body(vapp.href, v.left(first)), Body(vm.href, v.left(second)), a.r.value.busy || b.r.value.busy;
          QuietBrought(v, b.at, next, other, more, turns - 1, how);
          StoppedBroughtLater(v, [first, second], QuietOf(v, b.at, next, other, more, turns - 1, how.gate), how);
        }
      }
    }
  }

  lemma StopAllBrought(v: Vcd<Reply>, c: Cursor, vapp: Body, vm: Body, busy: bool, how: Setting)
    ensures var t := StopAllOf(v, c, vapp, vm, busy, how).t;
            t.failure.Some? && t.failure.value.sentinel ==> BroughtBy(v, t.calls, how, t.failure.value)
  {
    var quiet := QuietOf(v, c, vapp, vm, busy, how.turns, how.gate);
    QuietBrought(v, c, vapp, vm, busy, how.turns, how);
    if quiet.t.failure.None? {
      StopBothBrought(v, quiet.t.at, quiet.body, how);
      StoppedBroughtLater(v, quiet.t.calls, StopBothOf(v, quiet.t.at, quiet.body, how), how);
    }
  }

  lemma AfterBrought(v: Vcd<Reply>, calls: seq<Call>, d: Deleting, how: Setting)
    requires d.failure.Some? && d.failure.value.sentinel ==> BroughtBy(v, d.calls, how, d.failure.value)
    ensures var a := After(calls, d);
            a.failure.Some? && a.failure.value.sentinel ==> BroughtBy(v, a.calls, how, a.failure.value)
  {
    if d.failure.Some? && d.failure.value.sentinel {
      BroughtLater(v, calls, d.calls, how, d.failure.value);
    }
  }

  lemma PresentBrought(v: Vcd<Reply>, c: Cursor, body: Body, reply: Reply, how: Setting)
    ensures var d := PresentOf(v, c, body, reply, how);
            d.failure.Some? && d.failure.value.sentinel ==> BroughtBy(v, d.calls, how, d.failure.value)
  {
    if reply.vms == 0 {
      DeleteCallBrought(v, c, DELETE_EMPTY, body, how);
    } else if reply.vms == 1 {
      var call := VmCall(c, reply.vm, how.gate);
      var st := v.ask(call);
      if st.r.Err? {
        DeleteCallBrought(v, st.at, DELETE_FALLBACK, body, how);
        AfterBrought(v, [call], DeleteCallOf(v, st.at, DELETE_FALLBACK, body, how), how);
      } else {
        var vm, busy := Body(reply.vm, v.left(call)), reply.busy || st.r.value.busy;
        StoppedBrought(v, st.at, body, vm, busy, how);
        AfterBrought(v, [call], StopAndDeleteOf(v, st.at, body, vm, busy, how), how);
      }
    }
  }

  lemma StoppedBrought(v: Vcd<Reply>, c: Cursor, vapp: Body, vm: Body, busy: bool, how: Setting)
    ensures var d := StopAndDeleteOf(v, c, vapp, vm, busy, how);
            d.failure.Some? && d.failure.value.sentinel ==> BroughtBy(v, d.calls, how, d.failure.value)
  {
    var stopped := StopAllOf(v, c, vapp, vm, busy, how);
    StopAllBrought(v, c, vapp, vm, busy, how);
    if stopped.t.failure.None? {
      DeleteCallBrought(v, stopped.t.at, DELETE, stopped.body, how);
      AfterBrought(v, stopped.t.calls, DeleteCallOf(v, stopped.t.at, DELETE, stopped.body, how), how);
    }
  }

  lemma {:induction false} UnreadableIsNoMiss(v: Vcd<Reply>, c: Cursor, href: Id, tries: nat, gate: bool)
    ensures var seen := LookOf(v, c, href, tries, gate).seen; seen.Unreadable? ==> !seen.error.sentinel
    decreases tries
  {
    if tries > 1 {
      var st := v.ask(Reading(href, gate, c));
      if st.r.Err? && !st.r.error.notFound {
        UnreadableIsNoMiss(v, st.at, href, tries - 1, gate);
      }
    }
  }

  lemma DeleteBrought(v: Vcd<Reply>, c: Cursor, href: Id, how: Setting)
    ensures var d := DeleteOf(v, c, href, how);
            d.failure.Some? && d.failure.value.sentinel ==> BroughtBy(v, d.calls, how, d.failure.value)
  {
    if how.client.None? {
      var look := LookOf(v, c, href, how.tries, how.gate);
      UnreadableIsNoMiss(v, c, href, how.tries, how.gate);
      if look.seen.Present? {
        PresentBrought(v, look.at, Body(href, look.seen.name), look.seen.reply, how);
        AfterBrought(v, look.calls, PresentOf(v, look.at, Body(href, look.seen.name), look.seen.reply, how), how);
      }
    }
  }

  lemma FindBrought(v: Vcd<Reply>, c: Cursor, name: Id, how: Setting)
    ensures var f := FindOf(v, c, name, how);
            f.failure.Some? && f.failure.value.sentinel ==> BroughtBy(v, f.calls, how, f.failure.value)
  {
    var find := Asking(GetVApp(name), [], how.gate, c);
    var st := v.ask(find);
    if st.r.Err? {
      OneBrought(v, find, how);
    } else {
      var d := DeleteOf(v, st.at, st.r.value.href, how);
      DeleteBrought(v, st.at, st.r.value.href, how);
      if d.failure.Some? && d.failure.value.sentinel {
        BroughtLater(v, [find], d.calls, how, d.failure.value);
      }
    }
  }

  /** A not-found of a cleanup is how one of its calls ended, or the caller brought it. */
  lemma CleanupBrought(v: Vcd<Reply>, c: Cursor, name: Id, how: Setting)
    ensures var f := CleanupOf(v, c, name, how);
            f.failure.Some? && f.failure.value.sentinel ==> BroughtBy(v, f.calls, how, f.failure.value)
  {
    if how.client.None? {
      var org := Asking(On("GetOrgByName(cleanup)"), [], how.gate, c);
      var a := v.ask(org);
      if a.r.Err? {
        OneBrought(v, org, how);
      } else {
        var vdc := Asking(On("GetVDCByName(cleanup)"), [], how.gate, a.at);
        var b := v.ask(vdc);
        if b.r.Err? {
          OneBrought(v, vdc, how);
          BroughtLater(v, [org], [vdc], how, b.r.error);
          assert [org] + [vdc] == [org, vdc];
        } else {
          var f := FindOf(v, b.at, name, how);
          FindBrought(v, b.at, name, how);
          if f.failure.Some? && f.failure.value.sentinel {
            BroughtLater(v, [org, vdc], f.calls, how, f.failure.value);
          }
        }
      }
    }
  }

  /** Errors other than the answers to lookups of this name: of sessions, of other operations, and of the caller. */
  predicate OtherErrors(s: Script<Reply>, calls: seq<Call>, name: Id, how: Setting, may: Error -> bool) {
    && (how.client.Some? ==> may(how.client.value))
    && forall k :: 0 <= k < |calls| ==> OtherErrorsOf(s, calls[k], name, may)
  }

  predicate OtherErrorsOf(s: Script<Reply>, call: Call, name: Id, may: Error -> bool) {
    forall i :: 0 <= i < |s.attempts| && call.from.done <= i < StepOf(s, call).at.done ==>
      match s.attempts[i]
      case LockFails(e) => may(e)
      case Runs(Fails(e), _) => call.op == GetVApp(name) || may(e)
      case _ => true
  }

  /** A call that ends with the sentinel ran into it in a lookup of this name, unless some other error wraps it. */
  lemma SentinelOfCall(s: Script<Reply>, call: Call, name: Id, may: Error -> bool)
    requires (forall e :: may(e) ==> !e.sentinel) && OtherErrorsOf(s, call, name, may)
    requires StepOf(s, call).r.Err? && StepOf(s, call).r.error.sentinel
    ensures exists run :: run in RunsOfCall(s, call) && Missed(run, name)
  {
    CallSentinel(s, call.from, call.gate, call.retry);
    var i :| call.from.done <= i < StepOf(s, call).at.done && ResultOf(s.attempts[i]).Err? && ResultOf(s.attempts[i]).error.sentinel;
    assert s.attempts[i].Runs? && s.attempts[i].outcome.Fails? && call.op == GetVApp(name);
    AttemptIsRun(s, call, i);
    assert Missed(Run(call.op, call.start, s.attempts[i].outcome), name);
  }

  /** What a cleanup's not-found error stands for, given what ran. */
  function CleanupMiss(v: Vcd<Reply>, f: Cleaning, name: Id): Miss
    requires f.failure.Some?
  {
    MissOf(AllRuns(v, f.calls), name, f.failure.value)
  }

  /** Where no other error wraps the sentinel, a cleanup ends as not found only after a lookup of its name found nothing. */
  lemma MissIsOfName(s: Script<Reply>, c: Cursor, name: Id, how: Setting, may: Error -> bool)
    requires forall e :: may(e) ==> !e.sentinel
    requires var f := CleanupOf(VcdOf(s), c, name, how);
             f.failure.Some? && f.failure.value.sentinel && OtherErrors(s, f.calls, name, how, may)
    ensures CleanupMiss(VcdOf(s), CleanupOf(VcdOf(s), c, name, how), name).NameMissing?
  {
    var v := VcdOf(s);
    var f := CleanupOf(v, c, name, how);
    CleanupBrought(v, c, name, how);
    var k :| 0 <= k < |f.calls| && v.ask(f.calls[k]).r == Err(f.failure.value);
    assert OtherErrorsOf(s, f.calls[k], name, may);
    SentinelOfCall(s, f.calls[k], name, may);
    var run :| run in RunsOfCall(s, f.calls[k]) && Missed(run, name);
    assert run in v.ran(f.calls[k]);
    RanByCalls(v, f.calls, run);
    var runs := AllRuns(v, f.calls);
    var i :| 0 <= i < |runs| && runs[i] == run;
    assert FirstMiss(runs, name).Some?;
  }

  /** The failing input: the organization is not found, so the name is never looked up. */
  function NoOrganization(e: Error): Script<Reply> {
    OneAnswer(Runs(Fails(e), Body(NO_ID, NO_ID)))
  }

  lemma NoOrganizationReadsAsMiss(e: Error, name: Id, gate: bool)
    requires e.sentinel
    ensures var v := VcdOf(NoOrganization(e));
            var f := CleanupOf(v, START, name, Setting(None, 1, 0, gate));
            && f.failure.Some? && f.failure.value.sentinel && CleanupMiss(v, f, name).OtherMissing?
            && f.calls == [Asking(On("GetOrgByName(cleanup)"), [], gate, START)]
  {
    var s := NoOrganization(e);
    var v, how := VcdOf(s), Setting(None, 1, 0, gate);
    var org := Asking(On("GetOrgByName(cleanup)"), [], gate, START);
    OneAnswerCall(s.attempts[0], org);
    assert StepOf(s, org).r.Err?;
    var runs := AllRuns(v, [org]);
    OneCall(v, org);
    forall i | 0 <= i < |runs|
      ensures !Missed(runs[i], name)
    {
      CallIsLawful(s, org);
      assert runs[i] in v.ran(org) && runs[i].op == org.op;
    }
  }

  /** Whatever the other errors may be, a cleanup ends as not found only after a lookup of its name found nothing. */
  ghost predicate OnlyByLookup(may: Error -> bool) {
    forall s: Script<Reply>, c, name, how ::
      var f := CleanupOf(VcdOf(s), c, name, how);
      f.failure.Some? && f.failure.value.sentinel && OtherErrors(s, f.calls, name, how, may) ==> CleanupMiss(VcdOf(s), f, name).NameMissing?
  }

  /** The code meets this exactly when no error of a session, of another operation or of the caller wraps the sentinel. */
  lemma OnlyByLookupExactlyWhen(may: Error -> bool)
    ensures OnlyByLookup(may) <==> forall e :: may(e) ==> !e.sentinel
  {
    if e :| may(e) && e.sentinel {
      OtherMissRefutes(may, e);
    } else {
      forall s: Script<Reply>, c, name, how
        ensures var f := CleanupOf(VcdOf(s), c, name, how);
                f.failure.Some? && f.failure.value.sentinel && OtherErrors(s, f.calls, name, how, may) ==>
                  CleanupMiss(VcdOf(s), f, name).NameMissing?
      {
        var f := CleanupOf(VcdOf(s), c, name, how);
        if f.failure.Some? && f.failure.value.sentinel && OtherErrors(s, f.calls, name, how, may) {
          MissIsOfName(s, c, name, how, may);
        }
      }
    }
  }

  lemma OtherMissRefutes(may: Error -> bool, e: Error)
    requires may(e) && e.sentinel
    ensures !OnlyByLookup(may)
  {
    var s, how := NoOrganization(e), Setting(None, 1, 0, false);
    NoOrganizationReadsAsMiss(e, NO_ID, false);
    var f := CleanupOf(VcdOf(s), START, NO_ID, how);
    assert OtherErrorsOf(s, f.calls[0], NO_ID, may);
    assert OtherErrors(s, f.calls, NO_ID, how, may);
  }

  /** A cleanup succeeds only through a delete, with its evidence, of the vApp that a lookup of its name returned. */
  lemma CleanupIsBacked(v: Vcd<Reply>, c: Cursor, name: Id, how: Setting)
    requires Lawful(v)
    ensures var f := CleanupOf(v, c, name, how);
            var runs := AllRuns(v, f.calls);
            && (f.failure.None? <==> f.evidence.Some?) && (f.evidence.Some? ==> f.found.Some?)
            && (f.evidence.Some? ==> exists m :: 0 <= m <= |runs| && FoundBy(runs[..m], name, f.found.value) && Backed(f.evidence.value, f.found.value, runs[m..]))
            && (f.failure.Some? && f.failure.value.sentinel ==> MissBacked(CleanupMiss(v, f, name), name, runs))
  {
    var f := CleanupOf(v, c, name, how);
    if f.evidence.Some? {
      var org := f.calls[0];
      var vdc := f.calls[1];
      FindIsBacked(v, name, how, org, vdc);
    }
  }

  /** Some lookup of the name returned this HREF. */
  ghost predicate FoundBy(runs: seq<Run<Reply>>, name: Id, href: Id) {
    exists run :: run in runs && run.op == GetVApp(name) && run.outcome.Returns? && run.outcome.value.href == href
  }

  lemma FindIsBacked(v: Vcd<Reply>, name: Id, how: Setting, org: Call, vdc: Call)
    requires Lawful(v)
    ensures var f := Cleaned([org, vdc], FindOf(v, v.ask(vdc).at, name, how));
            var runs := AllRuns(v, f.calls);
            && (f.failure.None? <==> f.evidence.Some?) && (f.evidence.Some? ==> f.found.Some?)
            && (f.evidence.Some? ==> exists m :: 0 <= m <= |runs| && FoundBy(runs[..m], name, f.found.value) && Backed(f.evidence.value, f.found.value, runs[m..]))
  {
    var find := Asking(GetVApp(name), [], how.gate, v.ask(vdc).at);
    var st := v.ask(find);
    if st.r.Ok? {
      var d := DeleteOf(v, st.at, st.r.value.href, how);
      DeleteIsBacked(v, st.at, st.r.value.href, how);
      var before := [org, vdc] + [find];
      assert [org, vdc] + ([find] + d.calls) == before + d.calls;
      RanJoin(v, before, d.calls);
      RanJoin(v, [org, vdc], [find]);
      OneCall(v, find);
      assert LawfulCall(v, find);
      var runs, m := AllRuns(v, before + d.calls), |AllRuns(v, before)|;
      assert runs[..m] == AllRuns(v, before) && runs[m..] == AllRuns(v, d.calls);
      var run := Run(find.op, find.start, Returns(st.r.value));
      assert run in runs[..m];
    }
  }

  // The code.

  /** A call that asks about nothing it was given. */
  method AskFor(vcd: World<Reply>, op: Operation, gate: bool) returns (r: Result<Reply>)
    requires vcd.Idle()
    modifies vcd
    ensures var call := Asking(op, [], gate, old(vcd.at));
            vcd.Idle() && vcd.calls == old(vcd.calls) + [call] && Step(r, vcd.at) == vcd.v.ask(call)
  {
    r := vcd.SafeCall(op, gate, []);
  }

  /** The cleanup makes exactly the calls of CleanupOf, and ends as it does; what that means is CleanupIsBacked. */
  method CleanUpInstanceByName(vcd: World<Reply>, name: Id, how: Setting)
    returns (failure: Option<Error>, found: Option<Id>, evidence: Option<Evidence>)
    requires vcd.Idle() && ReadsNames(vcd.script)
    modifies vcd
    ensures vcd.Idle()
    ensures var f := CleanupOf(vcd.v, old(vcd.at), name, how);
            Cleaning(failure, found, evidence, vcd.calls, vcd.at) == Cleaned(old(vcd.calls), f)
  {
    if how.client.Some? {
      return how.client, None, None;
    }
    ghost var was := vcd.calls;
    ghost var org := Asking(On("GetOrgByName(cleanup)"), [], how.gate, vcd.at);
    var r := AskFor(vcd, On("GetOrgByName(cleanup)"), how.gate);
    if r.Err? {
      return Some(r.error), None, None;
    }
    ghost var vdc := Asking(On("GetVDCByName(cleanup)"), [], how.gate, vcd.at);
    r := AskFor(vcd, On("GetVDCByName(cleanup)"), how.gate);
    assert vcd.calls == was + [org, vdc];
    if r.Err? {
      return Some(r.error), None, None;
    }
    CleanedCleaned(was, [org, vdc], FindOf(vcd.v, vcd.at, name, how));
    failure, found, evidence := FindAndDelete(vcd, name, how);
  }

  method FindAndDelete(vcd: World<Reply>, name: Id, how: Setting)
    returns (failure: Option<Error>, found: Option<Id>, evidence: Option<Evidence>)
    requires vcd.Idle() && ReadsNames(vcd.script)
    modifies vcd
    ensures vcd.Idle()
    ensures Cleaning(failure, found, evidence, vcd.calls, vcd.at) == Cleaned(old(vcd.calls), FindOf(vcd.v, old(vcd.at), name, how))
  {
    ghost var was, find := vcd.calls, Asking(GetVApp(name), [], how.gate, vcd.at);
    var r := AskFor(vcd, GetVApp(name), how.gate);
    if r.Err? {
      return Some(r.error), None, None;
    }
    found := Some(r.value.href);
    ghost var d := DeleteOf(vcd.v, vcd.at, r.value.href, how);
    AfterAfter(was, [find], d);
    failure, evidence := DeleteInstance(vcd, r.value.href, how);
  }
}
