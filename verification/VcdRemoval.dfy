/** When a delete goes through: what may make it fail, and what it has done when it does not. */
module VcdRemoval {
  import opened Basics
  import opened VcdCall
  import opened VcdCreate
  import opened VcdDelete
  import opened VcdCleanup

  // Why a delete may fail, as its calls show.

  /** A call that starts a task. */
  predicate Starts(desc: string) {
    desc == "PowerOff" || desc == "Undeploy" || IsDelete(desc)
  }

  predicate WaitRead(call: Call) {
    call.op == On("Refresh vApp(waitTasks)") || call.op == On("Refresh VM(waitTasks)")
  }

  /** The last task that was started failed, or outlasted its polls. */
  predicate TaskFailed(v: Vcd<Reply>, calls: seq<Call>, turns: nat) {
    exists i :: 0 <= i < |calls| && TaskFailedFrom(v, calls, i, turns)
  }

  predicate TaskFailedFrom(v: Vcd<Reply>, calls: seq<Call>, i: nat, turns: nat)
    requires i < |calls|
  {
    && Starts(calls[i].op.desc) && v.ask(calls[i]).r.Ok?
    && (forall j :: i < j < |calls| ==> calls[j].op == RefreshTask(v.ask(calls[i]).r.value.task))
    && WaitFailed(v, calls[i + 1..], v.ask(calls[i]).r.value.task, turns)
  }

  /** The last call was a delete that failed, or a read that failed while waiting for running tasks. */
  predicate LastFailed(v: Vcd<Reply>, calls: seq<Call>) {
    calls != [] && var last := calls[|calls| - 1];
    v.ask(last).r.Err? && (IsDelete(last.op.desc) || WaitRead(last))
  }

  predicate StageFailed(v: Vcd<Reply>, calls: seq<Call>, turns: nat) {
    LastFailed(v, calls) || TaskFailed(v, calls, turns)
  }

  predicate Busy(v: Vcd<Reply>, call: Call) {
    v.ask(call).r.Ok? && v.ask(call).r.value.busy
  }

  /** The last two reads, of the vApp and of its VM, still saw a task running after all the turns of the wait. */
  predicate StayedBusy(v: Vcd<Reply>, calls: seq<Call>, turns: nat) {
    var n := |calls|;
    && n >= 2 * turns + 2 && (Busy(v, calls[n - 2]) || Busy(v, calls[n - 1]))
    && forall i :: n - 2 * turns <= i < n ==> WaitRead(calls[i])
  }

  /** The vApp could not be read in any of its tries. */
  predicate NeverRead(v: Vcd<Reply>, calls: seq<Call>, href: Id, tries: nat) {
    |calls| == tries && forall i :: 0 <= i < |calls| ==>
      calls[i].op == On(REFRESH) && calls[i].start == [Body(href, NO_ID)] && v.ask(calls[i]).r.Err? && !v.ask(calls[i]).r.error.notFound
  }

  predicate ManyVMs(v: Vcd<Reply>, calls: seq<Call>) {
    calls != [] && var last := calls[|calls| - 1];
    last.op == On(REFRESH) && v.ask(last).r.Ok? && v.ask(last).r.value.vms > 1
  }

  lemma StageFailedLater(v: Vcd<Reply>, before: seq<Call>, calls: seq<Call>, turns: nat)
    requires StageFailed(v, calls, turns)
    ensures StageFailed(v, before + calls, turns)
  {
    var all := before + calls;
    if LastFailed(v, calls) {
      assert all[|all| - 1] == calls[|calls| - 1];
    } else {
      var i :| 0 <= i < |calls| && TaskFailedFrom(v, calls, i, turns);
      assert forall j :: 0 <= j < |calls| ==> all[|before| + j] == calls[j];
      assert all[|before| + i + 1..] == calls[i + 1..];
      assert TaskFailedFrom(v, all, |before| + i, turns);
    }
  }

  /** A call that starts a task, and the wait for it. */
  lemma StartedFailsFor(v: Vcd<Reply>, call: Call, turns: nat, gate: bool)
    requires Starts(call.op.desc) && v.ask(call).r.Ok?
    requires WaitOf(v, v.ask(call).at, v.ask(call).r.value.task, turns, gate).failure.Some?
    ensures StageFailed(v, [call] + WaitOf(v, v.ask(call).at, v.ask(call).r.value.task, turns, gate).calls, turns)
  {
    var st := v.ask(call);
    var polls := WaitOf(v, st.at, st.r.value.task, turns, gate).calls;
    WaitFailsFor(v, st.at, st.r.value.task, turns, gate);
    WaitAsks(v, st.at, st.r.value.task, turns, gate);
    var all := [call] + polls;
    assert all[1..] == polls && all[0] == call;
    forall j | 0 < j < |all|
      ensures all[j].op == RefreshTask(st.r.value.task)
    {
      assert all[j] == polls[j - 1] && polls[j - 1] in polls;
    }
    assert TaskFailedFrom(v, all, 0, turns);
  }

  lemma DeleteCallFailsFor(v: Vcd<Reply>, c: Cursor, desc: string, body: Body, how: Setting)
    requires IsDelete(desc) && DeleteCallOf(v, c, desc, body, how).failure.Some?
    ensures StageFailed(v, DeleteCallOf(v, c, desc, body, how).calls, how.turns)
  {
    var call := Asking(On(desc), [body], how.gate, c);
    if v.ask(call).r.Ok? {
      StartedFailsFor(v, call, how.turns, how.gate);
    }
  }

  lemma StopFailsFor(v: Vcd<Reply>, c: Cursor, desc: string, body: Body, how: Setting)
    requires Starts(desc) && StopOf(v, c, desc, body, how).t.failure.Some?
    ensures StageFailed(v, StopOf(v, c, desc, body, how).t.calls, how.turns)
  {
    StartedFailsFor(v, Asking(On(desc), [body], how.gate, c), how.turns, how.gate);
  }

  lemma StopBothFailsFor(v: Vcd<Reply>, c: Cursor, body: Body, how: Setting)
    requires StopBothOf(v, c, body, how).t.failure.Some?
    ensures StageFailed(v, StopBothOf(v, c, body, how).t.calls, how.turns)
  {
    var off := StopOf(v, c, "PowerOff", body, how);
    if off.t.failure.Some? {
      StopFailsFor(v, c, "PowerOff", body, how);
    } else {
      StopFailsFor(v, off.t.at, "Undeploy", off.body, how);
      StageFailedLater(v, off.t.calls, StopOf(v, off.t.at, "Undeploy", off.body, how).t.calls, how.turns);
    }
  }

  /** The calls of a wait that gave up: all of them reads, the last two of which saw a task running. */
  predicate GaveUp(v: Vcd<Reply>, calls: seq<Call>, turns: nat) {
    && |calls| == 2 * turns && (forall i :: 0 <= i < |calls| ==> WaitRead(calls[i]))
    && (turns > 0 ==> Busy(v, calls[|calls| - 2]) || Busy(v, calls[|calls| - 1]))
  }

  lemma {:induction false} QuietFailsFor(v: Vcd<Reply>, c: Cursor, vapp: Body, vm: Body, busy: bool, turns: nat, gate: bool)
    requires QuietOf(v, c, vapp, vm, busy, turns, gate).t.failure.Some?
    ensures var calls := QuietOf(v, c, vapp, vm, busy, turns, gate).t.calls;
            busy && (LastFailed(v, calls) || GaveUp(v, calls, turns))
    decreases turns
  {
    if turns > 0 {
      var first := Asking(On("Refresh vApp(waitTasks)"), [vapp], gate, c);
      var a := v.ask(first);
      if a.r.Ok? {
        var second := Asking(On("Refresh VM(waitTasks)"), [vm], gate, a.at);
        var b := v.ask(second);
        if b.r.Ok? {
          var next, other, more := Body(vapp.href, v.left(first)), Body(vm.href, v.left(second)), a.r.value.busy || b.r.value.busy;
          QuietFailsFor(v, b.at, next, other, more, turns - 1, gate);
          OneTurnMore(v, first, second, QuietOf(v, b.at, next, other, more, turns - 1, gate).t.calls, turns - 1);
        }
      }
    }
  }

  lemma OneTurnMore(v: Vcd<Reply>, first: Call, second: Call, rest: seq<Call>, turns: nat)
    requires WaitRead(first) && WaitRead(second) && (Busy(v, first) || Busy(v, second))
    requires LastFailed(v, rest) || GaveUp(v, rest, turns)
    ensures LastFailed(v, [first, second] + rest) || GaveUp(v, [first, second] + rest, turns + 1)
  {
    var all := [first, second] + rest;
    assert forall i :: 2 <= i < |all| ==> all[i] == rest[i - 2];
  }

  lemma StopAndDeleteFailsFor(v: Vcd<Reply>, c: Cursor, vapp: Body, vm: Body, busy: bool, how: Setting)
    requires StopAndDeleteOf(v, c, vapp, vm, busy, how).failure.Some?
    ensures var calls := StopAndDeleteOf(v, c, vapp, vm, busy, how).calls;
            StageFailed(v, calls, how.turns) || (busy && GaveUp(v, calls, how.turns))
  {
    var quiet := QuietOf(v, c, vapp, vm, busy, how.turns, how.gate);
    if quiet.t.failure.Some? {
      QuietFailsFor(v, c, vapp, vm, busy, how.turns, how.gate);
    } else {
      var both := StopBothOf(v, quiet.t.at, quiet.body, how);
      if both.t.failure.Some? {
        StopBothFailsFor(v, quiet.t.at, quiet.body, how);
        StageFailedLater(v, quiet.t.calls, both.t.calls, how.turns);
      } else {
        var d := DeleteCallOf(v, both.t.at, DELETE, both.body, how);
        DeleteCallFailsFor(v, both.t.at, DELETE, both.body, how);
        StageFailedLater(v, quiet.t.calls + both.t.calls, d.calls, how.turns);
      }
    }
  }

  /** After a read that found the vApp: what may make the rest fail. */
  lemma PresentFailsFor(v: Vcd<Reply>, read: Call, body: Body, how: Setting)
    requires read.op == On(REFRESH) && v.ask(read).r.Ok?
    requires PresentOf(v, v.ask(read).at, body, v.ask(read).r.value, how).failure.Some?
    ensures var calls := [read] + PresentOf(v, v.ask(read).at, body, v.ask(read).r.value, how).calls;
            StageFailed(v, calls, how.turns) || StayedBusy(v, calls, how.turns) || ManyVMs(v, calls)
  {
    var c, reply := v.ask(read).at, v.ask(read).r.value;
    var d := PresentOf(v, c, body, reply, how);
    if reply.vms == 0 {
      DeleteCallFailsFor(v, c, DELETE_EMPTY, body, how);
      StageFailedLater(v, [read], d.calls, how.turns);
    } else if reply.vms == 1 {
      var call := VmCall(c, reply.vm, how.gate);
      var st := v.ask(call);
      if st.r.Err? {
        DeleteCallFailsFor(v, st.at, DELETE_FALLBACK, body, how);
        StageFailedLater(v, [read, call], DeleteCallOf(v, st.at, DELETE_FALLBACK, body, how).calls, how.turns);
        assert [read, call] + DeleteCallOf(v, st.at, DELETE_FALLBACK, body, how).calls == [read] + d.calls;
      } else {
        RunnerFailsFor(v, read, call, body, how);
      }
    }
  }

  lemma RunnerFailsFor(v: Vcd<Reply>, read: Call, call: Call, body: Body, how: Setting)
    requires v.ask(read).r.Ok? && v.ask(call).r.Ok?
    requires var busy := v.ask(read).r.value.busy || v.ask(call).r.value.busy;
             StopAndDeleteOf(v, v.ask(call).at, body, Body(v.ask(read).r.value.vm, v.left(call)), busy, how).failure.Some?
    ensures var busy := v.ask(read).r.value.busy || v.ask(call).r.value.busy;
            var d := StopAndDeleteOf(v, v.ask(call).at, body, Body(v.ask(read).r.value.vm, v.left(call)), busy, how);
            var calls := [read] + ([call] + d.calls);
            StageFailed(v, calls, how.turns) || StayedBusy(v, calls, how.turns)
  {
    var busy := v.ask(read).r.value.busy || v.ask(call).r.value.busy;
    var vm := Body(v.ask(read).r.value.vm, v.left(call));
    var calls := StopAndDeleteOf(v, v.ask(call).at, body, vm, busy, how).calls;
    StopAndDeleteFailsFor(v, v.ask(call).at, body, vm, busy, how);
    AfterReads(v, read, call, calls, how.turns);
    assert [read] + ([call] + calls) == [read, call] + calls;
  }

  lemma AfterReads(v: Vcd<Reply>, read: Call, call: Call, calls: seq<Call>, turns: nat)
    requires StageFailed(v, calls, turns) || ((Busy(v, read) || Busy(v, call)) && GaveUp(v, calls, turns))
    ensures StageFailed(v, [read, call] + calls, turns) || StayedBusy(v, [read, call] + calls, turns)
  {
    if StageFailed(v, calls, turns) {
      StageFailedLater(v, [read, call], calls, turns);
    } else {
      var all := [read, call] + calls;
      assert forall i :: 2 <= i < |all| ==> all[i] == calls[i - 2];
    }
  }

  /** How the refresh retry ends, as its calls show. */
  predicate LookEnded(v: Vcd<Reply>, l: Look, href: Id, tries: nat) {
    match l.seen
    case Present(reply, name) =>
      l.calls != [] && var last := l.calls[|l.calls| - 1];
      last.op == On(REFRESH) && v.ask(last).r == Ok(reply) && name == v.left(last) && l.at == v.ask(last).at
    case Absent(e) =>
      l.calls != [] && var last := l.calls[|l.calls| - 1];
      last.op == On(REFRESH) && v.ask(last).r == Err(e) && e.notFound
    case Unreadable(_) => NeverRead(v, l.calls, href, tries)
  }

  lemma OneReadMore(v: Vcd<Reply>, call: Call, l: Look, href: Id, tries: nat)
    requires call.op == On(REFRESH) && call.start == [Body(href, NO_ID)] && v.ask(call).r.Err? && !v.ask(call).r.error.notFound
    requires LookEnded(v, l, href, tries)
    ensures LookEnded(v, Before([call], l), href, tries + 1)
  {
    var all := [call] + l.calls;
    if l.calls != [] {
      assert all[|all| - 1] == l.calls[|l.calls| - 1];
    }
    assert forall i :: 1 <= i < |all| ==> all[i] == l.calls[i - 1];
  }

  lemma {:induction false} LookEnds(v: Vcd<Reply>, c: Cursor, href: Id, tries: nat, gate: bool)
    ensures LookEnded(v, LookOf(v, c, href, tries, gate), href, tries)
    decreases tries
  {
    if tries > 1 {
      var call := Reading(href, gate, c);
      var st := v.ask(call);
      if st.r.Err? && !st.r.error.notFound {
        LookEnds(v, st.at, href, tries - 1, gate);
        OneReadMore(v, call, LookOf(v, st.at, href, tries - 1, gate), href, tries - 1);
      }
    }
  }

  predicate DeleteFailed(v: Vcd<Reply>, calls: seq<Call>, href: Id, how: Setting) {
    || how.client.Some? || NeverRead(v, calls, href, how.tries) || ManyVMs(v, calls)
    || StageFailed(v, calls, how.turns) || StayedBusy(v, calls, how.turns)
  }

  /**
   * A delete fails only if there is no client, the vApp could not be read, it has several VMs, the wait for running
   * tasks failed or was too long, a task that was started failed or took too long, or the delete call itself failed.
   */
  lemma DeleteFailsFor(v: Vcd<Reply>, c: Cursor, href: Id, how: Setting)
    requires DeleteOf(v, c, href, how).failure.Some?
    ensures DeleteFailed(v, DeleteOf(v, c, href, how).calls, href, how)
  {
    if how.client.None? {
      var look := LookOf(v, c, href, how.tries, how.gate);
      LookEnds(v, c, href, how.tries, how.gate);
      if look.seen.Present? {
        var before, read := look.calls[..|look.calls| - 1], look.calls[|look.calls| - 1];
        var d := PresentOf(v, look.at, Body(href, look.seen.name), look.seen.reply, how);
        assert look.calls + d.calls == before + ([read] + d.calls);
        PresentFailsFor(v, read, Body(href, look.seen.name), how);
        FailedLater(v, before, [read] + d.calls, how.turns);
      }
    }
  }

  lemma FailedLater(v: Vcd<Reply>, before: seq<Call>, calls: seq<Call>, turns: nat)
    requires StageFailed(v, calls, turns) || StayedBusy(v, calls, turns) || ManyVMs(v, calls)
    ensures var all := before + calls; StageFailed(v, all, turns) || StayedBusy(v, all, turns) || ManyVMs(v, all)
  {
    if StageFailed(v, calls, turns) {
      StageFailedLater(v, before, calls, turns);
    } else {
      var all := before + calls;
      assert forall i :: 0 <= i < |calls| ==> all[|before| + i] == calls[i];
      assert forall i :: |before| <= i < |all| ==> all[i] == calls[i - |before|];
    }
  }

  // What a delete that does not fail has done.

  /** A request for this vApp. */
  predicate Asks(call: Call, desc: string, href: Id) {
    call.op == On(desc) && |call.start| == 1 && call.start[0].href == href
  }

  /** A delete of this vApp was accepted, and its task is the evidence. */
  predicate Accepted(v: Vcd<Reply>, call: Call, desc: string, href: Id, evidence: Option<Evidence>) {
    Asks(call, desc, href) && v.ask(call).r.Ok? && evidence == Some(TaskSucceeded(v.ask(call).r.value.task))
  }

  predicate Quiet(v: Vcd<Reply>, call: Call) {
    v.ask(call).r.Ok? && !v.ask(call).r.value.busy
  }

  /** Nothing was running when the vApp was powered off, then undeployed, and then deleted. */
  predicate StoppedAndDeleted(v: Vcd<Reply>, calls: seq<Call>, i: nat, j: nat, k: nat, href: Id, evidence: Option<Evidence>) {
    && 2 <= i < j < k < |calls| && Quiet(v, calls[i - 2]) && Quiet(v, calls[i - 1])
    && Asks(calls[i], "PowerOff", href) && Asks(calls[j], "Undeploy", href) && Accepted(v, calls[k], DELETE, href, evidence)
  }

  /** What follows a read of the vApp: with no VM, or one that cannot be read, the delete alone; else the stop and the delete. */
  ghost predicate Removed(v: Vcd<Reply>, calls: seq<Call>, r: nat, href: Id, evidence: Option<Evidence>) {
    && r + 1 < |calls| && Asks(calls[r], REFRESH, href) && v.ask(calls[r]).r.Ok?
    && var reply := v.ask(calls[r]).r.value;
       if reply.vms == 0 then Accepted(v, calls[r + 1], DELETE_EMPTY, href, evidence)
       else
         && reply.vms == 1 && Asks(calls[r + 1], "Refresh VM for delete", reply.vm)
         && if v.ask(calls[r + 1]).r.Err? then r + 2 < |calls| && Accepted(v, calls[r + 2], DELETE_FALLBACK, href, evidence)
            else exists i: nat, j: nat, k: nat :: r + 2 <= i && StoppedAndDeleted(v, calls, i, j, k, href, evidence)
  }

  lemma {:induction false} QuietEnds(v: Vcd<Reply>, c: Cursor, vapp: Body, vm: Body, busy: bool, turns: nat, gate: bool)
    requires QuietOf(v, c, vapp, vm, busy, turns, gate).t.failure.None?
    ensures var calls := QuietOf(v, c, vapp, vm, busy, turns, gate).t.calls;
            if busy then |calls| >= 2 && Quiet(v, calls[|calls| - 2]) && Quiet(v, calls[|calls| - 1]) else calls == []
    decreases turns
  {
    if busy {
      var first := Asking(On("Refresh vApp(waitTasks)"), [vapp], gate, c);
      var a := v.ask(first);
      var second := Asking(On("Refresh VM(waitTasks)"), [vm], gate, a.at);
      var b := v.ask(second);
      var next, other, more := Body(vapp.href, v.left(first)), Body(vm.href, v.left(second)), a.r.value.busy || b.r.value.busy;
      QuietEnds(v, b.at, next, other, more, turns - 1, gate);
      var rest := QuietOf(v, b.at, next, other, more, turns - 1, gate).t.calls;
      assert forall i :: 2 <= i < |[first, second] + rest| ==> ([first, second] + rest)[i] == rest[i - 2];
    }
  }

  /** The stop and the delete, after the reads of the vApp and of its VM. */
  lemma RunnerIsRemoved(v: Vcd<Reply>, read: Call, call: Call, vapp: Body, vm: Body, how: Setting) returns (i: nat, j: nat, k: nat)
    requires v.ask(read).r.Ok? && v.ask(call).r.Ok?
    requires var busy := v.ask(read).r.value.busy || v.ask(call).r.value.busy;
             StopAndDeleteOf(v, v.ask(call).at, vapp, vm, busy, how).failure.None?
    ensures var busy := v.ask(read).r.value.busy || v.ask(call).r.value.busy;
            var d := StopAndDeleteOf(v, v.ask(call).at, vapp, vm, busy, how);
            2 <= i && StoppedAndDeleted(v, [read, call] + d.calls, i, j, k, vapp.href, d.evidence)
  {
    var busy := v.ask(read).r.value.busy || v.ask(call).r.value.busy;
    var waits, rest;
    waits, rest, j, k := StopsThenDeletes(v, v.ask(call).at, vapp, vm, busy, how);
    var d := StopAndDeleteOf(v, v.ask(call).at, vapp, vm, busy, how);
    i, j, k := QuietThenStopped(v, read, call, waits, rest, j, k, vapp.href, d.evidence);
    JoinedCalls([read, call], waits, rest);
  }

  /** The calls of the stop and the delete: the wait, if something was running, and then the requests. */
  lemma StopsThenDeletes(v: Vcd<Reply>, c: Cursor, vapp: Body, vm: Body, busy: bool, how: Setting)
    returns (waits: seq<Call>, rest: seq<Call>, j: nat, k: nat)
    requires StopAndDeleteOf(v, c, vapp, vm, busy, how).failure.None?
    ensures StopAndDeleteOf(v, c, vapp, vm, busy, how).calls == waits + rest
    ensures if busy then |waits| >= 2 && Quiet(v, waits[|waits| - 2]) && Quiet(v, waits[|waits| - 1]) else waits == []
    ensures && 0 < j < k < |rest| && Asks(rest[0], "PowerOff", vapp.href) && Asks(rest[j], "Undeploy", vapp.href)
            && Accepted(v, rest[k], DELETE, vapp.href, StopAndDeleteOf(v, c, vapp, vm, busy, how).evidence)
  {
    var quiet := QuietOf(v, c, vapp, vm, busy, how.turns, how.gate);
    QuietEnds(v, c, vapp, vm, busy, how.turns, how.gate);
    QuietKeepsHref(v, c, vapp, vm, busy, how.turns, how.gate);
    StopParts(v, c, vapp, vm, busy, how);
    j, k := StoppedIsDeleted(v, quiet.t.at, quiet.body, how);
    var both := StopBothOf(v, quiet.t.at, quiet.body, how);
    waits, rest := quiet.t.calls, both.t.calls + DeleteCallOf(v, both.t.at, DELETE, both.body, how).calls;
    JoinedCalls(waits, both.t.calls, DeleteCallOf(v, both.t.at, DELETE, both.body, how).calls);
  }

  lemma JoinedCalls(xs: seq<Call>, ys: seq<Call>, zs: seq<Call>)
    ensures xs + ys + zs == xs + (ys + zs)
  {
  }

  lemma StopParts(v: Vcd<Reply>, c: Cursor, vapp: Body, vm: Body, busy: bool, how: Setting)
    requires StopAndDeleteOf(v, c, vapp, vm, busy, how).failure.None?
    ensures var d, quiet := StopAndDeleteOf(v, c, vapp, vm, busy, how), QuietOf(v, c, vapp, vm, busy, how.turns, how.gate);
            var both := StopBothOf(v, quiet.t.at, quiet.body, how);
            var last := DeleteCallOf(v, both.t.at, DELETE, both.body, how);
            && quiet.t.failure.None? && both.t.failure.None? && last.failure.None?
            && d.calls == quiet.t.calls + both.t.calls + last.calls && d.evidence == last.evidence
  {
  }

  lemma QuietThenStopped(v: Vcd<Reply>, read: Call, call: Call, waits: seq<Call>, rest: seq<Call>, j: nat, k: nat, href: Id, evidence: Option<Evidence>)
    returns (i': nat, j': nat, k': nat)
    requires if waits == [] then Quiet(v, read) && Quiet(v, call)
             else |waits| >= 2 && Quiet(v, waits[|waits| - 2]) && Quiet(v, waits[|waits| - 1])
    requires 0 < j < k < |rest| && Asks(rest[0], "PowerOff", href) && Asks(rest[j], "Undeploy", href) && Accepted(v, rest[k], DELETE, href, evidence)
    ensures 2 <= i' && StoppedAndDeleted(v, [read, call] + waits + rest, i', j', k', href, evidence)
  {
    var before := [read, call] + waits;
    i', j', k' := |before|, |before| + j, |before| + k;
    var all := before + rest;
    assert all[i' - 2] == before[i' - 2] && all[i' - 1] == before[i' - 1];
    assert all[i'] == rest[0] && all[j'] == rest[j] && all[k'] == rest[k];
  }

  lemma StoppedIsDeleted(v: Vcd<Reply>, c: Cursor, body: Body, how: Setting) returns (j: nat, k: nat)
    requires StopBothOf(v, c, body, how).t.failure.None?
    requires var both := StopBothOf(v, c, body, how); DeleteCallOf(v, both.t.at, DELETE, both.body, how).failure.None?
    ensures var both := StopBothOf(v, c, body, how);
            var d := DeleteCallOf(v, both.t.at, DELETE, both.body, how);
            var calls := both.t.calls + d.calls;
            && 0 < j < k < |calls| && Asks(calls[0], "PowerOff", body.href) && Asks(calls[j], "Undeploy", body.href)
            && Accepted(v, calls[k], DELETE, body.href, d.evidence)
  {
    var off := StopOf(v, c, "PowerOff", body, how);
    j, k := |off.t.calls|, |StopBothOf(v, c, body, how).t.calls|;
  }

  lemma PresentIsRemoved(v: Vcd<Reply>, read: Call, name: Id, href: Id, how: Setting)
    requires Asks(read, REFRESH, href) && v.ask(read).r.Ok?
    requires PresentOf(v, v.ask(read).at, Body(href, name), v.ask(read).r.value, how).failure.None?
    ensures var d := PresentOf(v, v.ask(read).at, Body(href, name), v.ask(read).r.value, how);
            Removed(v, [read] + d.calls, 0, href, d.evidence)
  {
    var c, reply, body := v.ask(read).at, v.ask(read).r.value, Body(href, name);
    if reply.vms == 1 && v.ask(VmCall(c, reply.vm, how.gate)).r.Ok? {
      ReadableIsRemoved(v, read, body, how);
    }
  }

  lemma ReadableIsRemoved(v: Vcd<Reply>, read: Call, body: Body, how: Setting)
    requires Asks(read, REFRESH, body.href) && v.ask(read).r.Ok? && v.ask(read).r.value.vms == 1
    requires v.ask(VmCall(v.ask(read).at, v.ask(read).r.value.vm, how.gate)).r.Ok?
    requires PresentOf(v, v.ask(read).at, body, v.ask(read).r.value, how).failure.None?
    ensures var d := PresentOf(v, v.ask(read).at, body, v.ask(read).r.value, how);
            Removed(v, [read] + d.calls, 0, body.href, d.evidence)
  {
    var c, reply := v.ask(read).at, v.ask(read).r.value;
    var call := VmCall(c, reply.vm, how.gate);
    var vm, busy := Body(reply.vm, v.left(call)), reply.busy || v.ask(call).r.value.busy;
    var rest := StopAndDeleteOf(v, v.ask(call).at, body, vm, busy, how);
    ReadableParts(v, c, body, reply, how);
    var i, j, k := RunnerIsRemoved(v, read, call, body, vm, how);
    RunnerThenRemoved(v, read, call, rest.calls, i, j, k, body.href, rest.evidence);
    JoinedCalls([read], [call], rest.calls);
    assert [read] + [call] == [read, call];
  }

  lemma ReadableParts(v: Vcd<Reply>, c: Cursor, body: Body, reply: Reply, how: Setting)
    requires reply.vms == 1 && v.ask(VmCall(c, reply.vm, how.gate)).r.Ok?
    ensures var call := VmCall(c, reply.vm, how.gate);
            var d := PresentOf(v, c, body, reply, how);
            var rest := StopAndDeleteOf(v, v.ask(call).at, body, Body(reply.vm, v.left(call)), reply.busy || v.ask(call).r.value.busy, how);
            d.failure == rest.failure && d.evidence == rest.evidence && d.calls == [call] + rest.calls
  {
  }

  lemma RunnerThenRemoved(v: Vcd<Reply>, read: Call, call: Call, rest: seq<Call>, i: nat, j: nat, k: nat, href: Id, evidence: Option<Evidence>)
    requires Asks(read, REFRESH, href) && v.ask(read).r.Ok? && v.ask(read).r.value.vms == 1
    requires Asks(call, "Refresh VM for delete", v.ask(read).r.value.vm) && v.ask(call).r.Ok?
    requires 2 <= i && StoppedAndDeleted(v, [read, call] + rest, i, j, k, href, evidence)
    ensures Removed(v, [read, call] + rest, 0, href, evidence)
  {
  }

  lemma StoppedLater(v: Vcd<Reply>, before: seq<Call>, calls: seq<Call>, i: nat, j: nat, k: nat, href: Id, evidence: Option<Evidence>)
    requires StoppedAndDeleted(v, calls, i, j, k, href, evidence)
    ensures StoppedAndDeleted(v, before + calls, |before| + i, |before| + j, |before| + k, href, evidence)
  {
    var all, n := before + calls, |before|;
    assert all[n + i - 2] == calls[i - 2] && all[n + i - 1] == calls[i - 1];
    assert all[n + i] == calls[i] && all[n + j] == calls[j] && all[n + k] == calls[k];
  }

  lemma RemovedLater(v: Vcd<Reply>, before: seq<Call>, calls: seq<Call>, href: Id, evidence: Option<Evidence>)
    requires Removed(v, calls, 0, href, evidence)
    ensures Removed(v, before + calls, |before|, href, evidence)
  {
    var all, n := before + calls, |before|;
    assert all[n] == calls[0] && all[n + 1] == calls[1] && (|calls| > 2 ==> all[n + 2] == calls[2]);
    if v.ask(calls[0]).r.value.vms == 1 && v.ask(calls[1]).r.Ok? {
      var i: nat, j: nat, k: nat :| 2 <= i && StoppedAndDeleted(v, calls, i, j, k, href, evidence);
      StoppedLater(v, before, calls, i, j, k, href, evidence);
    }
  }

  /** The last read of the vApp failed as not found. */
  predicate ReadAsGone(v: Vcd<Reply>, calls: seq<Call>, href: Id) {
    calls != [] && var last := calls[|calls| - 1];
    Asks(last, REFRESH, href) && v.ask(last).r.Err? && v.ask(last).r.error.notFound
  }

  /**
   * A delete that does not fail read its vApp as gone, or read it and removed it: a runner is powered off,
   * undeployed and deleted, in this order and once nothing runs; an empty vApp, or one whose VM cannot be read,
   * is deleted by its own call. The evidence is the task of that very delete.
   */
  lemma DeleteRemoves(v: Vcd<Reply>, c: Cursor, href: Id, how: Setting)
    requires DeleteOf(v, c, href, how).failure.None?
    ensures var d := DeleteOf(v, c, href, how);
            || (ReadAsGone(v, d.calls, href) && d.evidence.Some? && !d.evidence.value.TaskSucceeded?)
            || exists r :: 0 <= r < |d.calls| && Removed(v, d.calls, r, href, d.evidence)
  {
    var look := LookOf(v, c, href, how.tries, how.gate);
    LookEnds(v, c, href, how.tries, how.gate);
    LookReads(v, c, href, how.tries, how.gate);
    var n := |look.calls| - 1;
    assert look.calls[n] in look.calls;
    if look.seen.Present? {
      FoundIsRemoved(v, look.calls, look.seen.name, href, how);
      var d := PresentOf(v, look.at, Body(href, look.seen.name), look.seen.reply, how);
      assert Removed(v, look.calls + d.calls, n, href, d.evidence);
    }
  }

  lemma FoundIsRemoved(v: Vcd<Reply>, tried: seq<Call>, name: Id, href: Id, how: Setting)
    requires tried != []
    requires var read := tried[|tried| - 1];
             && Asks(read, REFRESH, href) && v.ask(read).r.Ok?
             && PresentOf(v, v.ask(read).at, Body(href, name), v.ask(read).r.value, how).failure.None?
    ensures var read := tried[|tried| - 1];
            var d := PresentOf(v, v.ask(read).at, Body(href, name), v.ask(read).r.value, how);
            Removed(v, tried + d.calls, |tried| - 1, href, d.evidence)
  {
    var before, read := tried[..|tried| - 1], tried[|tried| - 1];
    var d := PresentOf(v, v.ask(read).at, Body(href, name), v.ask(read).r.value, how);
    assert tried + d.calls == before + ([read] + d.calls);
    PresentIsRemoved(v, read, name, href, how);
    RemovedLater(v, before, [read] + d.calls, href, d.evidence);
  }

  /** In the log of a runner's delete the power-off comes before the undeploy, and the undeploy before the delete. */
  lemma RunnerRunsInOrder(v: Vcd<Reply>, calls: seq<Call>, i: nat, j: nat, k: nat, href: Id, evidence: Option<Evidence>)
    requires Lawful(v) && StoppedAndDeleted(v, calls, i, j, k, href, evidence)
    requires v.ask(calls[i]).r.Ok? && v.ask(calls[j]).r.Ok?
    ensures RunBefore(AllRuns(v, calls), "PowerOff", "Undeploy", href) && RunBefore(AllRuns(v, calls), "Undeploy", DELETE, href)
  {
    var a, b := RunsInOrder(v, calls, i, j);
    var c, d := RunsInOrder(v, calls, j, k);
    var runs := AllRuns(v, calls);
    assert Done(runs[a], "PowerOff", href) && Done(runs[b], "Undeploy", href) && Done(runs[c], "Undeploy", href) && Done(runs[d], DELETE, href);
  }

  predicate Done(run: Run<Reply>, desc: string, href: Id) {
    run.op == On(desc) && Under(run, href) && run.outcome.Returns?
  }

  predicate RunBefore(runs: seq<Run<Reply>>, first: string, second: string, href: Id) {
    exists a, b :: 0 <= a < b < |runs| && Done(runs[a], first, href) && Done(runs[b], second, href)
  }

  // The cleanup of a name.

  /** The last call of the cleanup was one that looks for the vApp, and it failed. */
  predicate SearchFailed(v: Vcd<Reply>, calls: seq<Call>, name: Id) {
    calls != [] && var last := calls[|calls| - 1];
    v.ask(last).r.Err? && (last.op == On("GetOrgByName(cleanup)") || last.op == On("GetVDCByName(cleanup)") || last.op == GetVApp(name))
  }

  /** Where in a cleanup the delete begins: right after a lookup of the name that returned this HREF. */
  predicate FoundAt(v: Vcd<Reply>, calls: seq<Call>, m: nat, name: Id, href: Id) {
    && 0 < m <= |calls| && calls[m - 1].op == GetVApp(name)
    && v.ask(calls[m - 1]).r.Ok? && v.ask(calls[m - 1]).r.value.href == href
  }

  /** A cleanup fails only if there is no client, the search for the name failed, or the delete of what it found failed. */
  lemma CleanupFailsFor(v: Vcd<Reply>, c: Cursor, name: Id, how: Setting)
    requires CleanupOf(v, c, name, how).failure.Some?
    ensures var f := CleanupOf(v, c, name, how);
            || how.client.Some? || SearchFailed(v, f.calls, name)
            || exists m: nat, href :: FoundAt(v, f.calls, m, name, href) && DeleteFailed(v, f.calls[m..], href, how)
  {
    var f := CleanupOf(v, c, name, how);
    if f.found.Some? {
      var d := DeleteOf(v, v.ask(f.calls[2]).at, f.found.value, how);
      assert f.calls[3..] == d.calls;
      DeleteFailsFor(v, v.ask(f.calls[2]).at, f.found.value, how);
      assert FoundAt(v, f.calls, 3, name, f.found.value);
    }
  }

  /** A cleanup that does not fail has removed what the lookup of its name returned, or read it as gone. */
  lemma CleanupRemoves(v: Vcd<Reply>, c: Cursor, name: Id, how: Setting)
    requires CleanupOf(v, c, name, how).failure.None?
    ensures var f := CleanupOf(v, c, name, how);
            exists m: nat, href :: FoundAt(v, f.calls, m, name, href) && f.found == Some(href) &&
              (ReadAsGone(v, f.calls[m..], href) || exists r :: 0 <= r < |f.calls| - m && Removed(v, f.calls[m..], r, href, f.evidence))
  {
    var f := CleanupOf(v, c, name, how);
    var d := DeleteOf(v, v.ask(f.calls[2]).at, f.found.value, how);
    assert f.calls[3..] == d.calls;
    DeleteRemoves(v, v.ask(f.calls[2]).at, f.found.value, how);
    assert FoundAt(v, f.calls, 3, name, f.found.value);
  }
}
