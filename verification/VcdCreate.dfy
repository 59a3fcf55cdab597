/** Creating a vApp: one POST, recovery by lookup, and waiting for tasks. */
module VcdCreate {
  import opened Basics
  import opened VcdCall

  datatype TaskStatus = Success | InProgress | Ended

  /** What an SDK call hands back; each call looks at the parts it asked for. A task can be missing from the list. */
  datatype Reply = Reply(
    href: Id,                // of the vApp made or found
    vms: nat, vm: Id,        // how many VMs a vApp has, and the HREF of the first
    busy: bool,              // whether some task of the object is still running
    tasks: seq<Option<Id>>,  // the tasks that a create leaves behind
    task: Id,                // the task that a request starts
    status: TaskStatus)      // of a task

  const POST := "CreateRawVApp"

  function Post(name: Id): Operation {
    Operation(POST, name)
  }

  function Recover(name: Id): Operation {
    Operation("GetVAppByName(recover create)", name)
  }

  function RefreshCreated(href: Id): Operation {
    Operation("Refresh vApp(create)", href)
  }

  function RefreshTask(task: Id): Operation {
    Operation("Refresh task", task)
  }

  /** A part of a conversation: how it ends, the calls it makes, and where it leaves the script. */
  datatype Trail = Trail(failure: Option<Error>, calls: seq<Call>, at: Cursor)

  function Then(calls: seq<Call>, t: Trail): Trail {
    t.(calls := calls + t.calls)
  }

  lemma ThenThen(xs: seq<Call>, ys: seq<Call>, t: Trail)
    ensures Then(xs, Then(ys, t)) == Then(xs + ys, t)
  {
    assert xs + (ys + t.calls) == xs + ys + t.calls;
  }

  /** Asking for something that may be asked again. */
  function Asking(op: Operation, start: seq<Body>, gate: bool, c: Cursor): Call {
    Call(op, start, gate, true, c)
  }

  // Waiting for tasks.

  /** Polls of a task, at most `turns` of them before the context ends, until one sees it end. */
  function WaitOf(v: Vcd<Reply>, c: Cursor, task: Id, turns: nat, gate: bool): Trail
    decreases turns
  {
    if turns == 0 then Trail(Some(CONTEXT_ENDED), [], c)
    else
      var call := Asking(RefreshTask(task), [], gate, c);
      var st := v.ask(call);
      match st.r
      case Err(e) => Trail(Some(e), [call], st.at)
      case Ok(reply) =>
        match reply.status
        case Success => Trail(None, [call], st.at)
        case Ended => Trail(Some(CONTEXT_ENDED), [call], st.at)
        case InProgress => Then([call], WaitOf(v, st.at, task, turns - 1, gate))
  }

  method WaitTaskCompletion(vcd: World<Reply>, task: Id, turns: nat, gate: bool) returns (failure: Option<Error>)
    requires vcd.Idle()
    modifies vcd
    ensures vcd.Idle()
    ensures Trail(failure, vcd.calls, vcd.at) == Then(old(vcd.calls), WaitOf(vcd.v, old(vcd.at), task, turns, gate))
  {
    ghost var goal := Then(vcd.calls, WaitOf(vcd.v, vcd.at, task, turns, gate));
    var i := 0;
    while i < turns
      invariant 0 <= i <= turns && vcd.Idle()
      invariant goal == Then(vcd.calls, WaitOf(vcd.v, vcd.at, task, turns - i, gate))
    {
      ghost var was, call := vcd.calls, Asking(RefreshTask(task), [], gate, vcd.at);
      var r := vcd.SafeCall(RefreshTask(task), gate, []);
      if r.Err? {
        return Some(r.error);
      }
      match r.value.status {
        case Success => return None;
        case Ended => return Some(CONTEXT_ENDED);
        case InProgress =>
      }
      ThenThen(was, [call], WaitOf(vcd.v, vcd.at, task, turns - i - 1, gate));
      i := i + 1;
    }
    return Some(CONTEXT_ENDED);
  }

  /** Some of these runs saw the task succeed. */
  predicate SeenToSucceed(runs: seq<Run<Reply>>, task: Id) {
    exists i :: 0 <= i < |runs| && Finished(runs[i], task)
  }

  predicate Finished(run: Run<Reply>, task: Id) {
    run.op == RefreshTask(task) && run.outcome.Returns? && run.outcome.value.status == Success
  }

  /** A call that succeeds has a run that returned its value. */
  lemma OkRan(v: Vcd<Reply>, call: Call)
    requires Lawful(v) && v.ask(call).r.Ok?
    ensures Run(call.op, call.start, Returns(v.ask(call).r.value)) in v.ran(call)
  {
    assert LawfulCall(v, call);
  }

  /** The wait succeeds only when a poll saw the task succeed. */
  lemma {:induction false} WaitSees(v: Vcd<Reply>, c: Cursor, task: Id, turns: nat, gate: bool)
    requires Lawful(v) && WaitOf(v, c, task, turns, gate).failure.None?
    ensures SeenToSucceed(AllRuns(v, WaitOf(v, c, task, turns, gate).calls), task)
    decreases turns
  {
    var call := Asking(RefreshTask(task), [], gate, c);
    var st := v.ask(call);
    var t := WaitOf(v, c, task, turns, gate);
    if st.r.value.status == Success {
      OkRan(v, call);
      OneCall(v, call);
      var run := Run(call.op, call.start, Returns(st.r.value));
      var i :| 0 <= i < |v.ran(call)| && v.ran(call)[i] == run;
      assert Finished(AllRuns(v, t.calls)[i], task);
    } else {
      var rest := WaitOf(v, st.at, task, turns - 1, gate);
      WaitSees(v, st.at, task, turns - 1, gate);
      RanJoin(v, [call], rest.calls);
      LaterSeen(AllRuns(v, [call]), AllRuns(v, rest.calls), task);
    }
  }

  lemma LaterSeen(before: seq<Run<Reply>>, runs: seq<Run<Reply>>, task: Id)
    requires SeenToSucceed(runs, task)
    ensures SeenToSucceed(before + runs, task)
  {
    var i :| 0 <= i < |runs| && Finished(runs[i], task);
    assert (before + runs)[|before| + i] == runs[i];
  }

  /** A poll that sees the task running. */
  predicate StillRunning(v: Vcd<Reply>, call: Call, task: Id) {
    call.op == RefreshTask(task) && v.ask(call).r.Ok? && v.ask(call).r.value.status == InProgress
  }

  /** The wait for this task failed: the last poll failed or saw it end badly, or it was still running for `turns` polls. */
  predicate WaitFailed(v: Vcd<Reply>, calls: seq<Call>, task: Id, turns: nat) {
    || (calls != [] && var last := calls[|calls| - 1];
          last.op == RefreshTask(task) && (v.ask(last).r.Err? || v.ask(last).r.value.status == Ended))
    || (turns <= |calls| && forall i :: |calls| - turns <= i < |calls| ==> StillRunning(v, calls[i], task))
  }

  /** Nothing else makes a wait fail. */
  lemma {:induction false} WaitFailsFor(v: Vcd<Reply>, c: Cursor, task: Id, turns: nat, gate: bool)
    requires WaitOf(v, c, task, turns, gate).failure.Some?
    ensures var calls := WaitOf(v, c, task, turns, gate).calls; |calls| <= turns && WaitFailed(v, calls, task, turns)
    decreases turns
  {
    if turns > 0 {
      var call := Asking(RefreshTask(task), [], gate, c);
      var st := v.ask(call);
      if st.r.Ok? && st.r.value.status == InProgress {
        WaitFailsFor(v, st.at, task, turns - 1, gate);
        OnePollMore(v, call, WaitOf(v, st.at, task, turns - 1, gate).calls, task, turns - 1);
      }
    }
  }

  lemma OnePollMore(v: Vcd<Reply>, call: Call, rest: seq<Call>, task: Id, turns: nat)
    requires StillRunning(v, call, task) && |rest| <= turns && WaitFailed(v, rest, task, turns)
    ensures WaitFailed(v, [call] + rest, task, turns + 1)
  {
    var all := [call] + rest;
    if rest != [] {
      assert all[|rest|] == rest[|rest| - 1];
    }
    assert forall i :: 1 <= i < |all| ==> all[i] == rest[i - 1];
  }

  lemma WaitFailedLater(v: Vcd<Reply>, before: seq<Call>, calls: seq<Call>, task: Id, turns: nat)
    requires WaitFailed(v, calls, task, turns)
    ensures WaitFailed(v, before + calls, task, turns)
  {
    var all := before + calls;
    if calls != [] {
      assert all[|all| - 1] == calls[|calls| - 1];
    }
    if turns <= |calls| && forall i :: |calls| - turns <= i < |calls| ==> StillRunning(v, calls[i], task) {
      forall i | |all| - turns <= i < |all|
        ensures StillRunning(v, all[i], task)
      {
        assert all[i] == calls[i - |before|];
      }
    }
  }

  /** Polling a task asks about nothing else. */
  lemma {:induction false} WaitAsks(v: Vcd<Reply>, c: Cursor, task: Id, turns: nat, gate: bool)
    ensures forall call :: call in WaitOf(v, c, task, turns, gate).calls ==> call.op == RefreshTask(task)
    decreases turns
  {
    if turns > 0 {
      var st := v.ask(Asking(RefreshTask(task), [], gate, c));
      if st.r.Ok? && st.r.value.status == InProgress {
        WaitAsks(v, st.at, task, turns - 1, gate);
      }
    }
  }

  /** Every task of a list, in turn; a missing one is passed over. */
  function WaitAllOf(v: Vcd<Reply>, c: Cursor, tasks: seq<Option<Id>>, turns: nat, gate: bool): Trail
    decreases |tasks|
  {
    if tasks == [] then Trail(None, [], c)
    else if tasks[0].None? then WaitAllOf(v, c, tasks[1..], turns, gate)
    else
      var t := WaitOf(v, c, tasks[0].value, turns, gate);
      if t.failure.Some? then t else Then(t.calls, WaitAllOf(v, t.at, tasks[1..], turns, gate))
  }

  method WaitAll(vcd: World<Reply>, tasks: seq<Option<Id>>, turns: nat, gate: bool) returns (failure: Option<Error>)
    requires vcd.Idle()
    modifies vcd
    ensures vcd.Idle()
    ensures Trail(failure, vcd.calls, vcd.at) == Then(old(vcd.calls), WaitAllOf(vcd.v, old(vcd.at), tasks, turns, gate))
  {
    ghost var goal := Then(vcd.calls, WaitAllOf(vcd.v, vcd.at, tasks, turns, gate));
    var i := 0;
    while i < |tasks|
      invariant 0 <= i <= |tasks| && vcd.Idle()
      invariant goal == Then(vcd.calls, WaitAllOf(vcd.v, vcd.at, tasks[i..], turns, gate))
    {
      assert tasks[i..][1..] == tasks[i + 1..];
      if tasks[i].Some? {
        ghost var was, t := vcd.calls, WaitOf(vcd.v, vcd.at, tasks[i].value, turns, gate);
        failure := WaitTaskCompletion(vcd, tasks[i].value, turns, gate);
        if failure.Some? {
          return;
        }
        ThenThen(was, t.calls, WaitAllOf(vcd.v, t.at, tasks[i + 1..], turns, gate));
      }
      i := i + 1;
    }
    return None;
  }

  lemma {:induction false} WaitAllSees(v: Vcd<Reply>, c: Cursor, tasks: seq<Option<Id>>, turns: nat, gate: bool, i: nat)
    requires Lawful(v) && WaitAllOf(v, c, tasks, turns, gate).failure.None? && i < |tasks| && tasks[i].Some?
    ensures SeenToSucceed(AllRuns(v, WaitAllOf(v, c, tasks, turns, gate).calls), tasks[i].value)
    decreases |tasks|
  {
    if tasks[0].None? {
      WaitAllSees(v, c, tasks[1..], turns, gate, i - 1);
    } else {
      var t := WaitOf(v, c, tasks[0].value, turns, gate);
      var rest := WaitAllOf(v, t.at, tasks[1..], turns, gate);
      RanJoin(v, t.calls, rest.calls);
      if i == 0 {
        WaitSees(v, c, tasks[0].value, turns, gate);
        EarlierSeen(AllRuns(v, t.calls), AllRuns(v, rest.calls), tasks[0].value);
      } else {
        WaitAllSees(v, t.at, tasks[1..], turns, gate, i - 1);
        LaterSeen(AllRuns(v, t.calls), AllRuns(v, rest.calls), tasks[i].value);
      }
    }
  }

  /** Waiting for several tasks fails only with one of them. */
  lemma {:induction false} WaitAllFailsFor(v: Vcd<Reply>, c: Cursor, tasks: seq<Option<Id>>, turns: nat, gate: bool) returns (i: nat)
    requires WaitAllOf(v, c, tasks, turns, gate).failure.Some?
    ensures i < |tasks| && tasks[i].Some? && WaitFailed(v, WaitAllOf(v, c, tasks, turns, gate).calls, tasks[i].value, turns)
    decreases |tasks|
  {
    if tasks[0].None? {
      i := WaitAllFailsFor(v, c, tasks[1..], turns, gate);
      i := i + 1;
    } else {
      var t := WaitOf(v, c, tasks[0].value, turns, gate);
      if t.failure.Some? {
        WaitFailsFor(v, c, tasks[0].value, turns, gate);
        i := 0;
      } else {
        i := WaitAllFailsFor(v, t.at, tasks[1..], turns, gate);
        WaitFailedLater(v, t.calls, WaitAllOf(v, t.at, tasks[1..], turns, gate).calls, tasks[1..][i].value, turns);
        i := i + 1;
      }
    }
  }

  lemma EarlierSeen(runs: seq<Run<Reply>>, after: seq<Run<Reply>>, task: Id)
    requires SeenToSucceed(runs, task)
    ensures SeenToSucceed(runs + after, task)
  {
    var i :| 0 <= i < |runs| && Finished(runs[i], task);
    assert (runs + after)[i] == runs[i];
  }

  lemma {:induction false} WaitAllAsks(v: Vcd<Reply>, c: Cursor, tasks: seq<Option<Id>>, turns: nat, gate: bool)
    ensures forall call :: call in WaitAllOf(v, c, tasks, turns, gate).calls ==> call.op.desc == RefreshTask(NO_ID).desc
    decreases |tasks|
  {
    if tasks != [] {
      if tasks[0].None? {
        WaitAllAsks(v, c, tasks[1..], turns, gate);
      } else {
        WaitAsks(v, c, tasks[0].value, turns, gate);
        var t := WaitOf(v, c, tasks[0].value, turns, gate);
        WaitAllAsks(v, t.at, tasks[1..], turns, gate);
      }
    }
  }

  // The create.

  /** The error allows that the POST took effect all the same. */
  predicate Ambiguous(e: Error) {
    !e.permanent || e.alreadyExists
  }

  /** A conversation that yields a vApp. */
  datatype Making = Making(r: Result<Reply>, calls: seq<Call>, at: Cursor)

  /** The POST, and the lookup by name when its failure is ambiguous. */
  function PostOf(v: Vcd<Reply>, c: Cursor, name: Id, gate: bool): Making
  {
    var post := Call(Post(name), [], gate, false, c);
    var st := v.ask(post);
    if st.r.Ok? || !Ambiguous(st.r.error) then Making(st.r, [post], st.at)
    else
      var recover := Asking(Recover(name), [], gate, st.at);
      var found := v.ask(recover).r;
      Making(if found.Ok? then found else Err(Joined(st.r.error, found.error)), [post, recover], v.ask(recover).at)
  }

  /** What follows once the vApp was returned: its tasks end well, and it is read and found empty. */
  function ReadyOf(v: Vcd<Reply>, c: Cursor, vapp: Reply, name: Id, turns: nat, gate: bool): Making
  {
    var t := WaitAllOf(v, c, vapp.tasks, turns, gate);
    if t.failure.Some? then Making(Err(t.failure.value), t.calls, t.at)
    else
      var refresh := Asking(RefreshCreated(vapp.href), [Body(vapp.href, name)], gate, t.at);
      var st := v.ask(refresh);
      Making(if st.r.Err? then st.r else if st.r.value.vms != 0 then Err(CONTEXT_ENDED) else Ok(vapp), t.calls + [refresh], st.at)
  }

  function CreateOf(v: Vcd<Reply>, c: Cursor, name: Id, turns: nat, gate: bool): Making
  {
    var m := PostOf(v, c, name, gate);
    if m.r.Err? then m else Made(m.calls, ReadyOf(v, m.at, m.r.value, name, turns, gate))
  }

  function Made(calls: seq<Call>, m: Making): Making {
    m.(calls := calls + m.calls)
  }

  /** Exactly these calls are made, in this order: the POST once, without retries. */
  method CreateRawVApp(vcd: World<Reply>, name: Id, turns: nat, gate: bool) returns (r: Result<Reply>)
    requires vcd.Idle()
    modifies vcd
    ensures vcd.Idle()
    ensures Making(r, vcd.calls, vcd.at) == Made(old(vcd.calls), CreateOf(vcd.v, old(vcd.at), name, turns, gate))
  {
    ghost var was, m := vcd.calls, PostOf(vcd.v, vcd.at, name, gate);
    r := PostOrRecover(vcd, name, gate);
    if r.Err? {
      return;
    }
    MadeMade(was, m.calls, ReadyOf(vcd.v, m.at, r.value, name, turns, gate));
    r := AwaitReady(vcd, r.value, name, turns, gate);
  }

  lemma MadeMade(xs: seq<Call>, ys: seq<Call>, m: Making)
    ensures Made(xs, Made(ys, m)) == Made(xs + ys, m)
  {
    assert xs + (ys + m.calls) == xs + ys + m.calls;
  }

  method AwaitReady(vcd: World<Reply>, vapp: Reply, name: Id, turns: nat, gate: bool) returns (r: Result<Reply>)
    requires vcd.Idle()
    modifies vcd
    ensures vcd.Idle()
    ensures Making(r, vcd.calls, vcd.at) == Made(old(vcd.calls), ReadyOf(vcd.v, old(vcd.at), vapp, name, turns, gate))
  {
    ghost var was, t := vcd.calls, WaitAllOf(vcd.v, vcd.at, vapp.tasks, turns, gate);
    var failure := WaitAll(vcd, vapp.tasks, turns, gate);
    if failure.Some? {
      return Err(failure.value);
    }
    ghost var refresh := Asking(RefreshCreated(vapp.href), [Body(vapp.href, name)], gate, vcd.at);
    var refreshed := RefreshNew(vcd, vapp.href, name, gate);
    assert was + t.calls + [refresh] == was + (t.calls + [refresh]);
    if refreshed.Err? {
      return refreshed;
    }
    if refreshed.value.vms != 0 {
      return Err(CONTEXT_ENDED);
    }
    return Ok(vapp);
  }

  method RefreshNew(vcd: World<Reply>, href: Id, name: Id, gate: bool) returns (r: Result<Reply>)
    requires vcd.Idle()
    modifies vcd
    ensures var call := Asking(RefreshCreated(href), [Body(href, name)], gate, old(vcd.at));
            vcd.Idle() && vcd.calls == old(vcd.calls) + [call] && Step(r, vcd.at) == vcd.v.ask(call)
  {
    var payload := new Payload(Body(href, name));
    assert Bodies([payload]) == [Body(href, name)];
    r := vcd.SafeCall(RefreshCreated(href), gate, [payload]);
  }

  method PostOrRecover(vcd: World<Reply>, name: Id, gate: bool) returns (r: Result<Reply>)
    requires vcd.Idle()
    modifies vcd
    ensures vcd.Idle()
    ensures Making(r, vcd.calls, vcd.at) == Made(old(vcd.calls), PostOf(vcd.v, old(vcd.at), name, gate))
  {
    ghost var was := vcd.calls;
    r := vcd.SingleCall(Post(name), gate, []);
    if r.Ok? || !Ambiguous(r.error) {
      return;
    }
    ghost var mid := vcd.calls;
    var found := vcd.SafeCall(Recover(name), gate, []);
    assert vcd.calls == was + ([mid[|was|]] + [vcd.calls[|mid|]]);
    r := if found.Ok? then found else Err(Joined(r.error, found.error));
  }

  /** The runs of one kind of operation, in order. */
  function Only(runs: seq<Run<Reply>>, desc: string): seq<Run<Reply>> {
    if runs == [] then []
    else
      var n := |runs| - 1;
      Only(runs[..n], desc) + if runs[n].op.desc == desc then [runs[n]] else []
  }

  lemma {:induction false} OnlyJoin(a: seq<Run<Reply>>, b: seq<Run<Reply>>, desc: string)
    ensures Only(a + b, desc) == Only(a, desc) + Only(b, desc)
  {
    if b == [] {
      assert a + b == a;
    } else {
      var n := |b| - 1;
      assert (a + b)[..|a| + n] == a + b[..n];
      OnlyJoin(a, b[..n], desc);
    }
  }

  lemma {:induction false} OnlyThose(runs: seq<Run<Reply>>, desc: string)
    ensures (forall i :: 0 <= i < |runs| ==> runs[i].op.desc == desc) ==> Only(runs, desc) == runs
    ensures (forall i :: 0 <= i < |runs| ==> runs[i].op.desc != desc) ==> Only(runs, desc) == []
  {
    if runs != [] {
      OnlyThose(runs[..|runs| - 1], desc);
    }
  }

  /** Calls of other operations add no run of this one. */
  lemma OthersRunOthers(v: Vcd<Reply>, calls: seq<Call>, desc: string)
    requires Lawful(v) && forall k :: 0 <= k < |calls| ==> calls[k].op.desc != desc
    ensures Only(AllRuns(v, calls), desc) == []
  {
    var runs := AllRuns(v, calls);
    forall i | 0 <= i < |runs|
      ensures runs[i].op.desc != desc
    {
      RanByCalls(v, calls, runs[i]);
      var k :| 0 <= k < |calls| && runs[i] in v.ran(calls[k]);
      assert LawfulCall(v, calls[k]);
    }
    OnlyThose(runs, desc);
  }

  /** Everything the create asks after the POST is something else. */
  lemma CreateAsks(v: Vcd<Reply>, c: Cursor, name: Id, turns: nat, gate: bool)
    ensures var calls := CreateOf(v, c, name, turns, gate).calls;
            && calls != [] && calls[0] == Call(Post(name), [], gate, false, c)
            && forall k :: 1 <= k < |calls| ==> calls[k].op.desc != POST
  {
    var m := PostOf(v, c, name, gate);
    if m.r.Ok? {
      var t := WaitAllOf(v, m.at, m.r.value.tasks, turns, gate);
      WaitAllAsks(v, m.at, m.r.value.tasks, turns, gate);
      forall k | 0 <= k < |t.calls|
        ensures t.calls[k].op.desc != POST
      {
        assert t.calls[k] in t.calls;
      }
    }
  }

  /**
   * Whatever vCD answers to the POST, to the recovery, to the polls of the tasks and to the refresh, and however
   * often sessions are renewed meanwhile: the POST runs again only after a rejection by the operation limit.
   */
  lemma PostsAtMostOnce(v: Vcd<Reply>, c: Cursor, name: Id, turns: nat, gate: bool)
    requires Lawful(v)
    ensures var posts := Only(AllRuns(v, CreateOf(v, c, name, turns, gate).calls), POST);
            RerunOnlyAfterRejection(posts, gate) && Unrejected(posts) <= 1
  {
    CreateAsks(v, c, name, turns, gate);
    FirstPostOnly(v, CreateOf(v, c, name, turns, gate).calls);
    assert LawfulCall(v, Call(Post(name), [], gate, false, c));
  }

  /** Where only the first call is a POST, the POSTs are its runs. */
  lemma FirstPostOnly(v: Vcd<Reply>, calls: seq<Call>)
    requires Lawful(v) && calls != [] && calls[0].op.desc == POST && forall k :: 1 <= k < |calls| ==> calls[k].op.desc != POST
    ensures Only(AllRuns(v, calls), POST) == v.ran(calls[0])
  {
    var post, rest := calls[0], calls[1..];
    assert calls == [post] + rest;
    RanJoin(v, [post], rest);
    OneCall(v, post);
    OthersRunOthers(v, rest, POST);
    OnlyJoin(v.ran(post), AllRuns(v, rest), POST);
    PostRunsPosts(v, post);
  }

  lemma PostRunsPosts(v: Vcd<Reply>, post: Call)
    requires Lawful(v)
    ensures Only(v.ran(post), post.op.desc) == v.ran(post)
  {
    var runs := v.ran(post);
    forall i | 0 <= i < |runs|
      ensures runs[i].op.desc == post.op.desc
    {
      assert LawfulCall(v, post) && runs[i] in runs;
    }
    OnlyThose(runs, post.op.desc);
  }

  /** The POST comes first, and a lookup of the name follows every failure but one that is plainly permanent. */
  lemma LookupFollowsAmbiguity(v: Vcd<Reply>, c: Cursor, name: Id, turns: nat, gate: bool)
    ensures var m := CreateOf(v, c, name, turns, gate);
            var post := Call(Post(name), [], gate, false, c);
            var st := v.ask(post);
            && m.calls != [] && m.calls[0] == post
            && (st.r.Err? ==>
                  if st.r.error.permanent && !st.r.error.alreadyExists then m.calls == [post]
                  else |m.calls| > 1 && m.calls[1] == Asking(Recover(name), [], gate, st.at))
  {
  }

  /** Why a create may fail, as its calls show. */
  predicate CreateFailed(v: Vcd<Reply>, calls: seq<Call>, name: Id, tasks: seq<Option<Id>>, turns: nat) {
    calls != [] && var last := calls[|calls| - 1];
    || (last.op == Post(name) && v.ask(last).r.Err? && v.ask(last).r.error.permanent && !v.ask(last).r.error.alreadyExists)
    || (last.op == Recover(name) && v.ask(last).r.Err?)
    || (exists i :: 0 <= i < |tasks| && tasks[i].Some? && WaitFailed(v, calls, tasks[i].value, turns))
    || (last.op.desc == "Refresh vApp(create)" && (v.ask(last).r.Err? || v.ask(last).r.value.vms != 0))
  }

  /** The vApp that the POST returned, or else the lookup after it. */
  function Returned(v: Vcd<Reply>, calls: seq<Call>): Option<Reply>
    requires calls != []
  {
    if v.ask(calls[0]).r.Ok? then Some(v.ask(calls[0]).r.value)
    else if |calls| > 1 && v.ask(calls[1]).r.Ok? then Some(v.ask(calls[1]).r.value)
    else None
  }

  /**
   * Nothing else makes a create fail: where the POST or the lookup returns a vApp whose tasks end well in time, and
   * which is read and found empty, that vApp is created.
   */
  lemma CreateFailsFor(v: Vcd<Reply>, c: Cursor, name: Id, turns: nat, gate: bool)
    ensures var m := CreateOf(v, c, name, turns, gate);
            && m.calls != []
            && var vapp := Returned(v, m.calls);
               if m.r.Ok? then vapp == Some(m.r.value)
               else CreateFailed(v, m.calls, name, if vapp.Some? then vapp.value.tasks else [], turns)
  {
    var m, p := CreateOf(v, c, name, turns, gate), PostOf(v, c, name, gate);
    if p.r.Ok? {
      var tasks := p.r.value.tasks;
      var t := WaitAllOf(v, p.at, tasks, turns, gate);
      assert Returned(v, m.calls) == Some(p.r.value);
      if t.failure.Some? {
        var i := WaitAllFailsFor(v, p.at, tasks, turns, gate);
        WaitFailedLater(v, p.calls, t.calls, tasks[i].value, turns);
      }
    }
  }

  /** A vApp that is created was returned by the POST of this name or by the lookup of it, and its tasks were seen to succeed. */
  lemma CreatedIsReturned(v: Vcd<Reply>, c: Cursor, name: Id, turns: nat, gate: bool)
    requires Lawful(v) && CreateOf(v, c, name, turns, gate).r.Ok?
    ensures var m := CreateOf(v, c, name, turns, gate);
            var runs := AllRuns(v, m.calls);
            && (Run(Post(name), [], Returns(m.r.value)) in runs || Run(Recover(name), [], Returns(m.r.value)) in runs)
            && (forall i :: 0 <= i < |m.r.value.tasks| && m.r.value.tasks[i].Some? ==> SeenToSucceed(runs, m.r.value.tasks[i].value))
            && var last := m.calls[|m.calls| - 1];
               last.op == RefreshCreated(m.r.value.href) && v.ask(last).r.Ok? && v.ask(last).r.value.vms == 0
  {
    var m, p := CreateOf(v, c, name, turns, gate), PostOf(v, c, name, gate);
    var t := WaitAllOf(v, p.at, p.r.value.tasks, turns, gate);
    var refresh := m.calls[|m.calls| - 1];
    assert m.calls == p.calls + (t.calls + [refresh]) == (p.calls + t.calls) + [refresh];
    RanJoin(v, p.calls + t.calls, [refresh]);
    RanJoin(v, p.calls, t.calls);
    PostedIsReturned(v, c, name, gate);
    var tasks := p.r.value.tasks;
    forall i | 0 <= i < |tasks| && tasks[i].Some?
      ensures SeenToSucceed(AllRuns(v, m.calls), tasks[i].value)
    {
      WaitAllSees(v, p.at, tasks, turns, gate, i);
      LaterSeen(AllRuns(v, p.calls), AllRuns(v, t.calls), tasks[i].value);
      EarlierSeen(AllRuns(v, p.calls + t.calls), AllRuns(v, [refresh]), tasks[i].value);
    }
  }

  lemma PostedIsReturned(v: Vcd<Reply>, c: Cursor, name: Id, gate: bool)
    requires Lawful(v) && PostOf(v, c, name, gate).r.Ok?
    ensures var p := PostOf(v, c, name, gate);
            var runs := AllRuns(v, p.calls);
            Run(Post(name), [], Returns(p.r.value)) in runs || Run(Recover(name), [], Returns(p.r.value)) in runs
  {
    var p := PostOf(v, c, name, gate);
    var last := p.calls[|p.calls| - 1];
    OkRan(v, last);
    RanByCalls(v, p.calls, Run(last.op, last.start, Returns(p.r.value)));
  }
}
