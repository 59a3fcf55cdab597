/** Reading the vApps that a search returned, and what each read is taken to say. */
module VcdRead {
  import opened Basics
  import opened Listing
  import opened VcdCall
  import opened VcdCreate
  import D = VcdDelete

  function GetVAppByHref(href: Id): Operation {
    Operation("GetVAppByHref(poll)", href)
  }

  function ReadCall(href: Id, gate: bool, c: Cursor): Call {
    Asking(GetVAppByHref(href), [], gate, c)
  }

  /** A read of this vApp that failed as not found. */
  predicate Denied(run: Run<Reply>, href: Id) {
    run.op == GetVAppByHref(href) && run.outcome.Fails? && run.outcome.error.notFound
  }

  predicate AnyDenied(runs: seq<Run<Reply>>, href: Id) {
    exists i :: 0 <= i < |runs| && Denied(runs[i], href)
  }

  /** What the poll makes of a read, given what ran for it: a not-found error that no run brought misleads. */
  function AnswerTo(r: Result<Reply>, runs: seq<Run<Reply>>, href: Id): Answer {
    if r.Ok? then Found
    else if !r.error.notFound then OtherFailure
    else if AnyDenied(runs, href) then NotFound
    else Misled
  }

  function AnswerOf(v: Vcd<Reply>, call: Call, href: Id): Answer {
    AnswerTo(v.ask(call).r, v.ran(call), href)
  }

  /** The reads of one poll; after the first failure the rest counts as unread. */
  datatype Reads = Reads(answers: seq<Answer>, calls: seq<Call>, at: Cursor)

  function Also(answers: seq<Answer>, calls: seq<Call>, t: Reads): Reads {
    Reads(answers + t.answers, calls + t.calls, t.at)
  }

  lemma AlsoAlso(a: seq<Answer>, xs: seq<Call>, b: seq<Answer>, ys: seq<Call>, t: Reads)
    ensures Also(a, xs, Also(b, ys, t)) == Also(a + b, xs + ys, t)
  {
    assert a + (b + t.answers) == a + b + t.answers && xs + (ys + t.calls) == xs + ys + t.calls;
  }

  function Unread(n: nat): (answers: seq<Answer>)
    ensures |answers| == n && forall i :: 0 <= i < n ==> answers[i] == OtherFailure
  {
    seq(n, _ => OtherFailure)
  }

  function ReadsOf(v: Vcd<Reply>, c: Cursor, listed: seq<Listed>, gate: bool): (t: Reads)
    ensures |t.answers| == |listed|
    decreases |listed|
  {
    if listed == [] then Reads([], [], c)
    else
      var call := ReadCall(listed[0].href, gate, c);
      var answer := AnswerOf(v, call, listed[0].href);
      if answer == OtherFailure then Reads(Unread(|listed|), [call], v.ask(call).at)
      else Also([answer], [call], ReadsOf(v, v.ask(call).at, listed[1..], gate))
  }

  // What the answers rest on.

  /** Among these runs is a read of each listed vApp that was answered, and a denial of each that was answered not found. */
  predicate AnswersBacked(listed: seq<Listed>, answers: seq<Answer>, runs: seq<Run<Reply>>)
    requires |answers| == |listed|
  {
    forall i :: 0 <= i < |listed| ==>
      && (answers[i] == NotFound ==> AnyDenied(runs, listed[i].href))
      && (answers[i] == Found ==> exists j :: 0 <= j < |runs| && runs[j].op == GetVAppByHref(listed[i].href) && runs[j].outcome.Returns?)
  }

  lemma BackedByFirst(v: Vcd<Reply>, call: Call, item: Listed)
    requires Lawful(v) && call.op == GetVAppByHref(item.href)
    ensures AnswersBacked([item], [AnswerOf(v, call, item.href)], v.ran(call))
  {
    if v.ask(call).r.Ok? {
      assert LawfulCall(v, call);
      var run := Run(call.op, call.start, Returns(v.ask(call).r.value));
      var j :| 0 <= j < |v.ran(call)| && v.ran(call)[j] == run;
      assert v.ran(call)[j].op == GetVAppByHref(item.href) && v.ran(call)[j].outcome.Returns?;
    }
  }

  lemma BackedTogether(item: Listed, answer: Answer, first: seq<Run<Reply>>, listed: seq<Listed>, answers: seq<Answer>, runs: seq<Run<Reply>>)
    requires AnswersBacked([item], [answer], first)
    requires |answers| == |listed| && AnswersBacked(listed, answers, runs)
    ensures AnswersBacked([item] + listed, [answer] + answers, first + runs)
  {
    var all := first + runs;
    assert forall j :: 0 <= j < |first| ==> all[j] == first[j];
    assert forall j :: 0 <= j < |runs| ==> all[|first| + j] == runs[j];
    assert [item][0] == item && [answer][0] == answer;
    forall i | 0 <= i <= |listed|
      ensures var href := ([item] + listed)[i].href;
              && (([answer] + answers)[i] == NotFound ==> AnyDenied(all, href))
              && (([answer] + answers)[i] == Found ==> exists j :: 0 <= j < |all| && all[j].op == GetVAppByHref(href) && all[j].outcome.Returns?)
    {
      if i > 0 {
        assert ([item] + listed)[i] == listed[i - 1] && ([answer] + answers)[i] == answers[i - 1];
      }
    }
  }

  /** What the poll reads as found was returned by a read of that vApp, and what it reads as gone was denied by one. */
  lemma {:induction false} ReadsAreBacked(v: Vcd<Reply>, c: Cursor, listed: seq<Listed>, gate: bool)
    requires Lawful(v)
    ensures var t := ReadsOf(v, c, listed, gate); AnswersBacked(listed, t.answers, AllRuns(v, t.calls))
    decreases |listed|
  {
    if listed != [] {
      var call := ReadCall(listed[0].href, gate, c);
      var answer := AnswerOf(v, call, listed[0].href);
      if answer != OtherFailure {
        var rest := ReadsOf(v, v.ask(call).at, listed[1..], gate);
        ReadsAreBacked(v, v.ask(call).at, listed[1..], gate);
        BackedByFirst(v, call, listed[0]);
        BackedTogether(listed[0], answer, v.ran(call), listed[1..], rest.answers, AllRuns(v, rest.calls));
        RanJoin(v, [call], rest.calls);
        OneCall(v, call);
        assert [listed[0]] + listed[1..] == listed;
      }
    }
  }

  /** The i-th call is the read of the i-th vApp, and the answer is what it came to. */
  predicate AnsweredBy(v: Vcd<Reply>, call: Call, item: Listed, answer: Answer) {
    && call.op == GetVAppByHref(item.href)
    && match v.ask(call).r
       case Ok(_) => answer == Found
       case Err(e) =>
         if !e.notFound then answer == OtherFailure
         else answer == if exists i :: 0 <= i < |v.ran(call)| && Denied(v.ran(call)[i], item.href) then NotFound else Misled
  }

  /** Every listed vApp is read, in order, up to the first failure that does not read as not found, and no further. */
  predicate InTurn(v: Vcd<Reply>, listed: seq<Listed>, t: Reads) {
    && |t.answers| == |listed| && |t.calls| == Min(FirstFailure(t.answers) + 1, |listed|)
    && forall i :: 0 <= i < |t.calls| ==> AnsweredBy(v, t.calls[i], listed[i], t.answers[i])
  }

  lemma {:induction false} ReadsInTurn(v: Vcd<Reply>, c: Cursor, listed: seq<Listed>, gate: bool)
    ensures InTurn(v, listed, ReadsOf(v, c, listed, gate))
    decreases |listed|
  {
    if listed != [] {
      var call := ReadCall(listed[0].href, gate, c);
      var answer := AnswerOf(v, call, listed[0].href);
      AnswerIsItsOwn(v, c, listed[0], gate);
      if answer != OtherFailure {
        var rest := ReadsOf(v, v.ask(call).at, listed[1..], gate);
        ReadsInTurn(v, v.ask(call).at, listed[1..], gate);
        OneReadMore(v, call, answer, listed, rest);
      }
    }
  }

  lemma AnswerIsItsOwn(v: Vcd<Reply>, c: Cursor, item: Listed, gate: bool)
    ensures AnsweredBy(v, ReadCall(item.href, gate, c), item, AnswerOf(v, ReadCall(item.href, gate, c), item.href))
  {
  }

  lemma OneReadMore(v: Vcd<Reply>, call: Call, answer: Answer, listed: seq<Listed>, rest: Reads)
    requires listed != [] && AnsweredBy(v, call, listed[0], answer) && answer != OtherFailure && InTurn(v, listed[1..], rest)
    ensures InTurn(v, listed, Also([answer], [call], rest))
  {
    var t := Also([answer], [call], rest);
    assert t.answers[1..] == rest.answers;
    forall i | 0 <= i < |t.calls|
      ensures AnsweredBy(v, t.calls[i], listed[i], t.answers[i])
    {
      if i > 0 {
        assert t.calls[i] == rest.calls[i - 1] && listed[i] == listed[1..][i - 1] && t.answers[i] == rest.answers[i - 1];
      }
    }
  }

  // When no read misleads.

  predicate NoneMisled(answers: seq<Answer>) {
    forall i :: 0 <= i < |answers| ==> answers[i] != Misled
  }

  lemma {:induction false} TruthfulReads(v: Vcd<Reply>, c: Cursor, listed: seq<Listed>, gate: bool)
    requires Lawful(v) && D.Truthful(v)
    ensures NoneMisled(ReadsOf(v, c, listed, gate).answers)
    decreases |listed|
  {
    if listed != [] {
      var call := ReadCall(listed[0].href, gate, c);
      TruthfulReads(v, v.ask(call).at, listed[1..], gate);
      assert RanInto(v, call, ReadsNotFound()) && LawfulCall(v, call);
      if v.ask(call).r.Err? && v.ask(call).r.error.notFound {
        var run :| run in v.ran(call) && run.outcome.Fails? && ReadsNotFound()(run.outcome.error);
        var i :| 0 <= i < |v.ran(call)| && v.ran(call)[i] == run;
        assert Denied(v.ran(call)[i], listed[0].href);
      }
    }
  }

  /** notFoundIsPermanent around every function that is run. */
  predicate Wrapped(s: Script<Reply>) {
    forall a :: a in s.attempts && a.Runs? && a.outcome.Fails? && a.outcome.error.notFound ==> a.outcome.error.stop
  }

  lemma {:induction false} ReplayStops(s: Script<Reply>, st: Step<Reply>, gate: bool)
    requires Within(s, st.at) && Wrapped(s) && SessionErrors(s, NeverNotFound())
    requires st.r.Err? && st.r.error.notFound ==> st.r.error.stop
    ensures var p := Replay(s, st, gate); p.st.r.Err? && p.st.r.error.notFound ==> p.st.r.error.stop
    decreases |s.attempts| - st.at.done, Limited(st.r)
  {
    if gate && Limited(st.r) {
      var (waited, d) := WaitAt(s, st.at);
      if waited {
        AttemptStops(s, d);
        ReplayStops(s, AttemptAt(s, d), gate);
      }
    }
  }

  lemma AttemptStops(s: Script<Reply>, c: Cursor)
    requires Within(s, c) && Wrapped(s) && SessionErrors(s, NeverNotFound())
    ensures var r := AttemptAt(s, c).r; r.Err? && r.error.notFound ==> r.error.stop
  {
    if c.done < |s.attempts| {
      assert s.attempts[c.done] in s.attempts;
    }
  }

  /** A wrapped read of a vApp that is gone is not tried again. */
  lemma GoneAtOnce(s: Script<Reply>, c: Cursor, gate: bool)
    requires Within(s, c) && Wrapped(s) && SessionErrors(s, NeverNotFound())
    ensures var st := OpOf(s, c, gate, true); st.r.Err? && st.r.error.notFound ==> RetryOf(s, c, gate) == st
  {
    AttemptStops(s, c);
    ReplayStops(s, AttemptAt(s, c), gate);
    var p := Replay(s, AttemptAt(s, c), gate);
    if Unauthorized(p) {
      var (failure, d) := RenewAt(s, p.st.at);
      if failure.None? {
        AttemptStops(s, d);
      }
    }
  }

  lemma LockedOutMisleads(e: Error, href: Id, gate: bool)
    requires e.notFound
    ensures var v, call := VcdOf(D.LockedOut(e)), ReadCall(href, gate, START);
            AnswerOf(v, call, href) == Misled && AllRuns(v, [call]) == []
  {
    var v, call := VcdOf(D.LockedOut(e)), ReadCall(href, gate, START);
    D.OneAnswerCall(LockFails(e), call);
    D.LockedOutRunsNothing(e, call);
    OneCall(v, call);
  }

  lemma OneMisled(v: Vcd<Reply>, c: Cursor, item: Listed, gate: bool)
    requires AnswerOf(v, ReadCall(item.href, gate, c), item.href) == Misled
    ensures ReadsOf(v, c, [item], gate).answers == [Misled] && ReadsOf(v, c, [item], gate).calls == [ReadCall(item.href, gate, c)]
  {
    var call := ReadCall(item.href, gate, c);
    assert [item][1..] == [];
    assert ReadsOf(v, v.ask(call).at, [item][1..], gate) == Reads([], [], v.ask(call).at);
  }

  /** The failing input: nothing was run, and the listed vApp counts as gone. */
  lemma SessionErrorMisleads(e: Error, item: Listed, gate: bool)
    requires e.notFound
    ensures var t := ReadsOf(VcdOf(D.LockedOut(e)), START, [item], gate);
            t.answers == [Misled] && AllRuns(VcdOf(D.LockedOut(e)), t.calls) == []
  {
    LockedOutMisleads(e, item.href, gate);
    OneMisled(VcdOf(D.LockedOut(e)), START, item, gate);
  }

  /** Whatever the errors of sessions and panics may be, no listed vApp counts as gone by a text alone. */
  ghost predicate NeverMisled(may: Error -> bool) {
    forall s: Script<Reply>, c, listed, gate ::
      Wrapped(s) && SessionErrors(s, may) ==> NoneMisled(ReadsOf(VcdOf(s), c, listed, gate).answers)
  }

  lemma CleanSessionsNeverMislead(s: Script<Reply>, c: Cursor, listed: seq<Listed>, gate: bool)
    requires SessionErrors(s, NeverNotFound())
    ensures NoneMisled(ReadsOf(VcdOf(s), c, listed, gate).answers)
  {
    ScriptsAreLawful(s);
    D.CleanSessionsAreTruthful(s);
    TruthfulReads(VcdOf(s), c, listed, gate);
  }

  lemma MisleadingErrorRefutes(may: Error -> bool, e: Error)
    requires may(e) && e.notFound
    ensures !NeverMisled(may)
  {
    var item := Listed(NO_ID, NO_ID);
    SessionErrorMisleads(e, item, false);
    assert Wrapped(D.LockedOut(e)) && SessionErrors(D.LockedOut(e), may);
    assert ReadsOf(VcdOf(D.LockedOut(e)), START, [item], false).answers[0] == Misled;
  }

  /** The code meets this exactly when no error that a session or a panic may bring reads as not found. */
  lemma NeverMisledExactlyWhen(may: Error -> bool)
    ensures NeverMisled(may) <==> forall e :: may(e) ==> !e.notFound
  {
    if e :| may(e) && e.notFound {
      MisleadingErrorRefutes(may, e);
    } else {
      forall s: Script<Reply>, c, listed, gate | Wrapped(s) && SessionErrors(s, may)
        ensures NoneMisled(ReadsOf(VcdOf(s), c, listed, gate).answers)
      {
        assert SessionErrors(s, NeverNotFound());
        CleanSessionsNeverMislead(s, c, listed, gate);
      }
    }
  }

  // The code.

  /** The reads up to now, none of which ended the reading, and the vApps kept of them. */
  ghost predicate ReadSoFar(listed: seq<Listed>, answers: seq<Answer>, vApps: seq<Listed>) {
    && |answers| <= |listed| && vApps == FoundIn(listed[..|answers|], answers)
    && forall j :: 0 <= j < |answers| ==> answers[j] != OtherFailure
  }

  /** Each listed vApp is read once, in order, up to the first failure that does not read as not found. */
  method ReadListedVApps(vcd: World<Reply>, listed: seq<Listed>, gate: bool)
    returns (vApps: seq<Listed>, unread: seq<Id>, answers: seq<Answer>)
    requires vcd.Idle()
    modifies vcd
    ensures vcd.Idle() && |answers| == |listed|
    ensures Reads(answers, vcd.calls, vcd.at) == Also([], old(vcd.calls), ReadsOf(vcd.v, old(vcd.at), listed, gate))
    ensures var stop := FirstFailure(answers);
            vApps == FoundIn(listed[..stop], answers[..stop]) && unread == Hrefs(listed[stop..])
  {
    ghost var goal := Also([], vcd.calls, ReadsOf(vcd.v, vcd.at, listed, gate));
    vApps, unread, answers := [], [], [];
    var i, failed := 0, false;
    assert listed[0..] == listed;
    while i < |listed| && !failed
      invariant 0 <= i <= |listed| && vcd.Idle()
      invariant if failed then FailedAt(listed, answers, vApps, i) && goal == Reads(answers, vcd.calls, vcd.at)
                else |answers| == i && ReadSoFar(listed, answers, vApps)
                     && goal == Also(answers, vcd.calls, ReadsOf(vcd.v, vcd.at, listed[i..], gate))
      decreases |listed| - i, !failed
    {
      vApps, answers, failed := ReadNext(vcd, listed, vApps, answers, gate);
      i := if failed then i else i + 1;
    }
    FirstIs(answers, i);
    assert answers[..|answers|] == answers;
    unread := HrefsFrom(listed, i);
  }

  /** The reading ended at item i; what was kept is what was found before. */
  ghost predicate FailedAt(listed: seq<Listed>, answers: seq<Answer>, vApps: seq<Listed>, i: nat) {
    && i < |listed| == |answers| && answers[i] == OtherFailure && ReadSoFar(listed, answers[..i], vApps)
  }

  /** One turn of the loop. */
  method ReadNext(vcd: World<Reply>, listed: seq<Listed>, vApps: seq<Listed>, answers: seq<Answer>, gate: bool)
    returns (kept: seq<Listed>, all: seq<Answer>, failed: bool)
    requires vcd.Idle() && |answers| < |listed| && ReadSoFar(listed, answers, vApps)
    modifies vcd
    ensures vcd.Idle()
    ensures var i, goal := |answers|, Also(answers, old(vcd.calls), ReadsOf(vcd.v, old(vcd.at), listed[|answers|..], gate));
            if failed then FailedAt(listed, all, kept, i) && goal == Reads(all, vcd.calls, vcd.at)
            else |all| == i + 1 && ReadSoFar(listed, all, kept)
                 && goal == Also(all, vcd.calls, ReadsOf(vcd.v, vcd.at, listed[i + 1..], gate))
  {
    var i := |answers|;
    ghost var was, call := vcd.calls, ReadCall(listed[i].href, gate, vcd.at);
    NextRead(vcd.v, vcd.at, listed, i, gate);
    var answer := ReadOne(vcd, listed[i].href, gate);
    if answer == OtherFailure {
      all := answers + Unread(|listed| - i);
      assert all[..i] == answers;
      return vApps, all, true;
    }
    KeptNext(listed, answers, vApps, answer);
    AlsoAlso(answers, was, [answer], [call], ReadsOf(vcd.v, vcd.at, listed[i + 1..], gate));
    return vApps + if answer == Found then [listed[i]] else [], answers + [answer], false;
  }

  lemma FirstIs(answers: seq<Answer>, i: nat)
    requires i <= |answers| && forall j :: 0 <= j < i ==> answers[j] != OtherFailure
    requires i < |answers| ==> answers[i] == OtherFailure
    ensures FirstFailure(answers) == i
  {
  }

  lemma NextRead(v: Vcd<Reply>, c: Cursor, listed: seq<Listed>, i: nat, gate: bool)
    requires i < |listed|
    ensures var call := ReadCall(listed[i].href, gate, c);
            var answer := AnswerOf(v, call, listed[i].href);
            ReadsOf(v, c, listed[i..], gate)
            == if answer == OtherFailure then Reads(Unread(|listed| - i), [call], v.ask(call).at)
               else Also([answer], [call], ReadsOf(v, v.ask(call).at, listed[i + 1..], gate))
  {
    assert listed[i..][0] == listed[i] && listed[i..][1..] == listed[i + 1..];
  }

  lemma KeptNext(listed: seq<Listed>, answers: seq<Answer>, vApps: seq<Listed>, answer: Answer)
    requires |answers| < |listed| && ReadSoFar(listed, answers, vApps)
    ensures answer != OtherFailure ==>
              ReadSoFar(listed, answers + [answer], vApps + if answer == Found then [listed[|answers|]] else [])
  {
    var n := |answers|;
    assert listed[..n + 1][..n] == listed[..n] && (answers + [answer])[..n] == answers;
  }

  method ReadOne(vcd: World<Reply>, href: Id, gate: bool) returns (answer: Answer)
    requires vcd.Idle()
    modifies vcd
    ensures var call := ReadCall(href, gate, old(vcd.at));
            && vcd.Idle() && vcd.calls == old(vcd.calls) + [call] && vcd.at == vcd.v.ask(call).at
            && answer == AnswerOf(vcd.v, call, href)
  {
    var n := |vcd.runs|;
    ghost var was, call := vcd.calls, ReadCall(href, gate, vcd.at);
    var r := vcd.SafeCall(GetVAppByHref(href), gate, []);
    OneMoreCall(vcd.v, START, was, call);
    assert vcd.runs[n..] == vcd.v.ran(call);
    answer := AnswerTo(r, vcd.runs[n..], href);
  }

  method HrefsFrom(listed: seq<Listed>, i: nat) returns (hrefs: seq<Id>)
    requires i <= |listed|
    ensures hrefs == Hrefs(listed[i..])
  {
    hrefs := [];
    var k := i;
    while k < |listed|
      invariant i <= k <= |listed|
      invariant hrefs == Hrefs(listed[i..k])
    {
      hrefs := hrefs + [listed[k].href];
      k := k + 1;
    }
    assert listed[i..|listed|] == listed[i..];
  }
}
