/** Shutdown: stop dispatching, drain the operations in flight, then delete what is left. */
module Shutdown {
  import opened Basics
  import opened Lifecycle
  import opened VcdCall
  import opened VcdCreate
  import opened VcdDelete
  import opened VcdCleanup
  import opened Operations
  import L = Limiter
  import M = StoreModel
  import P = Protocol
  import Invariant
  import Preservation
  import Theorems

  // The conversation of the final sweep.

  /** Attempts made one after the other: where each began, how it ended, and the calls of all of them. */
  datatype Tries = Tries(starts: seq<Cursor>, failures: seq<Option<Error>>, calls: seq<Call>, at: Cursor)

  function CleanAllOf(v: Vcd<Reply>, c: Cursor, names: seq<Id>, how: Setting): (t: Tries)
    ensures |t.starts| == |t.failures| == |names|
  {
    if names == [] then Tries([], [], [], c)
    else
      var n := |names| - 1;
      var t := CleanAllOf(v, c, names[..n], how);
      var f := CleanupOf(v, t.at, names[n], how);
      Tries(t.starts + [t.at], t.failures + [f.failure], t.calls + f.calls, f.at)
  }

  function DeleteAllOf(v: Vcd<Reply>, c: Cursor, hrefs: seq<Id>, how: Setting): (t: Tries)
    ensures |t.starts| == |t.failures| == |hrefs|
  {
    if hrefs == [] then Tries([], [], [], c)
    else
      var n := |hrefs| - 1;
      var t := DeleteAllOf(v, c, hrefs[..n], how);
      var d := DeleteOf(v, t.at, hrefs[n], how);
      Tries(t.starts + [t.at], t.failures + [d.failure], t.calls + d.calls, d.at)
  }

  lemma {:induction false} ComplaintsAreFailures(failures: seq<Option<Error>>, e: Error)
    ensures e in Complaints(failures) <==> exists i :: 0 <= i < |failures| && failures[i] == Some(e) && !e.sentinel
  {
    if failures != [] {
      var n := |failures| - 1;
      ComplaintsAreFailures(failures[..n], e);
      if i :| 0 <= i < |failures| && failures[i] == Some(e) && !e.sentinel {
        if i < n {
          assert failures[..n][i] == Some(e);
        }
      }
    }
  }

  /** The failures that the shutdown reports: a name of which nothing was found is no failure. */
  function Complaints(failures: seq<Option<Error>>): seq<Error> {
    if failures == [] then []
    else
      var n := |failures| - 1;
      Complaints(failures[..n]) + if failures[n].Some? && !failures[n].value.sentinel then [failures[n].value] else []
  }

  /** Every failed create for which there is no complaint was deleted, with evidence, or something was not found. */
  lemma {:induction false} UncomplainingCleanup(v: Vcd<Reply>, c: Cursor, names: seq<Id>, how: Setting, i: nat)
    requires Lawful(v) && i < |names| && Complaints(CleanAllOf(v, c, names, how).failures) == []
    ensures var f := CleanupOf(v, CleanAllOf(v, c, names, how).starts[i], names[i], how);
            var runs := AllRuns(v, f.calls);
            if f.failure.Some? then MissBacked(CleanupMiss(v, f, names[i]), names[i], runs)
            else f.found.Some? && f.evidence.Some? &&
                 exists m :: 0 <= m <= |runs| && FoundBy(runs[..m], names[i], f.found.value) && Backed(f.evidence.value, f.found.value, runs[m..])
    decreases |names|
  {
    var n := |names| - 1;
    var t := CleanAllOf(v, c, names[..n], how);
    var all := CleanAllOf(v, c, names, how).failures;
    assert all[..n] == t.failures;
    if i == n {
      CleanupIsBacked(v, t.at, names[n], how);
    } else {
      UncomplainingCleanup(v, c, names[..n], how, i);
    }
  }

  // The shutdown.

  /** A record whose vApp the final sweep must try to delete. */
  predicate Doomed(r: Instance, prefix: string) {
    r.id != NO_ID && r.phase != Deleted && prefix <= r.name.text
  }

  predicate Once(ids: seq<Id>) {
    forall i, j :: 0 <= i < j < |ids| ==> ids[i] != ids[j]
  }

  predicate AllDoomed(hrefs: seq<Id>, instances: seq<Instance>, prefix: string) {
    forall h :: h in hrefs ==> exists i :: 0 <= i < |instances| && instances[i].id == h && Doomed(instances[i], prefix)
  }

  /** Each failed-create name gets one cleanup, until the context ends, which it does after `budget` attempts. */
  method CleanFailed(failed: set<Id>, vcd: World<Reply>, how: Setting, budget: nat) returns (cleaned: seq<Id>, complaints: seq<Error>)
    requires vcd.Idle() && ReadsNames(vcd.script)
    modifies vcd
    ensures vcd.Idle()
    ensures var t := CleanAllOf(vcd.v, old(vcd.at), cleaned, how);
            vcd.calls == old(vcd.calls) + t.calls && vcd.at == t.at && complaints == Complaints(t.failures)
    ensures (forall n :: n in cleaned ==> n in failed) && Once(cleaned)
    ensures (forall n :: n in failed ==> n in cleaned) || |cleaned| >= budget
  {
    cleaned, complaints := [], [];
    var todo := failed;
    while todo != {}
      invariant vcd.Idle()
      invariant var t := CleanAllOf(vcd.v, old(vcd.at), cleaned, how);
                vcd.calls == old(vcd.calls) + t.calls && vcd.at == t.at && complaints == Complaints(t.failures)
      invariant todo <= failed && (forall n :: n in cleaned <==> n in failed - todo) && Once(cleaned)
    {
      var n :| n in todo;
      assert n !in cleaned;
      todo := todo - {n};
      cleaned, complaints := CleanNext(vcd, old(vcd.calls), old(vcd.at), cleaned, complaints, n, how);
      if |cleaned| >= budget {
        break;
      }
    }
  }

  /** One cleanup after those made so far. */
  method CleanNext(vcd: World<Reply>, ghost was: seq<Call>, ghost c: Cursor, cleaned: seq<Id>, complaints: seq<Error>, name: Id, how: Setting)
    returns (all: seq<Id>, said: seq<Error>)
    requires vcd.Idle() && ReadsNames(vcd.script)
    requires var t := CleanAllOf(vcd.v, c, cleaned, how); vcd.calls == was + t.calls && vcd.at == t.at && complaints == Complaints(t.failures)
    modifies vcd
    ensures vcd.Idle() && all == cleaned + [name]
    ensures var t := CleanAllOf(vcd.v, c, all, how); vcd.calls == was + t.calls && vcd.at == t.at && said == Complaints(t.failures)
  {
    OneCleanupMore(vcd.v, c, cleaned, name, how, was);
    var failure, found, evidence := CleanUpInstanceByName(vcd, name, how);
    all := cleaned + [name];
    said := complaints + if failure.Some? && !failure.value.sentinel then [failure.value] else [];
  }

  lemma OneCleanupMore(v: Vcd<Reply>, c: Cursor, cleaned: seq<Id>, name: Id, how: Setting, was: seq<Call>)
    ensures var t, u := CleanAllOf(v, c, cleaned, how), CleanAllOf(v, c, cleaned + [name], how);
            var f := CleanupOf(v, t.at, name, how);
            && u.at == f.at && was + u.calls == was + t.calls + f.calls
            && Complaints(u.failures) == Complaints(t.failures) + if f.failure.Some? && !f.failure.value.sentinel then [f.failure.value] else []
  {
    var t := CleanAllOf(v, c, cleaned, how);
    var f := CleanupOf(v, t.at, name, how);
    assert (cleaned + [name])[..|cleaned|] == cleaned && was + t.calls + f.calls == was + (t.calls + f.calls);
    assert (t.failures + [f.failure])[..|cleaned|] == t.failures;
  }

  /** Each doomed record of the snapshot gets one delete, in order, until the context ends. */
  method Sweep(instances: seq<Instance>, prefix: string, vcd: World<Reply>, how: Setting, spent: nat, budget: nat) returns (deleted: seq<Id>)
    requires vcd.Idle() && ReadsNames(vcd.script)
    modifies vcd
    ensures vcd.Idle()
    ensures var t := DeleteAllOf(vcd.v, old(vcd.at), deleted, how); vcd.calls == old(vcd.calls) + t.calls && vcd.at == t.at
    ensures AllDoomed(deleted, instances, prefix)
    ensures (forall i :: 0 <= i < |instances| && Doomed(instances[i], prefix) ==> instances[i].id in deleted)
            || spent + |deleted| >= budget
    ensures |deleted| <= |instances|
  {
    deleted := [];
    var i := 0;
    while i < |instances|
      invariant vcd.Idle()
      invariant var t := DeleteAllOf(vcd.v, old(vcd.at), deleted, how); vcd.calls == old(vcd.calls) + t.calls && vcd.at == t.at
      invariant |deleted| <= i <= |instances| && AllDoomed(deleted, instances, prefix)
      invariant forall j :: 0 <= j < i && Doomed(instances[j], prefix) ==> instances[j].id in deleted
    {
      if spent + |deleted| >= budget {
        break;
      }
      var inst := instances[i];
      i := i + 1;
      if inst.id == NO_ID || inst.phase == Deleted {
        continue;
      }
      if !(prefix <= inst.name.text) {
        continue;
      }
      deleted := DeleteNext(vcd, old(vcd.calls), old(vcd.at), deleted, inst.id, how);
    }
  }

  method DeleteNext(vcd: World<Reply>, ghost was: seq<Call>, ghost c: Cursor, deleted: seq<Id>, href: Id, how: Setting) returns (all: seq<Id>)
    requires vcd.Idle() && ReadsNames(vcd.script)
    requires var t := DeleteAllOf(vcd.v, c, deleted, how); vcd.calls == was + t.calls && vcd.at == t.at
    modifies vcd
    ensures vcd.Idle() && all == deleted + [href]
    ensures var t := DeleteAllOf(vcd.v, c, all, how); vcd.calls == was + t.calls && vcd.at == t.at
  {
    OneDeleteMore(vcd.v, c, deleted, href, how, was);
    var failure, evidence := DeleteInstance(vcd, href, how);
    all := deleted + [href];
  }

  lemma OneDeleteMore(v: Vcd<Reply>, c: Cursor, deleted: seq<Id>, href: Id, how: Setting, was: seq<Call>)
    ensures var t, u := DeleteAllOf(v, c, deleted, how), DeleteAllOf(v, c, deleted + [href], how);
            var d := DeleteOf(v, t.at, href, how);
            u.at == d.at && was + u.calls == was + t.calls + d.calls
  {
    var t := DeleteAllOf(v, c, deleted, how);
    var d := DeleteOf(v, t.at, href, how);
    assert (deleted + [href])[..|deleted|] == deleted && was + t.calls + d.calls == was + (t.calls + d.calls);
  }

  /** The snapshot that the sweep walks. */
  method AllInstances(st: M.Records) returns (instances: seq<Instance>)
    requires M.KeysOwned(st)
    ensures M.Enumerates(instances, st, st.Keys)
  {
    instances := [];
    var done, todo := {}, st.Keys;
    while todo != {}
      invariant done + todo == st.Keys && done !! todo && M.Enumerates(instances, st, done)
      decreases todo
    {
      var k :| k in todo;
      M.EnumerateOneMore(instances, st, done, k);
      instances := instances + [st[k]];
      done, todo := done + {k}, todo - {k};
    }
  }

  /** What becomes of a name that this process registered, once Shutdown is through. */
  predicate Accounted(c: P.Core, n: Id, cleaned: seq<Id>, deleted: seq<Id>) {
    || n in cleaned
    || (n in c.hist.recorded && var (k, href) := c.hist.recorded[n];
          if k in c.store then href in deleted || c.store[k].phase == Deleted else k in c.hist.pruned)
    || (n in c.hist.retired && Invariant.RetirementOk(c, n, c.hist.retired[n]))
  }

  predicate AllAccounted(c: P.Core, prefix: string, cleaned: seq<Id>, deleted: seq<Id>) {
    forall n :: n in c.hist.registered && prefix <= n.text ==> Accounted(c, n, cleaned, deleted)
  }

  /** What the sweep did when the context did not end before it was through. */
  predicate SweptUp(c: P.Core, prefix: string, cleaned: seq<Id>, deleted: seq<Id>) {
    && (forall n :: n in c.names.failed ==> n in cleaned)
    && (forall k :: k in c.store && c.store[k].id != NO_ID && c.store[k].phase != Deleted && prefix <= c.store[k].name.text ==>
          c.store[k].id in deleted)
  }

  /**
   * After a drain no worker is left, so no name is in flight: each name that was ever registered got a
   * delete attempt, belongs to a record that is Deleted or was pruned as such, or was let go with reason.
   */
  lemma NothingIsLeftBehind(m: Limits, xs: seq<Act>, prefix: string, cleaned: seq<Id>, deleted: seq<Id>)
    requires IsRun(m, xs) && Operations.After(m, xs).l.drained
    requires SweptUp(Operations.After(m, xs).p.core, prefix, cleaned, deleted)
    ensures AllAccounted(Operations.After(m, xs).p.core, prefix, cleaned, deleted)
  {
    RunsAreRuns(m, xs);
    DrainedMeansNoWorkers(m, xs);
    var c := Operations.After(m, xs).p.core;
    forall n | n in c.hist.registered && prefix <= n.text
      ensures Accounted(c, n, cleaned, deleted)
    {
      NameIsAccounted(Acts(xs), prefix, cleaned, deleted, n);
    }
  }

  lemma NameIsAccounted(acts: seq<P.Action>, prefix: string, cleaned: seq<Id>, deleted: seq<Id>, n: Id)
    requires P.IsRun(acts) && P.After(acts).core.workers == map[]
    requires SweptUp(P.After(acts).core, prefix, cleaned, deleted)
    requires n in P.After(acts).core.hist.registered && prefix <= n.text
    ensures Accounted(P.After(acts).core, n, cleaned, deleted)
  {
    var c := P.After(acts).core;
    Theorems.NoNameLeaks(acts, n);
    if n in c.hist.recorded {
      var (k, href) := c.hist.recorded[n];
      if k in c.store {
        Theorems.RecordsNameThemselves(acts, k);
        Theorems.HrefsAreReal(acts);
      }
    }
  }

  /** The snapshot holds every record, so what holds for the list holds for the store. */
  lemma SweptAll(st: M.Records, instances: seq<Instance>, prefix: string, deleted: seq<Id>)
    requires M.Enumerates(instances, st, st.Keys)
    ensures (forall i :: 0 <= i < |instances| && Doomed(instances[i], prefix) ==> instances[i].id in deleted) ==>
              forall k :: k in st && Doomed(st[k], prefix) ==> st[k].id in deleted
    ensures AllDoomed(deleted, instances, prefix) ==> forall h :: h in deleted ==> exists k :: k in st && st[k].id == h && Doomed(st[k], prefix)
  {
    if AllDoomed(deleted, instances, prefix) {
      forall h | h in deleted
        ensures exists k :: k in st && st[k].id == h && Doomed(st[k], prefix)
      {
        var i :| 0 <= i < |instances| && instances[i].id == h && Doomed(instances[i], prefix);
        assert instances[i].intentID in st;
      }
    }
  }

  /** What a shutdown did: whether it came to the sweep, the attempts it made in order, and what it reports. */
  datatype Ending = Ending(drained: bool, cleaned: seq<Id>, deleted: seq<Id>, complaints: seq<Error>, interrupted: bool)

  /** The loop returns, the limiter drains, and then everything that is left gets its delete attempt. */
  method Shutdown(g: Group, vcd: World<Reply>, how: Setting, patience: nat, prefix: string, budget: nat) returns (e: Ending)
    requires g.Valid() && !g.j.exited && !g.j.l.drained && vcd.Idle() && ReadsNames(vcd.script)
    modifies g, vcd
    ensures g.Valid() && old(g.xs) <= g.xs && vcd.Idle() && e.drained == g.j.l.drained
    ensures !e.drained ==> e.cleaned == e.deleted == [] && vcd.calls == old(vcd.calls)
    ensures !e.drained ==> if g.j.exited then g.j.l.total > 0 else LoopBusy(g.j)
    ensures e.drained ==> g.j.p.core.workers == map[]
    ensures var t := CleanAllOf(vcd.v, old(vcd.at), e.cleaned, how);
            && e.complaints == Complaints(t.failures)
            && vcd.calls == old(vcd.calls) + t.calls + DeleteAllOf(vcd.v, t.at, e.deleted, how).calls
    ensures Once(e.cleaned) && (forall n :: n in e.cleaned ==> n in g.j.p.core.names.failed)
    ensures forall h :: h in e.deleted ==> exists k :: k in g.j.p.core.store && g.j.p.core.store[k].id == h && Doomed(g.j.p.core.store[k], prefix)
    ensures e.interrupted ==> |e.cleaned| + |e.deleted| >= budget
    ensures e.drained && !e.interrupted ==>
              SweptUp(g.j.p.core, prefix, e.cleaned, e.deleted) && AllAccounted(g.j.p.core, prefix, e.cleaned, e.deleted)
  {
    var left := g.AwaitLoop(patience);
    if !left {
      return Ending(false, [], [], [], false);
    }
    var drained := g.Drain(patience);
    if !drained {
      return Ending(false, [], [], [], false);
    }
    e := FinalSweep(g, vcd, how, prefix, budget);
  }

  method FinalSweep(g: Group, vcd: World<Reply>, how: Setting, prefix: string, budget: nat) returns (e: Ending)
    requires g.Valid() && g.j.l.drained && vcd.Idle() && ReadsNames(vcd.script)
    modifies g, vcd
    ensures g.Valid() && old(g.xs) <= g.xs && vcd.Idle() && e.drained && g.j.l.drained
    ensures g.j.p.core.workers == map[]
    ensures var t := CleanAllOf(vcd.v, old(vcd.at), e.cleaned, how);
            && e.complaints == Complaints(t.failures)
            && vcd.calls == old(vcd.calls) + t.calls + DeleteAllOf(vcd.v, t.at, e.deleted, how).calls
    ensures Once(e.cleaned) && (forall n :: n in e.cleaned ==> n in g.j.p.core.names.failed)
    ensures forall h :: h in e.deleted ==> exists k :: k in g.j.p.core.store && g.j.p.core.store[k].id == h && Doomed(g.j.p.core.store[k], prefix)
    ensures e.interrupted ==> |e.cleaned| + |e.deleted| >= budget
    ensures e.drained && !e.interrupted ==>
              SweptUp(g.j.p.core, prefix, e.cleaned, e.deleted) && AllAccounted(g.j.p.core, prefix, e.cleaned, e.deleted)
  {
    g.Others();
    var failed := g.j.p.core.names.failed.Keys;
    var cleaned, complaints := CleanFailed(failed, vcd, how, budget);
    g.Others();
    var instances := Snapshot(g);
    var deleted := Sweep(instances, prefix, vcd, how, |cleaned|, budget);
    SweptAll(g.j.p.core.store, instances, prefix, deleted);
    if |cleaned| + |deleted| < budget {
      NothingIsLeftBehind(g.m, g.xs, prefix, cleaned, deleted);
    }
    DrainedMeansNoWorkers(g.m, g.xs);
    return Ending(true, cleaned, deleted, complaints, |cleaned| + |deleted| >= budget);
  }

  method Snapshot(g: Group) returns (instances: seq<Instance>)
    requires g.Valid()
    ensures M.Enumerates(instances, g.j.p.core.store, g.j.p.core.store.Keys)
  {
    RunsAreRuns(g.m, g.xs);
    Preservation.RunsKeepInv(Acts(g.xs));
    Preservation.HrefsAreUnique(g.j.p.core);
    instances := AllInstances(g.j.p.core.store);
  }
}
