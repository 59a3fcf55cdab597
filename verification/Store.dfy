/**
 * The desired-state store: two mutable maps over shared record objects. Every method is tied to the
 * StoreModel function of the same name, and the HREF index to a scan of the records.
 */
module Store {
  import opened Basics
  import opened Lifecycle
  import M = StoreModel

  /** A heap record: both maps of the store may point at the same one. */
  class Cell {
    var r: Instance
    ghost const home: Id  // the key this record was stored under

    constructor (r: Instance)
      ensures this.r == r && this.home == r.intentID
    {
      this.r := r;
      this.home := r.intentID;
    }
  }

  ghost predicate Stored(instances: map<Id, Cell>, c: Cell) {
    c.home in instances && instances[c.home] == c
  }

  /** Index entries point at the record stored under its own id, and every record with an HREF is indexed. */
  ghost predicate IndexExact(instances: map<Id, Cell>, index: map<Id, Cell>, st: M.Records) {
    && (forall h :: h in index ==>
          h != NO_ID && Stored(instances, index[h]) && index[h].home in st && st[index[h].home].id == h)
    && (forall k :: k in instances && k in st && st[k].id != NO_ID ==>
          st[k].id in index && index[st[k].id] == instances[k])
  }

  ghost predicate Housed(instances: map<Id, Cell>, st: M.Records) {
    instances.Keys == st.Keys && forall k :: k in instances ==> instances[k].home == k
  }

  // How the exactness of the index fares under each kind of change.

  lemma OverwriteIndex(instances: map<Id, Cell>, index: map<Id, Cell>, st: M.Records, c: Cell, r: Instance)
    requires Housed(instances, st) && IndexExact(instances, index, st)
    requires !Stored(instances, c) && r.id == NO_ID
    ensures IndexExact(instances[c.home := c], index, st[c.home := r]) <==>
            (c.home !in st || st[c.home].id == NO_ID)
  {
    var ins', st' := instances[c.home := c], st[c.home := r];
    if c.home in st && st[c.home].id != NO_ID {
      assert !Stored(ins', index[st[c.home].id]);
    } else {
      assert IndexExact(ins', index, st');
    }
  }

  lemma LinkIndex(instances: map<Id, Cell>, index: map<Id, Cell>, st: M.Records, c: Cell, r: Instance)
    requires Housed(instances, st) && IndexExact(instances, index, st)
    requires !Stored(instances, c) && r.id == c.home && c.home !in index
    ensures IndexExact(instances[c.home := c], index[c.home := c], st[c.home := r]) <==>
            (c.home != NO_ID && (c.home !in st || st[c.home].id == NO_ID))
  {
    var ins', ix', st' := instances[c.home := c], index[c.home := c], st[c.home := r];
    assert c.home in ix';
    if c.home in st && st[c.home].id != NO_ID {
      assert st[c.home].id in ix' && !Stored(ins', ix'[st[c.home].id]);
    } else if c.home != NO_ID {
      assert IndexExact(ins', ix', st');
    }
  }

  /** The primary map after an update: a different record that holds the HREF is dropped. */
  ghost function WithoutDuplicate(instances: map<Id, Cell>, index: map<Id, Cell>, c: Cell, href: Id): map<Id, Cell> {
    if href != NO_ID && href in index && index[href] != c then instances - {index[href].home} else instances
  }

  lemma UpdateIndex(instances: map<Id, Cell>, index: map<Id, Cell>, st: M.Records, k: Id, r: Instance)
    requires Housed(instances, st) && IndexExact(instances, index, st)
    requires k in st
    ensures var ins' := WithoutDuplicate(instances, index, instances[k], r.id);
            var ix' := if r.id == NO_ID then index else index[r.id := instances[k]];
            && Housed(ins', M.Replace(st, k, r))
            && (IndexExact(ins', ix', M.Replace(st, k, r)) <==> (st[k].id == NO_ID || st[k].id == r.id))
  {
    var c := instances[k];
    var ins' := WithoutDuplicate(instances, index, c, r.id);
    var ix' := if r.id == NO_ID then index else index[r.id := c];
    var st' := M.Replace(st, k, r);
    assert ins'.Keys == st'.Keys by {
      if r.id != NO_ID {
        forall j | j in M.Holders(st, r.id)
          ensures r.id in index && index[r.id].home == j
        {
        }
      }
    }
    if st[k].id != NO_ID && st[k].id != r.id {
      assert st[k].id in ix' && ix'[st[k].id] == c;
    } else {
      assert IndexExact(ins', ix', st');
    }
  }

  lemma PruneIndex(instances: map<Id, Cell>, index: map<Id, Cell>, st: M.Records, k: Id)
    requires Housed(instances, st) && IndexExact(instances, index, st)
    requires k in st
    ensures Housed(instances - {k}, st - {k}) && IndexExact(instances - {k}, index - {st[k].id}, st - {k})
  {
    var ix' := index - {st[k].id};
    forall h | h in ix'
      ensures Stored(instances - {k}, ix'[h])
    {
      assert ix'[h].home != k;
    }
  }

  lemma SameIdsIndex(instances: map<Id, Cell>, index: map<Id, Cell>, st: M.Records, st': M.Records)
    requires Housed(instances, st) && IndexExact(instances, index, st)
    requires st'.Keys == st.Keys && forall k :: k in st ==> st'[k].id == st[k].id
    ensures IndexExact(instances, index, st')
  {
  }

  class DesiredStateStore {
    var instances: map<Id, Cell>
    var byVAppHREF: map<Id, Cell>
    ghost var Repr: set<Cell>
    ghost var Contents: M.Records

    /** The primary map holds exactly Contents. */
    ghost predicate Held()
      reads this, Repr
    {
      && Housed(instances, Contents)
      && (forall k :: k in instances ==> instances[k] in Repr && instances[k].r == Contents[k])
    }

    ghost predicate Indexed()
      reads this
    {
      IndexExact(instances, byVAppHREF, Contents)
    }

    ghost predicate Valid()
      reads this, Repr
    {
      Held() && Indexed() && M.KeysOwned(Contents)
    }

    constructor ()
      ensures Valid() && fresh(Repr) && Contents == map[]
    {
      instances, byVAppHREF := map[], map[];
      Repr, Contents := {}, map[];
    }

    /** Assigns both maps, and what they now stand for, in one step. */
    method Install(ins: map<Id, Cell>, index: map<Id, Cell>, ghost cells: set<Cell>, ghost st: M.Records)
      modifies this
      ensures instances == ins && byVAppHREF == index && Repr == cells && Contents == st
    {
      instances, byVAppHREF := ins, index;
      Repr, Contents := cells, st;
    }

    /** As Install, after writing one record. */
    method InstallRecord(inst: Cell, r: Instance, ins: map<Id, Cell>, index: map<Id, Cell>, ghost st: M.Records)
      modifies this, inst
      ensures inst.r == r && instances == ins && byVAppHREF == index && Repr == old(Repr) && Contents == st
    {
      inst.r := r;
      Install(ins, index, Repr, st);
    }

    /** The index agrees with a scan, for every HREF. */
    lemma IndexIsScan(href: Id)
      requires Valid()
      ensures href in byVAppHREF <==> M.Tracked(Contents, href)
      ensures href in byVAppHREF ==> M.Holders(Contents, href) == {byVAppHREF[href].r.intentID}
      ensures href in byVAppHREF ==> Stored(instances, byVAppHREF[href])
      ensures M.UniqueHREFs(Contents)
    {
      if href in byVAppHREF {
        assert byVAppHREF[href].home in M.Holders(Contents, href);
      }
    }

    /** Overwriting an intent that already has an HREF is the one way this call breaks the index. */
    method AddCreateIntent(intentID: Id, now: Time)
      requires Valid()
      modifies this
      ensures Held() && fresh(Repr - old(Repr)) && M.KeysOwned(Contents)
      ensures Contents == M.AddCreateIntent(old(Contents), intentID, now)
      ensures Indexed() <==> intentID !in old(Contents) || old(Contents)[intentID].id == NO_ID
    {
      var inst := new Cell(NewIntent(intentID, now));
      OverwriteIndex(instances, byVAppHREF, Contents, inst, inst.r);
      Install(instances[intentID := inst], byVAppHREF, Repr + {inst}, Contents[intentID := inst.r]);
    }

    method FindLocked(id: Id) returns (inst: Cell?)
      requires Valid()
      ensures inst == null <==> forall k :: k in Contents ==> !M.Named(Contents, k, id)
      ensures inst != null ==> Stored(instances, inst)
      ensures inst != null ==> forall k :: k in Contents ==> (M.Named(Contents, k, id) <==> k == inst.home)
    {
      IndexIsScan(id);
      if id in instances {
        assert M.Named(Contents, id, id);
        return instances[id];
      }
      if id in byVAppHREF {
        assert M.Named(Contents, byVAppHREF[id].home, id);
        return byVAppHREF[id];
      }
      return null;
    }

    /** Writes one record in place; both maps see the change. */
    method Write(inst: Cell, r: Instance)
      requires Valid() && Stored(instances, inst)
      requires r.id == inst.r.id && r.intentID == inst.r.intentID
      modifies this`Contents, inst
      ensures Valid() && Contents == old(Contents)[inst.home := r]
    {
      SameIdsIndex(instances, byVAppHREF, Contents, Contents[inst.home := r]);
      inst.r := r;
      Contents := Contents[inst.home := r];
    }

    method MarkForDeletion(id: Id, now: Time)
      requires Valid()
      modifies this`Contents, Repr
      ensures Valid() && Contents == M.MarkForDeletion(old(Contents), id, now)
      ensures id in old(Contents) && old(Contents)[id].phase == Running ==> Contents[id].phase == PendingDelete
    {
      var inst := FindLocked(id);
      if inst == null || inst.r.phase != Running {
        assert Contents == M.MarkForDeletion(Contents, id, now);
        return;
      }
      Write(inst, inst.r.(phase := PendingDelete, deleteRequestedAt := Some(now), lastUpdated := Some(now)));
      assert Contents == M.MarkForDeletion(old(Contents), id, now);
    }

    method GetByVAppHREF(href: Id) returns (found: Option<Instance>)
      requires Valid()
      ensures found.Some? <==> M.Tracked(Contents, href)
      ensures found.Some? ==> found.value.intentID in Contents && Contents[found.value.intentID] == found.value
      ensures found.Some? ==> M.Holders(Contents, href) == {found.value.intentID}
    {
      IndexIsScan(href);
      if href in byVAppHREF {
        return Some(byVAppHREF[href].r);
      }
      return None;
    }

    method GetByIntentID(intentID: Id) returns (found: Option<Instance>)
      requires Valid()
      ensures found == if intentID in Contents then Some(Contents[intentID]) else None
    {
      if intentID in instances {
        return Some(instances[intentID].r);
      }
      return None;
    }

    /**
     * The index survives exactly when the callback keeps the HREF or sets it for the first time;
     * the keys survive exactly when it keeps the intent id.
     */
    method UpdateInstance(intentID: Id, fn: Instance -> Instance, now: Time)
      requires Valid()
      modifies this, Repr
      ensures Held() && Repr == old(Repr)
      ensures Contents == M.UpdateInstance(old(Contents), intentID, fn, now)
      ensures intentID in old(Contents) ==>
                (M.KeysOwned(Contents) <==> fn(old(Contents)[intentID]).intentID == intentID)
      ensures intentID in old(Contents) ==>
                (Indexed() <==> var r := old(Contents)[intentID]; r.id == NO_ID || r.id == fn(r).id)
      ensures intentID !in old(Contents) ==> Valid()
    {
      if intentID !in instances {
        return;
      }
      var inst := instances[intentID];
      var r := fn(inst.r).(lastUpdated := Some(now));
      ghost var st := M.Replace(Contents, intentID, r);
      UpdateIndex(instances, byVAppHREF, Contents, intentID, r);
      M.ReplaceKeepsKeys(Contents, intentID, r);
      var ins, index := instances, byVAppHREF;
      if r.id != NO_ID {
        if r.id in index && index[r.id] != inst {
          var existing := index[r.id];
          ins := ins - {existing.r.intentID};
        }
        index := index[r.id := inst];
      }
      InstallRecord(inst, r, ins, index, st);
    }

    /** Stores a record under its HREF in both maps. */
    method Link(href: Id, r: Instance)
      requires Valid() && href !in byVAppHREF && r.id == href && r.intentID == href
      modifies this
      ensures Held() && fresh(Repr - old(Repr)) && M.KeysOwned(Contents)
      ensures Contents == old(Contents)[href := r]
      ensures Indexed() <==> href != NO_ID && (href !in old(Contents) || old(Contents)[href].id == NO_ID)
    {
      var inst := new Cell(r);
      LinkIndex(instances, byVAppHREF, Contents, inst, r);
      Install(instances[href := inst], byVAppHREF[href := inst], Repr + {inst}, Contents[href := r]);
    }

    method AddPreexisting(href: Id, name: Id, observed: Observed, now: Time)
      requires Valid()
      modifies this
      ensures Held() && fresh(Repr - old(Repr)) && M.KeysOwned(Contents)
      ensures Contents == M.AddPreexisting(old(Contents), href, name, observed, now)
      ensures !M.Tracked(old(Contents), href) ==> href in Contents && Contents[href].id == href && Contents[href].phase == Running
      ensures Indexed() <==>
              M.Tracked(old(Contents), href) ||
              (href != NO_ID && (href !in old(Contents) || old(Contents)[href].id == NO_ID))
    {
      IndexIsScan(href);
      if href in byVAppHREF {
        return;
      }
      Link(href, NewPreexisting(href, name, observed, now));
    }

    method AddLeftover(href: Id, name: Id, now: Time) returns (added: bool)
      requires Valid()
      modifies this
      ensures Held() && fresh(Repr - old(Repr)) && M.KeysOwned(Contents)
      ensures added == !M.Tracked(old(Contents), href)
      ensures Contents == M.AddLeftover(old(Contents), href, name, now)
      ensures added ==> href in Contents && Contents[href].id == href && Contents[href].leftover && Contents[href].phase == PendingDelete
      ensures Indexed() <==>
              !added || (href != NO_ID && (href !in old(Contents) || old(Contents)[href].id == NO_ID))
    {
      IndexIsScan(href);
      if href in byVAppHREF {
        return false;
      }
      Link(href, NewLeftover(href, name, now));
      return true;
    }

    method UpdateFromVCD(href: Id, name: Id, observed: Observed, now: Time) returns (tracked: bool)
      requires Valid()
      modifies this`Contents, Repr
      ensures Valid() && Contents == M.UpdateFromVCD(old(Contents), href, name, observed, now)
      ensures tracked == M.Tracked(old(Contents), href)
    {
      IndexIsScan(href);
      if href !in byVAppHREF {
        assert Contents == M.UpdateFromVCD(Contents, href, name, observed, now);
        return false;
      }
      var inst := byVAppHREF[href];
      Write(inst, inst.r.(name := name, observed := observed, missedPolls := 0, lastUpdated := Some(now)));
      assert Contents == M.UpdateFromVCD(old(Contents), href, name, observed, now);
      return true;
    }

    /** The body of MarkDisappeared's loop, on one record. */
    static method CountMiss(r: Instance, known: set<Id>, now: Time) returns (r': Instance)
      ensures r' == Missed(r, known, now)
    {
      if r.id == NO_ID || r.phase == Deleted || r.phase == PendingCreate || r.phase == Creating {
        return r;
      }
      if r.id in known {
        return r;
      }
      r' := r.(missedPolls := r.missedPolls + 1);
      if r'.missedPolls >= MISSED_POLLS_BEFORE_DISAPPEARED {
        r' := r'.(phase := Deleted, deleteCompletedAt := Some(now), lastUpdated := Some(now));
      }
    }

    method MarkDisappeared(known: set<Id>, now: Time)
      requires Valid()
      modifies this`Contents, Repr
      ensures Valid() && Contents == M.MarkDisappeared(old(Contents), known, now)
      ensures forall k :: k in old(Contents) ==>
                var r := old(Contents)[k];
                k in Contents &&
                if r.id != NO_ID && (r.phase == Running || r.phase == PendingDelete || r.phase == Deleting) && r.id !in known then
                  && Contents[k].missedPolls == r.missedPolls + 1
                  && Contents[k].phase == if r.missedPolls + 1 >= 3 then Deleted else r.phase
                else Contents[k] == r
    {
      ghost var was := Contents;
      var todo := instances.Keys;
      assert Contents == M.MissedBut(was, known, todo, now);
      while todo != {}
        invariant Valid() && todo <= was.Keys && Contents == M.MissedBut(was, known, todo, now)
        decreases todo
      {
        var k :| k in todo;
        var r := CountMiss(instances[k].r, known, now);
        Write(instances[k], r);
        M.MissOneMore(was, known, todo, k, now);
        todo := todo - {k};
      }
    }

    /** Records and their index entries go together. */
    method Prune(now: Time)
      requires Valid()
      modifies this
      ensures Valid() && Repr == old(Repr) && Contents == M.Prune(old(Contents), now)
      ensures forall k :: k in old(Contents) ==>
                var r := old(Contents)[k];
                (k in Contents <==> !(r.phase == Deleted && r.deleteCompletedAt.Some? && now - r.deleteCompletedAt.value > 5 * MINUTE))
    {
      ghost var was := Contents;
      var todo := instances.Keys;
      assert Contents == M.PrunedBut(was, todo, now);
      while todo != {}
        invariant Valid() && Repr == old(Repr) && todo <= was.Keys && Contents == M.PrunedBut(was, todo, now)
        decreases todo
      {
        var k :| k in todo;
        PruneOne(k, now);
        M.PruneOneMore(was, todo, k, now);
        todo := todo - {k};
      }
    }

    /** The body of Prune's loop, on one record. */
    method PruneOne(k: Id, now: Time)
      requires Valid() && k in instances
      modifies this
      ensures Valid() && Repr == old(Repr)
      ensures Contents == if Prunable(old(Contents)[k], now) then old(Contents) - {k} else old(Contents)
    {
      var inst := instances[k];
      if inst.r.phase == Deleted && inst.r.deleteCompletedAt.Some? && inst.r.deleteCompletedAt.value < now - PRUNE_AFTER {
        PruneIndex(instances, byVAppHREF, Contents, k);
        Install(instances - {k}, byVAppHREF - {inst.r.id}, Repr, Contents - {k});
      }
    }

    method MarkGC(intentID: Id, now: Time)
      requires Valid()
      modifies this`Contents, Repr
      ensures Valid() && Contents == M.MarkGC(old(Contents), intentID, now)
      ensures intentID in old(Contents) && old(Contents)[intentID].phase == Running ==> Contents[intentID].phase == PendingDelete
    {
      if intentID !in instances || instances[intentID].r.phase != Running {
        return;
      }
      var inst := instances[intentID];
      Write(inst, inst.r.(phase := PendingDelete, gcMarkedAt := Some(now), deleteRequestedAt := Some(now), lastUpdated := Some(now)));
    }

    /** The loop behind the filtered queries: a copy of every record that `want` accepts, each once. */
    method Select(want: Instance -> bool) returns (result: seq<Instance>)
      requires Valid()
      ensures M.Enumerates(result, Contents, M.Matching(Contents, want))
    {
      result := [];
      var todo := instances.Keys;
      ghost var chosen: set<Id> := {};
      while todo != {}
        invariant todo <= instances.Keys
        invariant chosen <= Contents.Keys && chosen !! todo
        invariant forall k :: k in Contents && k !in todo ==> (k in chosen <==> want(Contents[k]))
        invariant M.Enumerates(result, Contents, chosen)
        decreases todo
      {
        var k :| k in todo;
        todo := todo - {k};
        if want(instances[k].r) {
          M.EnumerateOneMore(result, Contents, chosen, k);
          result, chosen := result + [instances[k].r], chosen + {k};
        }
      }
      assert M.Matching(Contents, want) == chosen;
    }

    method GetAll() returns (result: seq<Instance>)
      requires Valid()
      ensures M.Enumerates(result, Contents, Contents.Keys)
    {
      result := Select(r => true);
      assert M.Matching(Contents, r => true) == Contents.Keys;
    }

    method GetPendingCreates(now: Time) returns (result: seq<Instance>)
      requires Valid()
      ensures M.Enumerates(result, Contents, M.Matching(Contents, r => ReadyToCreate(r, now)))
      ensures forall k :: k in Contents ==>
                var r := Contents[k];
                (r in result <==> r.phase == PendingCreate && (r.nextRetryAfter.Some? ==> r.nextRetryAfter.value <= now))
    {
      result := Select(r => ReadyToCreate(r, now));
    }

    method GetPendingDeletes(now: Time) returns (result: seq<Instance>)
      requires Valid()
      ensures M.Enumerates(result, Contents, M.Matching(Contents, r => ReadyToDelete(r, now)))
      ensures forall k :: k in Contents ==>
                var r := Contents[k];
                (r in result <==> r.phase == PendingDelete && (r.nextRetryAfter.Some? ==> r.nextRetryAfter.value <= now))
    {
      result := Select(r => ReadyToDelete(r, now));
    }

    method GetRunningForGC(maxAge: Time, now: Time) returns (result: seq<Instance>)
      requires Valid()
      ensures M.Enumerates(result, Contents, M.Matching(Contents, r => TooOld(r, maxAge, now)))
      ensures forall k :: k in Contents ==>
                var r := Contents[k];
                (r in result <==> r.phase == Running && r.createCompletedAt.Some? && now - r.createCompletedAt.value > maxAge)
    {
      result := Select(r => TooOld(r, maxAge, now));
    }

    method Size() returns (count: nat)
      requires Valid()
      ensures count == |set k | k in Contents && Contents[k].phase != Deleted|
    {
      var live := Select(Undeleted);
      assert M.Matching(Contents, Undeleted) == set k | k in Contents && Contents[k].phase != Deleted;
      return |live|;
    }

    method LeftoverCount() returns (count: nat)
      requires Valid()
      ensures count == |set k | k in Contents && Contents[k].leftover && Contents[k].phase != Deleted|
    {
      var pending := Select(PendingLeftover);
      assert M.Matching(Contents, PendingLeftover) == set k | k in Contents && Contents[k].leftover && Contents[k].phase != Deleted;
      return |pending|;
    }
  }
}
