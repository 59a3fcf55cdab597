/** The store as a value: one map from intent id to record. HREF lookups are scans of that map. */
module StoreModel {
  import opened Basics
  import opened Lifecycle

  type Records = map<Id, Instance>

  /** The keys of the records that carry this HREF. */
  function Holders(st: Records, href: Id): set<Id> {
    set k | k in st && href != NO_ID && st[k].id == href
  }

  predicate Tracked(st: Records, href: Id) {
    Holders(st, href) != {}
  }

  /** MarkForDeletion accepts an intent id or, failing that, an HREF. */
  predicate Named(st: Records, k: Id, id: Id) {
    if id in st then k == id else k in Holders(st, id)
  }

  function AddCreateIntent(st: Records, intentID: Id, now: Time): Records {
    st[intentID := NewIntent(intentID, now)]
  }

  function MarkForDeletion(st: Records, id: Id, now: Time): Records {
    map k | k in st :: if Named(st, k, id) then RequestDelete(st[k], now) else st[k]
  }

  function AddLeftover(st: Records, href: Id, name: Id, now: Time): Records {
    if Tracked(st, href) then st else st[href := NewLeftover(href, name, now)]
  }

  function AddPreexisting(st: Records, href: Id, name: Id, observed: Observed, now: Time): Records {
    if Tracked(st, href) then st else st[href := NewPreexisting(href, name, observed, now)]
  }

  function UpdateFromVCD(st: Records, href: Id, name: Id, observed: Observed, now: Time): Records {
    map k | k in st :: if k in Holders(st, href) then Refreshed(st[k], name, observed, now) else st[k]
  }

  /** Replaces one record; any other record that already carries the new HREF is dropped. */
  function Replace(st: Records, intentID: Id, r: Instance): Records {
    map k | k in st && (k == intentID || k !in Holders(st, r.id)) :: if k == intentID then r else st[k]
  }

  function UpdateInstance(st: Records, intentID: Id, fn: Instance -> Instance, now: Time): Records {
    if intentID !in st then st else Replace(st, intentID, fn(st[intentID]).(lastUpdated := Some(now)))
  }

  function MarkDisappeared(st: Records, known: set<Id>, now: Time): Records {
    map k | k in st :: Missed(st[k], known, now)
  }

  function Prune(st: Records, now: Time): Records {
    map k | k in st && !Prunable(st[k], now) :: st[k]
  }

  /** MarkDisappeared and Prune while some records are still to do. */
  function MissedBut(st: Records, known: set<Id>, todo: set<Id>, now: Time): Records {
    map k | k in st :: if k in todo then st[k] else Missed(st[k], known, now)
  }

  function PrunedBut(st: Records, todo: set<Id>, now: Time): Records {
    map k | k in st && (k in todo || !Prunable(st[k], now)) :: st[k]
  }

  lemma MissOneMore(st: Records, known: set<Id>, todo: set<Id>, k: Id, now: Time)
    requires k in todo && k in st
    ensures MissedBut(st, known, todo - {k}, now) == MissedBut(st, known, todo, now)[k := Missed(st[k], known, now)]
    ensures MissedBut(st, known, todo, now)[k] == st[k]
    ensures MissedBut(st, known, {}, now) == MarkDisappeared(st, known, now)
  {
  }

  lemma PruneOneMore(st: Records, todo: set<Id>, k: Id, now: Time)
    requires k in todo && k in st
    ensures var left := PrunedBut(st, todo, now);
            && k in left && left[k] == st[k]
            && PrunedBut(st, todo - {k}, now) == if Prunable(st[k], now) then left - {k} else left
    ensures PrunedBut(st, {}, now) == Prune(st, now)
  {
  }

  function MarkGC(st: Records, intentID: Id, now: Time): Records {
    if intentID in st then st[intentID := MarkedByGC(st[intentID], now)] else st
  }

  function Matching(st: Records, want: Instance -> bool): set<Id> {
    set k | k in st && want(st[k])
  }

  /** `list` holds a copy of each chosen record exactly once, in some order. */
  predicate Enumerates(list: seq<Instance>, st: Records, chosen: set<Id>)
    requires chosen <= st.Keys
  {
    && |list| == |chosen|
    && (forall k :: k in chosen ==> st[k] in list)
    && (forall i :: 0 <= i < |list| ==> list[i].intentID in chosen && st[list[i].intentID] == list[i])
  }

  lemma EnumerateOneMore(list: seq<Instance>, st: Records, chosen: set<Id>, k: Id)
    requires chosen <= st.Keys && k in st && k !in chosen && st[k].intentID == k
    requires Enumerates(list, st, chosen)
    ensures Enumerates(list + [st[k]], st, chosen + {k})
  {
    var list' := list + [st[k]];
    forall j | j in chosen + {k}
      ensures st[j] in list'
    {
      if j == k {
        assert list'[|list|] == st[k];
      }
    }
  }

  /** Every record sits under its own intent id. */
  predicate KeysOwned(st: Records) {
    forall k :: k in st ==> st[k].intentID == k
  }

  lemma ReplaceKeepsKeys(st: Records, intentID: Id, r: Instance)
    requires KeysOwned(st) && intentID in st
    ensures KeysOwned(Replace(st, intentID, r)) <==> r.intentID == intentID
  {
    assert intentID in Replace(st, intentID, r);
  }

  /** No two records carry the same HREF. */
  predicate UniqueHREFs(st: Records) {
    forall j, k :: j in st && k in st && st[j].id != NO_ID && st[j].id == st[k].id ==> j == k
  }
}
