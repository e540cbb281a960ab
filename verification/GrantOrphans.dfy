/** Deleting, at start-up, the minted keys no record names. */
module GrantOrphans {
  import opened GrantKeys
  import opened Wrappers
  import opened GrantWorld
  import opened GrantKeep
  import opened GrantMove
  import opened NamedKeys

  /** Every id a record in memory has. */
  function Loaded(standing: map<Id, Rec>, jobs: map<JobName, Rec>): set<Id> {
    standing.Keys + set n | n in jobs && jobs[n].key != NoKey :: jobs[n].key
  }

  /** What a cleanup must not touch: ids a file mentions anywhere, ids a loaded record has, and any id not of
      the minted shape. */
  ghost predicate Protected(ledger: Json, jobList: Json, standing: map<Id, Rec>, jobs: map<JobName, Rec>, id: Id) {
    Mentions(ledger, id) || Mentions(jobList, id) || id in Loaded(standing, jobs) || !Minted(id)
  }

  lemma UnknownIsIdle(v: Moment, known: set<Id>, id: Id)
    requires v.Valid() && Loaded(v.disk.ledger, v.disk.jobs) <= known && Minted(id) && id !in known
    ensures forall kind :: Idle(v.disk, Name(id, kind))
  {
    var d := v.disk;
    forall i | i in d.jobs ensures d.jobs[i].key != id {
      if d.jobs[i].key != NoKey {
        assert d.jobs[i].key in Loaded(d.ledger, d.jobs);
      }
    }
  }

  /** Nothing but keys of `ids` is gone, and nothing is new. */
  ghost predicate OnlyGone(v0: Moment, v: Moment, ids: set<Id>) {
    && Later(v0, v) && SameFiles(v0.disk, v.disk) && Made(v.log) == Made(v0.log) && (v0.Lawful() ==> v.Lawful())
    && v.disk.keys.Keys <= v0.disk.keys.Keys
    && forall n :: n in v0.disk.keys && (n in v.disk.keys || n.id !in ids) ==>
         n in v.disk.keys && v.disk.keys[n] == v0.disk.keys[n]
  }

  lemma GoneThen(v0: Moment, v1: Moment, v2: Moment, ids: set<Id>, more: set<Id>)
    requires OnlyGone(v0, v1, ids) && OnlyGone(v1, v2, more)
    ensures OnlyGone(v0, v2, ids + more)
  {
    hide Moment.Lawful, Made;
  }

  /** One key asked to go, whose id no record has. */
  lemma AskedToGo(v0: Moment, v: Moment, n: Name)
    requires v0.Valid() && Idle(v0.disk, n)
    requires var was := v0.(asked := v0.asked + {n}); v == was || v == was.Then(DropKey(n))
    ensures OnlyGone(v0, v, {n.id})
  {
    hide Made, Idle, AllLegal, Sane;
    ThenLawful(v0.(asked := v0.asked + {n}), DropKey(n));
    DropIsLegal(v0.disk, n);
  }

  lemma GoneSame(v0: Moment, v: Moment, ids: set<Id>)
    requires OnlyGone(v0, v, ids)
    ensures SameFiles(v0.disk, v.disk)
  {
  }

  /** Both kinds of one unknown id's key; the keychain's is asked to go whatever came of the enclave's. */
  method DeleteBoth(w: World, id: Id, ghost known: set<Id>) returns (ok: bool)
    requires w.Valid() && Loaded(w.disk.ledger, w.disk.jobs) <= known && Minted(id) && id !in known
    modifies w
    ensures w.Valid() && OnlyGone(old(w.Now()), w.Now(), {id})
    ensures w.asked == old(w.asked) + {Name(id, Enclave), Name(id, Keychain)}
    ensures ok ==> forall n :: n in w.disk.keys && n.id == id ==> !w.store.Reaches(n)
    ensures w.store.steady ==> ok
  {
    hide OnlyGone, Idle, Sane, Loaded, Moment.Valid;
    UnknownIsIdle(w.Now(), known, id);
    ghost var v0 := w.Now();
    var enclave := w.DeleteWrap(Name(id, Enclave));
    ghost var v1 := w.Now();
    AskedToGo(v0, v1, Name(id, Enclave));
    GoneSame(v0, v1, {id});
    UnknownIsIdle(w.Now(), known, id);
    var keychain := w.DeleteWrap(Name(id, Keychain));
    AskedToGo(v1, w.Now(), Name(id, Keychain));
    GoneThen(v0, v1, w.Now(), {id}, {id});
    assert {id} + {id} == {id};
    ok := enclave && keychain;
    NoneInReach(w.store, v1.disk.keys, w.disk.keys, id, ok);
  }

  lemma NoneInReach(st: Store, mid: Keys, keys: Keys, id: Id, ok: bool)
    requires ok && st.Reaches(Name(id, Enclave)) ==> Name(id, Enclave) !in mid
    requires ok && st.Reaches(Name(id, Keychain)) ==> Name(id, Keychain) !in keys
    requires keys.Keys <= mid.Keys
    ensures ok ==> forall n :: n in keys && n.id == id ==> !st.Reaches(n)
  {
    forall n | n in keys && n.id == id && ok ensures !st.Reaches(n) {
      assert n == Name(id, n.kind);
    }
  }

  datatype Cleanup = Skipped | NotListed | Done(deleted: set<Id>, failed: set<Id>)

  /** `id` has a key in reach. */
  predicate Listed(st: Store, keys: Keys, id: Id) {
    exists n | n in keys :: st.Reaches(n) && n.id == id
  }

  /** What a cleanup has done so far, or in all: nothing but the keys of these ids is any different, those it
      counts as deleted have no reachable key left, and all of them were asked to go. */
  ghost predicate Cleaned(st: Store, v0: Moment, v: Moment, deleted: set<Id>, failed: set<Id>) {
    && OnlyGone(v0, v, deleted + failed) && deleted !! failed
    && (forall id :: id in deleted ==> !Listed(st, v.disk.keys, id))
    && (forall id, kind :: id in deleted + failed ==> Name(id, kind) in v.asked)
    && (st.steady ==> failed == {})
  }

  lemma CleanedMore(st: Store, v0: Moment, v1: Moment, v2: Moment, deleted: set<Id>, failed: set<Id>, id: Id, ok: bool)
    requires Cleaned(st, v0, v1, deleted, failed) && OnlyGone(v1, v2, {id}) && id !in deleted + failed
    requires v2.asked == v1.asked + {Name(id, Enclave), Name(id, Keychain)}
    requires ok ==> forall n :: n in v2.disk.keys && n.id == id ==> !st.Reaches(n)
    requires st.steady ==> ok
    ensures Cleaned(st, v0, v2, if ok then deleted + {id} else deleted, if ok then failed else failed + {id})
  {
    hide Moment.Lawful, Made;
    GoneThen(v0, v1, v2, deleted + failed, {id});
    var d, f := if ok then deleted + {id} else deleted, if ok then failed else failed + {id};
    assert d + f == deleted + failed + {id};
    forall i, kind: Kind | i in d + f ensures Name(i, kind) in v2.asked {
      if i == id {
        assert kind == Enclave || kind == Keychain;
      }
    }
  }

  /** Deletes every listed minted key nobody names, when both files loaded. The documents are the files as
      they were read, before a move could write them; one that did not load is missing. */
  method DeleteOrphanGrantKeys(s: Server, ledger: Option<Json>, jobList: Option<Json>) returns (r: Cleanup)
    requires s.Valid()
    modifies s.world
    ensures s.Valid() && (r.Skipped? <==> ledger.None? || jobList.None?)
    ensures !r.Done? ==> s.world.Now() == old(s.world.Now())
    ensures s.world.store.steady && !r.Skipped? ==> r.Done?
    ensures r.Done? ==>
      && Cleaned(s.world.store, old(s.world.Now()), s.world.Now(), r.deleted, r.failed)
      // Each id with a key in reach that nobody names is told of once, and no other.
      && forall id :: id in r.deleted + r.failed <==>
           && Listed(s.world.store, old(s.world.disk).keys, id)
           && !Protected(ledger.value, jobList.value, s.standing, s.jobs, id)
  {
    hide Cleaned, Sane, Mentions;
    var ledgerNames := NamedKeyIds(ledger);
    var jobNames := NamedKeyIds(jobList);
    if ledgerNames.None? || jobNames.None? {
      return Skipped;
    }
    var known := ledgerNames.value + jobNames.value + Loaded(s.standing, s.jobs);
    var ids := s.world.ListKeyIds();
    if ids.None? {
      return NotListed;
    }
    var orphans := set id | id in ids.value && id !in known && Minted(id);
    var deleted, failed := DeleteAll(s, orphans, known);
    return Done(deleted, failed);
  }

  method DeleteAll(s: Server, orphans: set<Id>, ghost known: set<Id>) returns (deleted: set<Id>, failed: set<Id>)
    requires s.Valid() && Loaded(s.standing, s.jobs) <= known
    requires forall id :: id in orphans ==> Minted(id) && id !in known
    modifies s.world
    ensures s.Valid() && deleted + failed == orphans
    ensures Cleaned(s.world.store, old(s.world.Now()), s.world.Now(), deleted, failed)
  {
    deleted, failed := {}, {};
    var todo := orphans;
    while todo != {}
      invariant todo <= orphans && deleted + failed == orphans - todo && s.Valid()
      invariant Cleaned(s.world.store, old(s.world.Now()), s.world.Now(), deleted, failed)
    {
      hide Cleaned, Sane;
      var id :| id in todo;
      todo := todo - {id};
      ghost var before, d, f := s.world.Now(), deleted, failed;
      var ok := DeleteBoth(s.world, id, known);
      GoneSame(before, s.world.Now(), {id});
      CleanedMore(s.world.store, old(s.world.Now()), before, s.world.Now(), d, f, id, ok);
      if ok {
        deleted := deleted + {id};
      } else {
        failed := failed + {id};
      }
    }
  }
}
