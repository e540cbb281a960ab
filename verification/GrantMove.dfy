/** The start-up move: every grant's and never-ask job's key goes to the store's target kind, with no
    prompt and no moment at which a record's only key is gone. */
module GrantMove {
  import opened GrantKeys
  import opened Wrappers
  import opened GrantWorld
  import opened GrantKeep
  import opened GrantOutcome

  /** Re-seals item by item. Whatever comes of it, no key and no record is any different. */
  method SealItems(w: World, r: Rec, target: Kind, newKey: KeyBytes) returns (out: Option<map<Slot, Sealed>>)
    requires w.Valid() && NewName(r, target) in w.disk.keys && w.disk.keys[NewName(r, target)] == newKey
    modifies w`tries
    ensures w.Now() == old(w.Now()).(tries := w.tries) && TriesOutside(old(w.tries), w.tries, {r.key})
    ensures out.Some? ==> ResealedAll(w.disk.keys, r, target, out.value)
    ensures w.store.Works() && out.None? ==> Stuck(w.disk.keys, r, target)
    ensures Pending(r, target) && Deaf(w.store, OldName(r, target)) ==> out.None?
  {
    var cache: map<Kind, KeyBytes> := map[];
    var sealed: map<Slot, Sealed> := map[];
    var todo := r.entries.Keys;
    while todo != {}
      invariant todo <= r.entries.Keys && sealed.Keys == r.entries.Keys - todo
      invariant w.Now() == old(w.Now()).(tries := w.tries) && TriesOutside(old(w.tries), w.tries, {r.key})
      invariant forall k :: k in cache ==> Name(r.key, k) in w.disk.keys && w.disk.keys[Name(r.key, k)] == cache[k]
      invariant ResealedSoFar(w.disk.keys, r, target, sealed)
      invariant Deaf(w.store, OldName(r, target)) ==>
        Other(target) !in cache && forall s :: s in sealed ==> r.entries[s].wrap == target
    {
      var s :| s in todo;
      var e := r.entries[s];
      if e.wrap == target {
        sealed := sealed[s := e.copy];
      } else {
        if e.wrap !in cache {
          var k := w.LoadWrap(Name(r.key, e.wrap));
          if k.None? {
            return None;
          }
          cache := cache[e.wrap := k.value];
        }
        var dek := Open(cache[e.wrap], e.copy, e.cls);
        var sealFails := w.Fails();
        if dek.None? || sealFails {
          return None;
        }
        sealed := sealed[s := Seal(newKey, dek.value, e.cls)];
      }
      todo := todo - {s};
    }
    return Some(sealed);
  }

  /** The target key is there, made if it was not, and nothing else is any different. */
  ghost predicate KeyReady(v0: Moment, v: Moment, r: Rec, target: Kind) {
    var n := NewName(r, target);
    && v == (if n in v0.disk.keys then v0 else v0.Then(AddKey(n))).(tries := v.tries)
    && TriesOutside(v0.tries, v.tries, {r.key})
  }

  lemma KeyReadyFacts(v0: Moment, v: Moment, r: Rec, target: Kind)
    requires v0.Valid() && KeyReady(v0, v, r, target)
    ensures Later(v0, v) && SameFiles(v0.disk, v.disk) && NewName(r, target) in v.disk.keys
    ensures Frame(v0.disk.keys, v.disk.keys, {},
        if NewName(r, target) in v0.disk.keys then {} else {NewName(r, target)})
    ensures Made(v.log) <= Made(v0.log) + {r.key} && (v.Lawful() <==> v0.Lawful())
    ensures NewName(r, target) !in v0.disk.keys ==> Idle(v.disk, NewName(r, target))
    ensures Stuck(v.disk.keys, r, target) <==> Stuck(v0.disk.keys, r, target)
  {
    hide Stuck, Made, Idle, AllLegal, Sane, Replay;
    StuckLocal(v0.disk.keys, v.disk.keys, r, target);
    if NewName(r, target) !in v0.disk.keys {
      MadeKey(v0, NewName(r, target));
    }
  }

  lemma MadeKey(v: Moment, n: Name)
    requires v.Valid() && n !in v.disk.keys
    ensures Idle(v.Then(AddKey(n)).disk, n)
    ensures v.Then(AddKey(n)).Lawful() <==> v.Lawful()
    ensures Made(v.Then(AddKey(n)).log) == Made(v.log) + {n.id}
  {
    hide Made, Idle, Sane, Replay;
    FreshIsIdle(v.disk, n);
    ThenLawful(v, AddKey(n));
  }

  /** What SealItems says of its outcome. */
  ghost predicate SealedAs(st: Store, keys: Keys, r: Rec, target: Kind, out: Option<map<Slot, Sealed>>) {
    && (out.Some? ==> ResealedAll(keys, r, target, out.value))
    && (st.Works() && out.None? ==> Stuck(keys, r, target))
    && (Pending(r, target) && Deaf(st, OldName(r, target)) ==> out.None?)
  }

  lemma NotStuck(keys: Keys, r: Rec, target: Kind, sealed: map<Slot, Sealed>)
    requires ResealedAll(keys, r, target, sealed)
    ensures !Stuck(keys, r, target)
  {
  }

  /** Sealed, or not sealed but with the key there from the start. */
  lemma ResealKept(st: Store, v0: Moment, v: Moment, r: Rec, target: Kind, out: Option<map<Slot, Sealed>>)
    requires v0.Valid() && KeyReady(v0, v, r, target) && SealedAs(st, v.disk.keys, r, target, out)
    requires var n := NewName(r, target);
      out.None? ==> n in v0.disk.keys && !st.refuses(n, Count(v0.tries, n))
    ensures ResealedAs(st, v0, v, r, target, out)
  {
    hide Stuck, Made, Idle, Moment.Lawful, Sane, ResealedAll, Pending, Deaf, Store.Works, TriesOutside, Replay;
    var n := NewName(r, target);
    KeyReadyFacts(v0, v, r, target);
    if out.Some? {
      NotStuck(v.disk.keys, r, target, out.value);
    }
    var added: set<Name> := if n in v0.disk.keys then {} else {n};
    FrameWider(v0.disk.keys, v.disk.keys, {}, added, if out.None? && Risk(st, v0, n) then {n} else {}, added);
  }

  /** Not sealed, and the key was not there to load at first: its deletion is asked for. */
  lemma ResealDropped(st: Store, v0: Moment, v1: Moment, v: Moment, r: Rec, target: Kind, ok: bool)
    requires v0.Valid() && v1.Valid() && KeyReady(v0, v1, r, target) && SealedAs(st, v1.disk.keys, r, target, None)
    requires var n := NewName(r, target); n in v0.disk.keys ==> Risk(st, v0, n)
    requires st.steady ==> ok
    requires var n, was := NewName(r, target), v1.(asked := v1.asked + {NewName(r, target)});
      if ok then v == if st.Reaches(n) then was.Then(DropKey(n)) else was else v == was || v == was.Then(DropKey(n))
    ensures ResealedAs(st, v0, v, r, target, None)
  {
    hide Stuck, Made, Idle, AllLegal, Sane, Pending, Deaf, Store.Works, TriesOutside, Replay;
    var n := NewName(r, target);
    KeyReadyFacts(v0, v1, r, target);
    ThenLawful(v1.(asked := v1.asked + {n}), DropKey(n));
    DropIsLegal(v1.disk, n);
  }

  lemma DropIsLegal(d: Disk, n: Name)
    ensures Legal(d, DropKey(n)) <==> Idle(d, n)
  {
  }

  lemma ResealFailed(st: Store, v0: Moment, v: Moment, r: Rec, target: Kind)
    requires v == v0.(tries := v.tries) && TriesOutside(v0.tries, v.tries, {r.key})
    requires var n := NewName(r, target);
      st.steady ==> n in v0.disk.keys && st.refuses(n, Count(v0.tries, n) + 1)
    ensures ResealedAs(st, v0, v, r, target, None)
  {
  }

  /** One record's new copies. Should it fail, a key that did not load at first is deleted again. */
  method Reseal(w: World, r: Rec, target: Kind) returns (out: Option<map<Slot, Sealed>>)
    requires w.Valid()
    modifies w
    ensures w.Valid() && ResealedAs(w.store, old(w.Now()), w.Now(), r, target, out)
    // Lost, if anything, is what an entry on the target kind already was sealed under.
    ensures Meaning(old(w.disk), w.disk) <==>
      (NewName(r, target) in old(w.disk).keys && NewName(r, target) !in w.disk.keys ==>
        Idle(old(w.disk), NewName(r, target)))
  {
    hide ResealedAs, ResealedAll, Stuck, Sane, Idle, Made, Moment.Lawful, Meaning, Pending, Deaf, Store.Works;
    var n := NewName(r, target);
    ghost var v0 := w.Now();
    var seen := w.LoadWrap(n);
    var newKey := w.CreateWrap(n);
    if newKey.None? {
      ResealFailed(w.store, v0, w.Now(), r, target);
      ResealEnds(w.store, v0, w.Now(), r, target, None);
      return None;
    }
    out := SealItems(w, r, target, newKey.value);
    ghost var v1 := w.Now();
    if out.None? && seen.None? {
      var ok := w.DeleteWrap(n);
      ResealDropped(w.store, v0, v1, w.Now(), r, target, ok);
    } else {
      ResealKept(w.store, v0, v1, r, target, out);
    }
    ResealEnds(w.store, v0, w.Now(), r, target, out);
  }

  lemma ResealEnds(st: Store, v0: Moment, v: Moment, r: Rec, target: Kind, out: Option<map<Slot, Sealed>>)
    requires ResealedAs(st, v0, v, r, target, out)
    ensures Meaning(v0.disk, v.disk) <==>
      (NewName(r, target) in v0.disk.keys && NewName(r, target) !in v.disk.keys ==>
        Idle(v0.disk, NewName(r, target)))
  {
    hide Meaning, Idle, Made, Moment.Lawful, Stuck, ResealedAll, Pending, Store.Works;
    var n := NewName(r, target);
    var added: set<Name> := if n in v0.disk.keys then {} else {n};
    FrameWider(v0.disk.keys, v.disk.keys, if out.None? && Risk(st, v0, n) then {n} else {}, added, {n}, added);
    FrameMeaningIff(v0.disk, v.disk, n, added);
  }

  lemma LeftAs(v0: Moment, v: Moment, r: Rec, target: Kind)
    requires v0.Valid() && r.unread == 0
    requires var n := OldName(r, target); var was := v0.(asked := v0.asked + {n}); v == was || v == was.Then(DropKey(n))
    ensures LeftBehind(v0, v, r, target)
  {
    hide Made, Idle, AllLegal, Sane, Replay;
    ThenLawful(v0.(asked := v0.asked + {OldName(r, target)}), DropKey(OldName(r, target)));
    DropIsLegal(v0.disk, OldName(r, target));
  }

  /** Asks the key of the other kind to go, which nothing names by then. */
  method DeleteOthers(w: World, r: Rec, target: Kind)
    requires w.Valid()
    modifies w
    ensures w.Valid() && LeftBehind(old(w.Now()), w.Now(), r, target)
  {
    hide LeftBehind, Sane;
    if r.unread > 0 {
      LeftNone(w.Now(), r, target);
      return;
    }
    var _ := w.DeleteWrap(OldName(r, target));
    LeftAs(old(w.Now()), w.Now(), r, target);
  }

  lemma LeftNone(v: Moment, r: Rec, target: Kind)
    requires r.unread > 0
    ensures LeftBehind(v, v, r, target)
  {
  }

  /** The jobs a move takes on: those with a key of their own whose every secret this build reads. */
  function Movable(m: map<JobName, Rec>): set<JobName> {
    set n | n in m && m[n].key.JobId? && m[n].unread == 0
  }

  /** With some entry of another kind before, `b` has none left, or the move reports it and left it as it was. */
  ghost predicate MovedOrReported(a: Rec, b: Rec, reported: bool, target: Kind) {
    && (reported ==> b == a)
    && ((exists s :: s in a.entries && a.entries[s].wrap != target) ==>
          reported || forall s :: s in b.entries ==> b.entries[s].wrap == target)
  }

  lemma TakesOn<K>(st: Store, target: Kind, v0: Moment, v: Moment, a: map<K, Rec>, b: map<K, Rec>, owned: set<K>,
      failed: set<K>)
    requires Outcome(st, target, v0, v, a, b, owned, failed)
    ensures b.Keys == a.Keys
    ensures forall i :: i in a && i in owned ==> MovedOrReported(a[i], b[i], i in failed, target)
    ensures forall i :: i in a && i !in owned ==> b[i] == a[i] && i !in failed
  {
    hide KeptMeaning, KeptKeys, FrameOf, StuckIn, Swept, Store.Works, Untried, Lost;
  }

  lemma JobsTakeOn(st: Store, target: Kind, v0: Moment, v: Moment, a: map<JobName, Rec>, b: map<JobName, Rec>,
      failed: set<JobName>)
    requires Owned(a) && Outcome(st, target, v0, v, a, b, Movable(a), failed)
    ensures b.Keys == a.Keys
    ensures forall n :: n in a && a[n].key != NoKey && a[n].unread == 0 ==>
      MovedOrReported(a[n], b[n], n in failed, target)
    ensures forall n :: n in a && (a[n].key == NoKey || a[n].unread > 0) ==> b[n] == a[n] && n !in failed
  {
    hide Outcome, MovedOrReported;
    TakesOn(st, target, v0, v, a, b, Movable(a), failed);
  }

  lemma JobsApart(d: Disk)
    requires Sane(d)
    ensures Apart(d.jobs, Movable(d.jobs))
  {
  }

  lemma GrantsApart(d: Disk)
    requires Sane(d)
    ensures Apart(d.ledger, d.ledger.Keys)
  {
  }

  /** A file written with the copies that are ready: nothing means less, and no two records share a key. */
  lemma LedgerWritten(v: Moment, target: Kind, moving: map<Id, map<Slot, Sealed>>)
    requires v.Valid() && Ready(v.disk.keys, v.disk.ledger, target, moving)
    requires forall i :: i in moving ==> Pending(v.disk.ledger[i], target)
    ensures var m := Moved(v.disk.ledger, target, moving);
      Sane(v.disk.(ledger := m)) && Written(v, v.Then(WriteLedger(m)))
  {
    hide Pending, Resealed, Made, Moment.Lawful, Moved;
    MovedFacts(v.disk.keys, v.disk.ledger, target, moving);
    WriteIsWritten(v, WriteLedger(Moved(v.disk.ledger, target, moving)));
  }

  lemma JobsWritten(v: Moment, target: Kind, moving: map<JobName, map<Slot, Sealed>>)
    requires v.Valid() && Ready(v.disk.keys, v.disk.jobs, target, moving)
    requires forall i :: i in moving ==> Pending(v.disk.jobs[i], target)
    ensures var m := Moved(v.disk.jobs, target, moving);
      Sane(v.disk.(jobs := m)) && Written(v, v.Then(WriteJobs(m)))
  {
    hide Pending, Resealed, Made, Moment.Lawful, Moved;
    MovedFacts(v.disk.keys, v.disk.jobs, target, moving);
    WriteIsWritten(v, WriteJobs(Moved(v.disk.jobs, target, moving)));
  }

  lemma WriteIsWritten(v: Moment, b: BootStep)
    requires v.Valid() && (b.WriteLedger? || b.WriteJobs?) && Legal(v.disk, b)
    ensures Sane(Apply(v.disk, b)) && Written(v, v.Then(b))
  {
    hide Sane, Resealed, Made, Moment.Lawful;
    StepSane(v.disk, b);
    ThenLawful(v, b);
  }

  class Server {
    const world: World
    const target: Kind
    /** The loaded grants and jobs. */
    var standing: map<Id, Rec>
    var jobs: map<JobName, Rec>

    ghost predicate Valid()
      reads this, world
    {
      world.Valid() && standing == world.disk.ledger && jobs == world.disk.jobs
    }

    constructor (world: World, target: Kind)
      requires world.Valid()
      ensures Valid() && this.world == world && this.target == target
    {
      this.world, this.target := world, target;
      standing, jobs := world.disk.ledger, world.disk.jobs;
    }

    /** Grants with nothing to move: a spare key of the other kind is asked to go. */
    method DropLeftovers(ids: set<Id>)
      requires Valid() && ids <= standing.Keys && forall i :: i in ids ==> !Pending(standing[i], target)
      modifies world
      ensures Valid() && UpTo(world.store, target, old(world.Now()), world.Now(), standing, ids, map[])
    {
      hide UpTo, LeftBehind, Pending, Sane, Alone;
      ghost var v0 := world.Now();
      UpToNone(world.store, target, v0, standing);
      var todo := ids;
      assert ids - todo == {};
      while todo != {}
        invariant todo <= ids && Valid()
        invariant UpTo(world.store, target, v0, world.Now(), standing, ids - todo, map[])
      {
        var i :| i in todo;
        ghost var v1 := world.Now();
        GrantAlone(world.disk, i);
        DeleteOthers(world, standing[i], target);
        LeftSame(v1, world.Now(), standing[i], target);
        TakeSettled(world.store, target, v0, v1, world.Now(), standing, ids - todo, map[], i);
        assert ids - (todo - {i}) == (ids - todo) + {i};
        todo := todo - {i};
      }
      assert ids - todo == ids;
    }

    /** New copies for each grant in `ids`, but for those that fail. */
    method ResealGrants(ids: set<Id>, ghost v0: Moment, ghost done: set<Id>)
      returns (moving: map<Id, map<Slot, Sealed>>)
      requires Valid() && ids == PendingIn(standing, standing.Keys, target) && done == standing.Keys - ids
      requires UpTo(world.store, target, v0, world.Now(), standing, done, map[])
      modifies world
      ensures Valid() && UpTo(world.store, target, v0, world.Now(), standing, standing.Keys, moving)
    {
      hide UpTo, ResealedAs, Pending, Sane, Alone;
      moving := map[];
      var todo := ids;
      assert done + (ids - todo) == done;
      while todo != {}
        invariant todo <= ids && Valid()
        invariant UpTo(world.store, target, v0, world.Now(), standing, done + (ids - todo), moving)
      {
        var i :| i in todo;
        ghost var v1 := world.Now();
        GrantAlone(world.disk, i);
        OwnIds(world.disk);
        var out := Reseal(world, standing[i], target);
        ResealedSame(world.store, v1, world.Now(), standing[i], target, out);
        TakePending(world.store, target, v0, v1, world.Now(), standing, done + (ids - todo), moving, i, out);
        assert done + (ids - (todo - {i})) == done + (ids - todo) + {i};
        if out.Some? {
          moving := moving[i := out.value];
        }
        todo := todo - {i};
      }
      assert done + (ids - todo) == standing.Keys;
    }

    method FileInMemory(moving: map<Id, map<Slot, Sealed>>)
      requires forall i :: i in moving ==> i in standing && standing[i].entries.Keys <= moving[i].Keys
      modifies this`standing
      ensures standing == Moved(old(standing), target, moving)
    {
      var before := standing;
      var todo := moving.Keys;
      while todo != {}
        invariant todo <= moving.Keys
        invariant standing == map i | i in before ::
          if i in moving.Keys - todo then MovedRec(before[i], target, moving[i]) else before[i]
      {
        var i :| i in todo;
        standing := standing[i := MovedRec(before[i], target, moving[i])];
        todo := todo - {i};
      }
    }

    /** The new copies go into memory and then, in one write, into the file. Should the write fail, memory is
        what it was. */
    method CommitGrants(moving: map<Id, map<Slot, Sealed>>) returns (ok: bool)
      requires Valid() && Ready(world.disk.keys, standing, target, moving)
      requires forall i :: i in moving ==> Pending(standing[i], target)
      modifies this`standing, world
      ensures Valid() && (world.store.steady ==> ok)
      ensures standing == if ok then Moved(old(standing), target, moving) else old(standing)
      ensures if ok then Written(old(world.Now()), world.Now()) else world.Now() == old(world.Now())
    {
      hide Pending, Sane, Moved, ResealedSoFar, Written;
      LedgerWritten(world.Now(), target, moving);
      var before := standing;
      FileInMemory(moving);
      ok := world.SaveLedger(standing);
      if !ok {
        standing := before;
      }
    }

    /** Every standing grant to the target kind: the copies first, then one write, the old keys last. */
    method MoveStandingKeys() returns (moved: nat, failed: set<Id>)
      requires Valid()
      modifies this`standing, world
      // Memory is the file again.
      ensures Valid() && world.disk.jobs == old(world.disk).jobs
      ensures Outcome(world.store, target, old(world.Now()), world.Now(), old(standing), standing,
          old(standing).Keys, failed)
      ensures Effect(old(world.Now()), world.Now(), KeysAmong(old(standing), old(standing).Keys),
          Spared(old(world.disk).keys, old(standing), Risky(world.store, failed), target))
      ensures moved == |PendingIn(old(standing), old(standing).Keys, target) - failed|
      // Every grant is taken on.
      ensures standing.Keys == old(standing).Keys
      ensures forall i :: i in standing ==> MovedOrReported(old(standing)[i], standing[i], i in failed, target)
    {
      hide Pending, Sane, UpTo, Outcome, Effect, Apart, Moved, Ready, Spared, MovedOrReported;
      GrantsApart(world.disk);
      ghost var v0, a := world.Now(), standing;
      var pending := PendingIn(standing, standing.Keys, target);
      DropLeftovers(standing.Keys - pending);
      var moving := ResealGrants(pending, v0, standing.Keys - pending);
      UpToFacts(world.store, target, v0, world.Now(), a, a.Keys, moving);
      if moving == map[] {
        MoveNone(world.store, target, v0, world.Now(), a, a.Keys, moving);
        TakesOn(world.store, target, v0, world.Now(), a, standing, a.Keys, pending);
        assert pending - pending == {};
        return 0, pending;
      }
      ghost var v1 := world.Now();
      var ok := CommitGrants(moving);
      if !ok {
        MoveNone(world.store, target, v0, world.Now(), a, a.Keys, moving);
        TakesOn(world.store, target, v0, world.Now(), a, standing, a.Keys, pending);
        assert pending - pending == {};
        return 0, pending;
      }
      ghost var v2 := world.Now();
      MovedFacts(v1.disk.keys, a, target, moving);
      DropLeftovers(moving.Keys);
      MoveDone(world.store, target, v0, v1, v2, world.Now(), a, standing, a.Keys, moving);
      TakesOn(world.store, target, v0, world.Now(), a, standing, a.Keys, pending - moving.Keys);
      assert pending - (pending - moving.Keys) == moving.Keys;
      moved, failed := |moving|, pending - moving.Keys;
    }

    /** Takes on each job with a key of its own that this build reads in full, as a grant is taken on. */
    method ResealJobs() returns (moving: map<JobName, map<Slot, Sealed>>)
      requires Valid()
      modifies world
      ensures Valid()
      ensures UpTo(world.store, target, old(world.Now()), world.Now(), jobs, Movable(jobs), moving)
    {
      hide UpTo, Pending, Sane, Alone, LeftBehind, ResealedAs;
      ghost var v0 := world.Now();
      moving := map[];
      UpToNone(world.store, target, v0, jobs);
      var todo := jobs.Keys;
      assert Movable(jobs) - todo == {};
      while todo != {}
        invariant todo <= jobs.Keys && Valid()
        invariant UpTo(world.store, target, v0, world.Now(), jobs, Movable(jobs) - todo, moving)
      {
        var n :| n in todo;
        ghost var done := Movable(jobs) - todo;
        if jobs[n].key.JobId? && jobs[n].unread == 0 {
          moving := TakeOn(n, moving, v0, done);
          assert Movable(jobs) - (todo - {n}) == done + {n};
        } else {
          assert Movable(jobs) - (todo - {n}) == done;
        }
        todo := todo - {n};
      }
      assert Movable(jobs) - todo == Movable(jobs);
    }

    method TakeOn(n: JobName, moving: map<JobName, map<Slot, Sealed>>, ghost v0: Moment, ghost done: set<JobName>)
      returns (next: map<JobName, map<Slot, Sealed>>)
      requires Valid() && n in Movable(jobs) && n !in done && done <= Movable(jobs)
      requires UpTo(world.store, target, v0, world.Now(), jobs, done, moving)
      modifies world
      ensures Valid() && UpTo(world.store, target, v0, world.Now(), jobs, done + {n}, next)
    {
      hide UpTo, Pending, Sane, Alone, LeftBehind, ResealedAs;
      ghost var v1 := world.Now();
      JobAlone(world.disk, n);
      JobsApart(world.disk);
      UpToFacts(world.store, target, v0, v1, jobs, done, moving);
      next := moving;
      if Pending(jobs[n], target) {
        var out := Reseal(world, jobs[n], target);
        ResealedSame(world.store, v1, world.Now(), jobs[n], target, out);
        TakePending(world.store, target, v0, v1, world.Now(), jobs, done, moving, n, out);
        if out.Some? {
          next := next[n := out.value];
        }
      } else {
        DeleteOthers(world, jobs[n], target);
        LeftSame(v1, world.Now(), jobs[n], target);
        TakeSettled(world.store, target, v0, v1, world.Now(), jobs, done, moving, n);
      }
    }

    method FileJobsInMemory(moving: map<JobName, map<Slot, Sealed>>)
      requires forall n :: n in moving ==> n in jobs && jobs[n].entries.Keys <= moving[n].Keys
      modifies this`jobs
      ensures jobs == Moved(old(jobs), target, moving)
    {
      var before := jobs;
      var todo := moving.Keys;
      while todo != {}
        invariant todo <= moving.Keys
        invariant jobs == map n | n in before ::
          if n in moving.Keys - todo then MovedRec(before[n], target, moving[n]) else before[n]
      {
        var n :| n in todo;
        jobs := jobs[n := MovedRec(before[n], target, moving[n])];
        todo := todo - {n};
      }
    }

    /** The jobs' write, and the way back when it fails. */
    method CommitJobs(moving: map<JobName, map<Slot, Sealed>>) returns (ok: bool)
      requires Valid() && Ready(world.disk.keys, jobs, target, moving)
      requires forall n :: n in moving ==> Pending(jobs[n], target)
      modifies this`jobs, world
      ensures Valid() && (world.store.steady ==> ok)
      ensures jobs == if ok then Moved(old(jobs), target, moving) else old(jobs)
      ensures if ok then Written(old(world.Now()), world.Now()) else world.Now() == old(world.Now())
    {
      hide Pending, Sane, Moved, ResealedSoFar, Written;
      JobsWritten(world.Now(), target, moving);
      var before := jobs;
      FileJobsInMemory(moving);
      ok := world.SaveJobs(jobs);
      if !ok {
        jobs := before;
      }
    }

    method DropJobLeftovers(names: set<JobName>)
      requires Valid() && names <= Movable(jobs) && forall n :: n in names ==> !Pending(jobs[n], target)
      modifies world
      ensures Valid() && UpTo(world.store, target, old(world.Now()), world.Now(), jobs, names, map[])
    {
      hide UpTo, LeftBehind, Pending, Sane, Alone;
      ghost var v0 := world.Now();
      UpToNone(world.store, target, v0, jobs);
      var todo := names;
      assert names - todo == {};
      while todo != {}
        invariant todo <= names && Valid()
        invariant UpTo(world.store, target, v0, world.Now(), jobs, names - todo, map[])
      {
        var n :| n in todo;
        ghost var v1 := world.Now();
        JobAlone(world.disk, n);
        DeleteOthers(world, jobs[n], target);
        LeftSame(v1, world.Now(), jobs[n], target);
        TakeSettled(world.store, target, v0, v1, world.Now(), jobs, names - todo, map[], n);
        assert names - (todo - {n}) == (names - todo) + {n};
        todo := todo - {n};
      }
      assert names - todo == names;
    }

    /** Every never-ask job to the target kind, in the same order. One with entries this build cannot read is
        not touched. */
    method MoveJobKeys() returns (moved: nat, failed: set<JobName>)
      requires Valid()
      modifies this`jobs, world
      ensures Valid() && world.disk.ledger == old(world.disk).ledger
      ensures Outcome(world.store, target, old(world.Now()), world.Now(), old(jobs), jobs, Movable(old(jobs)), failed)
      ensures Effect(old(world.Now()), world.Now(), KeysAmong(old(jobs), Movable(old(jobs))),
          Spared(old(world.disk).keys, old(jobs), Risky(world.store, failed), target))
      ensures moved == |PendingIn(old(jobs), Movable(old(jobs)), target) - failed|
      // Every job with a key of its own that this build reads in full is taken on, and no other.
      ensures jobs.Keys == old(jobs).Keys
      ensures forall n :: n in jobs && old(jobs)[n].key != NoKey && old(jobs)[n].unread == 0 ==>
        MovedOrReported(old(jobs)[n], jobs[n], n in failed, target)
      ensures forall n :: n in jobs && (old(jobs)[n].key == NoKey || old(jobs)[n].unread > 0) ==>
        jobs[n] == old(jobs)[n] && n !in failed
    {
      hide Pending, Sane, UpTo, Outcome, Effect, Apart, Moved, Ready, Spared, MovedOrReported, Owned;
      JobsApart(world.disk);
      JobsOwned(world.disk);
      ghost var v0, a := world.Now(), jobs;
      var pending := PendingIn(jobs, Movable(jobs), target);
      var moving := ResealJobs();
      UpToFacts(world.store, target, v0, world.Now(), a, Movable(a), moving);
      if moving == map[] {
        MoveNone(world.store, target, v0, world.Now(), a, Movable(a), moving);
        JobsTakeOn(world.store, target, v0, world.Now(), a, jobs, pending);
        assert pending - pending == {};
        return 0, pending;
      }
      ghost var v1 := world.Now();
      var ok := CommitJobs(moving);
      if !ok {
        MoveNone(world.store, target, v0, world.Now(), a, Movable(a), moving);
        JobsTakeOn(world.store, target, v0, world.Now(), a, jobs, pending);
        assert pending - pending == {};
        return 0, pending;
      }
      ghost var v2 := world.Now();
      MovedFacts(v1.disk.keys, a, target, moving);
      DropJobLeftovers(moving.Keys);
      MoveDone(world.store, target, v0, v1, v2, world.Now(), a, jobs, Movable(a), moving);
      JobsTakeOn(world.store, target, v0, world.Now(), a, jobs, pending - moving.Keys);
      assert pending - (pending - moving.Keys) == moving.Keys;
      moved, failed := |moving|, pending - moving.Keys;
    }

    /** The whole move: the grants, then the jobs. */
    method MoveGrantKeys() returns (moved: nat, failedGrants: set<Id>, failedJobs: set<JobName>)
      requires Valid()
      modifies this, world
      ensures Valid()
      ensures WholeMove(world.store, target, old(world.Now()), world.Now(), moved, failedGrants, failedJobs)
    {
      hide Pending, Sane, Outcome, Effect, Spared, WholeMove;
      ghost var v0 := world.Now();
      var grants: nat, others: nat;
      grants, failedGrants := MoveStandingKeys();
      ghost var v1 := world.Now();
      others, failedJobs := MoveJobKeys();
      moved := grants + others;
      MovesJoin(world.store, target, v0, v1, world.Now(), grants, failedGrants, others, failedJobs);
    }
  }

  /** What the two moves leave together, each file's outcome being what it would have been alone. */
  ghost predicate WholeMove(st: Store, target: Kind, v0: Moment, v: Moment, moved: nat, failedGrants: set<Id>,
      failedJobs: set<JobName>) {
    var a, b, spared := v0.disk, v.disk, SparedBoth(st, target, v0.disk, failedGrants, failedJobs);
    && Outcome(st, target, v0, v, a.ledger, b.ledger, a.ledger.Keys, failedGrants)
    && Outcome(st, target, v0, v, a.jobs, b.jobs, Movable(a.jobs), failedJobs)
    && moved == |PendingIn(a.ledger, a.ledger.Keys, target) - failedGrants|
        + |PendingIn(a.jobs, Movable(a.jobs), target) - failedJobs|
    && Effect(v0, v, OwnKeys(a), spared)
    && (spared ==> Meaning(a, b))
  }

  /** No record that failed has an entry that opens with a target key, or no load is ever refused. */
  ghost predicate SparedBoth(st: Store, target: Kind, d: Disk, failedGrants: set<Id>, failedJobs: set<JobName>) {
    && Spared(d.keys, d.ledger, Risky(st, failedGrants), target)
    && Spared(d.keys, d.jobs, Risky(st, failedJobs), target)
  }

  /** Every id a record on disk has. */
  function OwnKeys(d: Disk): set<Id> {
    KeysAmong(d.ledger, d.ledger.Keys) + KeysAmong(d.jobs, Movable(d.jobs))
  }

  lemma KindsApart(d: Disk)
    requires Sane(d)
    ensures KeysAmong(d.ledger, d.ledger.Keys) !! KeysAmong(d.jobs, Movable(d.jobs))
    ensures KeysAmong(d.ledger, d.ledger.Keys) !! KeysAmong(d.jobs, d.jobs.Keys)
  {
  }

  lemma EffectUnder<K>(v0: Moment, v: Moment, ids: set<Id>, spared: bool, m: map<K, Rec>, target: Kind)
    requires Effect(v0, v, ids, spared) && ids !! KeysAmong(m, m.Keys)
    ensures SameUnder(m, v0.disk.keys, v.disk.keys) && SameUnder(m, v.disk.keys, v0.disk.keys)
    ensures Untried(v0.tries, m, target) ==> Untried(v.tries, m, target)
  {
    forall i | i in m ensures NewName(m[i], target).id !in ids {
      assert m[i].key in KeysAmong(m, m.Keys);
    }
  }

  lemma SparedShift<K>(m: map<K, Rec>, ids: set<K>, target: Kind, a: Keys, b: Keys)
    requires SameUnder(m, a, b)
    ensures Spared(a, m, ids, target) ==> Spared(b, m, ids, target)
  {
    hide SameUnder, OpensWith;
    forall i | i in ids && i in m && Spared(a, m, ids, target) ensures !OpensWith(b, m[i], NewName(m[i], target)) {
      OpensShift(m, a, b, i, m[i]);
    }
  }

  lemma EffectThen(v0: Moment, v1: Moment, v2: Moment, ids: set<Id>, more: set<Id>, s1: bool, s2: bool)
    requires Effect(v0, v1, ids, s1) && Effect(v1, v2, more, s2)
    ensures Effect(v0, v2, ids + more, s1 && s2)
  {
    hide Moment.Lawful, Made;
  }

  lemma EffectIf(v0: Moment, v: Moment, ids: set<Id>, s1: bool, s2: bool)
    requires Effect(v0, v, ids, s1) && (s2 ==> s1)
    ensures Effect(v0, v, ids, s2)
  {
  }

  lemma BothMeaning(st: Store, target: Kind, a: Disk, b: Disk, failedGrants: set<Id>, failedJobs: set<JobName>)
    requires KeptMeaning(st, target, a.keys, a.ledger, b.keys, b.ledger, failedGrants)
    requires KeptMeaning(st, target, a.keys, a.jobs, b.keys, b.jobs, failedJobs)
    requires SparedBoth(st, target, a, failedGrants, failedJobs)
    ensures Meaning(a, b)
  {
    hide RecMeaning, OpensWith, Store.Reliable;
  }

  lemma OutcomeMeaning<K>(st: Store, target: Kind, v0: Moment, v: Moment, a: map<K, Rec>, b: map<K, Rec>,
      owned: set<K>, failed: set<K>)
    requires Outcome(st, target, v0, v, a, b, owned, failed)
    ensures KeptMeaning(st, target, v0.disk.keys, a, v.disk.keys, b, failed)
  {
  }

  lemma MovesJoin(st: Store, target: Kind, v0: Moment, v1: Moment, v2: Moment, grants: nat, failedGrants: set<Id>,
      others: nat, failedJobs: set<JobName>)
    requires Sane(v0.disk) && v1.disk.jobs == v0.disk.jobs && v2.disk.ledger == v1.disk.ledger
    requires var a := v0.disk.ledger;
      && Outcome(st, target, v0, v1, a, v1.disk.ledger, a.Keys, failedGrants)
      && Effect(v0, v1, KeysAmong(a, a.Keys), Spared(v0.disk.keys, a, Risky(st, failedGrants), target))
      && grants == |PendingIn(a, a.Keys, target) - failedGrants|
    requires var a := v1.disk.jobs;
      && Outcome(st, target, v1, v2, a, v2.disk.jobs, Movable(a), failedJobs)
      && Effect(v1, v2, KeysAmong(a, Movable(a)), Spared(v1.disk.keys, a, Risky(st, failedJobs), target))
      && others == |PendingIn(a, Movable(a), target) - failedJobs|
    ensures WholeMove(st, target, v0, v2, grants + others, failedGrants, failedJobs)
  {
    hide Pending, Sane, Outcome, Effect, Spared, SameUnder, Untried, Movable, KeysAmong, PendingIn, KeptMeaning,
      Meaning;
    var a, jobs := v0.disk.ledger, v0.disk.jobs;
    KindsApart(v0.disk);
    var s1 := Spared(v0.disk.keys, a, Risky(st, failedGrants), target);
    var s2 := Spared(v1.disk.keys, jobs, Risky(st, failedJobs), target);
    EffectUnder(v0, v1, KeysAmong(a, a.Keys), s1, jobs, target);
    EffectUnder(v1, v2, KeysAmong(jobs, Movable(jobs)), s2, a, target);
    Itself(a, v0.disk.keys);
    Itself(jobs, v2.disk.keys);
    EffectAsked(v1, v2, KeysAmong(jobs, Movable(jobs)), s2);
    OutcomeShift(st, target, v0, v1, v0, v2, a, v1.disk.ledger, a.Keys, failedGrants);
    OutcomeShift(st, target, v1, v2, v0, v2, jobs, v2.disk.jobs, Movable(jobs), failedJobs);
    SparedShift(jobs, Risky(st, failedJobs), target, v0.disk.keys, v1.disk.keys);
    EffectThen(v0, v1, v2, KeysAmong(a, a.Keys), KeysAmong(jobs, Movable(jobs)), s1, s2);
    EffectIf(v0, v2, OwnKeys(v0.disk), s1 && s2, SparedBoth(st, target, v0.disk, failedGrants, failedJobs));
    OutcomeMeaning(st, target, v0, v2, a, v2.disk.ledger, a.Keys, failedGrants);
    OutcomeMeaning(st, target, v0, v2, jobs, v2.disk.jobs, Movable(jobs), failedJobs);
    if SparedBoth(st, target, v0.disk, failedGrants, failedJobs) {
      BothMeaning(st, target, v0.disk, v2.disk, failedGrants, failedJobs);
    }
  }

  lemma Itself<K>(m: map<K, Rec>, keys: Keys)
    ensures SameUnder(m, keys, keys)
  {
  }

  lemma EffectAsked(v0: Moment, v: Moment, ids: set<Id>, spared: bool)
    requires Effect(v0, v, ids, spared)
    ensures v0.asked <= v.asked
  {
  }

  /** Neither file is any different. */
  lemma LeftSame(v0: Moment, v: Moment, r: Rec, target: Kind)
    requires LeftBehind(v0, v, r, target)
    ensures SameFiles(v0.disk, v.disk)
  {
  }

  lemma ResealedSame(st: Store, v0: Moment, v: Moment, r: Rec, target: Kind, out: Option<map<Slot, Sealed>>)
    requires ResealedAs(st, v0, v, r, target, out)
    ensures SameFiles(v0.disk, v.disk)
  {
  }

  lemma JobsOwned(d: Disk)
    requires Sane(d)
    ensures Owned(d.jobs)
  {
  }

  lemma OwnIds(d: Disk)
    requires Sane(d)
    ensures forall i :: i in d.ledger ==> d.ledger[i].key == i
  {
  }

  lemma UpToFacts<K>(st: Store, target: Kind, v0: Moment, v: Moment, m: map<K, Rec>, done: set<K>,
      moving: map<K, map<Slot, Sealed>>)
    requires UpTo(st, target, v0, v, m, done, moving)
    ensures Ready(v.disk.keys, m, target, moving) && moving.Keys <= PendingIn(m, done, target)
    ensures SameFiles(v0.disk, v.disk)
    ensures forall i :: i in moving ==> i in m && Pending(m[i], target)
  {
  }
}
