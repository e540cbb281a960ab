/** What start-up works on: the key store and the two state files. Every call may fail, and each change
    that reaches them is logged. */
module GrantWorld {
  import opened GrantKeys
  import opened Wrappers

  // ---- what a disk means ----

  /** What a copy opened to in `a` it still opens to in `b`. */
  ghost predicate RecMeaning(ka: map<Name, KeyBytes>, a: Rec, kb: map<Name, KeyBytes>, b: Rec) {
    && b.key == a.key && b.unread == a.unread && b.entries.Keys == a.entries.Keys
    && forall s :: s in a.entries ==>
         && b.entries[s].cls == a.entries[s].cls
         && (Opens(ka, a, s).Some? ==> Opens(kb, b, s) == Opens(ka, a, s))
  }

  ghost predicate FileMeaning<K>(ka: map<Name, KeyBytes>, a: map<K, Rec>, kb: map<Name, KeyBytes>, b: map<K, Rec>) {
    a.Keys == b.Keys && forall i :: i in a ==> RecMeaning(ka, a[i], kb, b[i])
  }

  ghost predicate Meaning(a: Disk, b: Disk) {
    FileMeaning(a.keys, a.ledger, b.keys, b.ledger) && FileMeaning(a.keys, a.jobs, b.keys, b.jobs)
  }

  lemma MeaningTransitive(a: Disk, b: Disk, c: Disk)
    requires Meaning(a, b) && Meaning(b, c)
    ensures Meaning(a, c)
  {
  }

  lemma LegalMeaning(d: Disk, b: BootStep)
    requires Legal(d, b)
    ensures Meaning(d, Apply(d, b))
  {
  }

  /** No entry on disk opens with the key filed under `n`. */
  ghost predicate Idle(d: Disk, n: Name) {
    Unneeded(d.keys, d.ledger, n) && Unneeded(d.keys, d.jobs, n)
  }

  lemma NeededLoses<K>(keys: map<Name, KeyBytes>, m: map<K, Rec>, n: Name, kb: map<Name, KeyBytes>)
    requires !Unneeded(keys, m, n) && n !in kb
    ensures !FileMeaning(keys, m, kb, m)
  {
    var i :| i in m && OpensWith(keys, m[i], n);
    var s :| s in m[i].entries && m[i].entries[s].wrap == n.kind && Opens(keys, m[i], s).Some?;
    assert Opens(kb, m[i], s).None?;
    assert !RecMeaning(keys, m[i], kb, m[i]);
  }

  /** Dropping a key costs no record its meaning exactly when no entry on disk opens with it. */
  lemma DropKeepsMeaningIff(d: Disk, n: Name)
    ensures Meaning(d, Apply(d, DropKey(n))) <==> Idle(d, n)
  {
    if Idle(d, n) {
      LegalMeaning(d, DropKey(n));
    } else if !Unneeded(d.keys, d.ledger, n) {
      NeededLoses(d.keys, d.ledger, n, d.keys - {n});
    } else {
      NeededLoses(d.keys, d.jobs, n, d.keys - {n});
    }
  }

  ghost predicate Older<K>(m: map<K, Rec>, serial: nat) {
    forall i, s :: i in m && s in m[i].entries ==> m[i].entries[s].copy.under.serial < serial
  }

  /** Keys are made fresh, and no two records share one. */
  ghost predicate Sane(d: Disk) {
    && (forall n :: n in d.keys ==> d.keys[n].serial < d.serial)
    && Older(d.ledger, d.serial) && Older(d.jobs, d.serial)
    && Named(d.ledger) && Owned(d.jobs)
  }

  ghost predicate Named(ledger: map<Id, Rec>) {
    forall i :: i in ledger ==> ledger[i].key == i && i.GrantId?
  }

  ghost predicate Owned(jobs: map<JobName, Rec>) {
    && (forall i :: i in jobs ==> jobs[i].key == NoKey || jobs[i].key.JobId?)
    && (forall i, j :: i in jobs && j in jobs && i != j && jobs[i].key.JobId? ==> jobs[i].key != jobs[j].key)
  }

  lemma ResealedOlder<K>(keys: map<Name, KeyBytes>, serial: nat, a: map<K, Rec>, b: map<K, Rec>)
    requires (forall n :: n in keys ==> keys[n].serial < serial) && Older(a, serial) && Resealed(keys, a, b)
    ensures Older(b, serial)
  {
    forall i, s | i in b && s in b[i].entries ensures b[i].entries[s].copy.under.serial < serial {
      if b[i].entries[s] != a[i].entries[s] {
        assert Opens(keys, b[i], s).Some?;
      }
    }
  }

  lemma StepSane(d: Disk, b: BootStep)
    requires Sane(d) && (Legal(d, b) || b.DropKey?)
    ensures Sane(Apply(d, b))
  {
    match b
    case AddKey(n) =>
    case DropKey(n) =>
    case WriteLedger(m) => ResealedOlder(d.keys, d.serial, d.ledger, m);
    case WriteJobs(m) => ResealedOlder(d.keys, d.serial, d.jobs, m);
  }

  /** A key made just now opens nothing yet. */
  lemma FreshIsIdle(d: Disk, n: Name)
    requires Sane(d) && n !in d.keys
    ensures Idle(Apply(d, AddKey(n)), n)
  {
  }

  // ---- how far start-up has come ----

  /** One moment of start-up: where it began, every change since, the keys whose deletion was asked for,
      done or not, and how often each key was asked to load. */
  datatype Moment = Moment(start: Disk, disk: Disk, log: seq<BootStep>, asked: set<Name>, tries: map<Name, nat>) {
    ghost predicate Valid() {
      Replay(start, log) == disk && Sane(disk)
    }

    /** Every change so far was one the protocol has. */
    ghost predicate Lawful() {
      AllLegal(start, log)
    }

    function Then(b: BootStep): Moment {
      this.(disk := Apply(disk, b), log := log + [b])
    }
  }

  ghost predicate Later(v: Moment, w: Moment) {
    w.start == v.start && v.log <= w.log && v.asked <= w.asked
  }

  ghost predicate SameFiles(a: Disk, b: Disk) {
    b.ledger == a.ledger && b.jobs == a.jobs
  }

  lemma ThenLawful(v: Moment, b: BootStep)
    requires v.Valid()
    ensures Replay(v.start, v.Then(b).log) == v.Then(b).disk
    ensures v.Then(b).Lawful() <==> v.Lawful() && Legal(v.disk, b)
    ensures Made(v.Then(b).log) == Made(v.log) + if b.AddKey? then {b.name.id} else {}
  {
    assert (v.log + [b])[..|v.log + [b]| - 1] == v.log;
    MadeMore(v.log, b);
  }

  lemma MadeMore(log: seq<BootStep>, b: BootStep)
    ensures Made(log + [b]) == Made(log) + if b.AddKey? then {b.name.id} else {}
  {
    var more := log + [b];
    forall id ensures id in Made(more) <==> id in Made(log) || (b.AddKey? && id == b.name.id) {
      if id in Made(log) {
        var k :| 0 <= k < |log| && log[k].AddKey? && log[k].name.id == id;
        assert more[k] == log[k];
      }
      if b.AddKey? && id == b.name.id {
        assert more[|log|] == b;
      }
    }
  }

  /** Lawful changes lose no record its meaning. */
  lemma {:induction false} LawfulMeaning(v: Moment, w: Moment)
    requires v.Valid() && Replay(w.start, w.log) == w.disk && Later(v, w) && w.Lawful()
    ensures v.Lawful() && Meaning(v.disk, w.disk)
    decreases |w.log|
  {
    if |v.log| == |w.log| {
      assert v.log == w.log;
    } else {
      var front, b := w.log[..|w.log| - 1], w.log[|w.log| - 1];
      var u := w.(log := front, disk := Replay(w.start, front));
      LawfulMeaning(v, u);
      LegalMeaning(u.disk, b);
      MeaningTransitive(v.disk, u.disk, w.disk);
    }
  }

  /** How often a key was asked to load. */
  function Count(tries: map<Name, nat>, n: Name): nat {
    if n in tries then tries[n] else 0
  }

  /** How the store behaves: whether a key that is there is refused the k-th time it is asked to load,
      whether the enclave is in reach of this build, and whether every other call succeeds. */
  datatype Store = Store(refuses: (Name, nat) -> bool, reach: bool, steady: bool) {
    ghost predicate Reliable() {
      forall n, k :: !refuses(n, k)
    }

    ghost predicate Works() {
      Reliable() && reach && steady
    }

    predicate Reaches(n: Name) {
      n.kind == Keychain || reach
    }
  }

  class World {
    const store: Store
    var disk: Disk
    var tries: map<Name, nat>
    ghost const start: Disk
    ghost var log: seq<BootStep>
    ghost var asked: set<Name>

    ghost function Now(): Moment
      reads this
    {
      Moment(start, disk, log, asked, tries)
    }

    ghost predicate Valid()
      reads this
    {
      Now().Valid()
    }

    constructor (d: Disk, store: Store)
      requires Sane(d)
      ensures Valid() && this.store == store && Now() == Moment(d, d, [], {}, map[]) && Now().Lawful()
    {
      disk, start, log, asked, tries := d, d, [], {}, map[];
      this.store := store;
    }

    /** Whether a call fails, for reasons of its own. */
    method Fails() returns (fails: bool)
      ensures store.steady ==> !fails
    {
      fails := *;
      fails := fails && !store.steady;
    }

    /** The key's bytes, or nothing: it may be absent, or refuse to be read just now. */
    method LoadWrap(n: Name) returns (key: Option<KeyBytes>)
      requires Valid()
      modifies this`tries
      ensures Now() == old(Now()).(tries := old(tries)[n := Count(old(tries), n) + 1])
      ensures key == if n in disk.keys && !store.refuses(n, Count(old(tries), n)) then Some(disk.keys[n]) else None
    {
      var refused := store.refuses(n, Count(tries, n));
      tries := tries[n := Count(tries, n) + 1];
      key := if n in disk.keys && !refused then Some(disk.keys[n]) else None;
    }

    /** A key already there is loaded, and may be refused; one that is not is made. */
    method CreateWrap(n: Name) returns (key: Option<KeyBytes>)
      requires Valid()
      modifies this
      ensures Valid() && (forall m :: m != n ==> Count(tries, m) == Count(old(tries), m))
      ensures n !in old(disk).keys && key.Some? ==> Now() == old(Now()).Then(AddKey(n))
      ensures n in old(disk).keys || key.None? ==> Now() == old(Now()).(tries := tries)
      ensures key.Some? ==> n in disk.keys && key.value == disk.keys[n]
      ensures n in old(disk).keys && store.refuses(n, Count(old(tries), n)) ==> key.None?
      ensures store.steady && (n in old(disk).keys ==> !store.refuses(n, Count(old(tries), n))) ==> key.Some?
    {
      var fails := Fails();
      if fails {
        return None;
      }
      if n in disk.keys {
        key := LoadWrap(n);
      } else {
        StepSane(disk, AddKey(n));
        ThenLawful(Now(), AddKey(n));
        log := log + [AddKey(n)];
        disk := Apply(disk, AddKey(n));
        key := Some(disk.keys[n]);
      }
    }

    /** Deletes one kind of key. An enclave out of reach is no failure, and no deletion either. */
    method DeleteWrap(n: Name) returns (ok: bool)
      requires Valid()
      modifies this`disk, this`log, this`asked
      ensures Valid() && (store.steady ==> ok)
      ensures var was := old(Now()).(asked := old(asked) + {n});
        if ok then Now() == if store.Reaches(n) then was.Then(DropKey(n)) else was
        else store.Reaches(n) && (Now() == was || Now() == was.Then(DropKey(n)))
    {
      asked := asked + {n};
      if !store.Reaches(n) {
        return true;
      }
      // The key may be gone though the call reports a failure.
      var fails := Fails();
      var reached := true;
      if fails {
        reached := *;
      }
      ok := !fails;
      if reached {
        StepSane(disk, DropKey(n));
        ThenLawful(Now(), DropKey(n));
        log := log + [DropKey(n)];
        disk := Apply(disk, DropKey(n));
      }
    }

    method SaveLedger(m: map<Id, Rec>) returns (ok: bool)
      requires Valid() && Sane(disk.(ledger := m))
      modifies this`disk, this`log
      ensures Valid() && (store.steady ==> ok)
      ensures Now() == if ok then old(Now()).Then(WriteLedger(m)) else old(Now())
    {
      var fails := Fails();
      ok := !fails;
      if ok {
        ThenLawful(Now(), WriteLedger(m));
        log := log + [WriteLedger(m)];
        disk := Apply(disk, WriteLedger(m));
      }
    }

    method SaveJobs(m: map<JobName, Rec>) returns (ok: bool)
      requires Valid() && Sane(disk.(jobs := m))
      modifies this`disk, this`log
      ensures Valid() && (store.steady ==> ok)
      ensures Now() == if ok then old(Now()).Then(WriteJobs(m)) else old(Now())
    {
      var fails := Fails();
      ok := !fails;
      if ok {
        ThenLawful(Now(), WriteJobs(m));
        log := log + [WriteJobs(m)];
        disk := Apply(disk, WriteJobs(m));
      }
    }

    /** Every id with a key of a kind within reach, unless the listing fails. */
    method ListKeyIds() returns (ids: Option<set<Id>>)
      requires Valid()
      ensures ids.Some? ==> ids.value == set n | n in disk.keys && store.Reaches(n) :: n.id
      ensures store.steady ==> ids.Some?
    {
      ids := None;
      var refused := Fails();
      if !refused {
        ids := Some(set n | n in disk.keys && store.Reaches(n) :: n.id);
      }
    }
  }
}
