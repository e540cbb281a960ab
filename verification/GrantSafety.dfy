/** What every run of the protocol keeps, crashes and failures included. */
module GrantSafety {
  import opened GrantKeys
  import opened Wrappers
  import opened GrantProtocol

  // ---- one record ----

  /** `r` has an entry for each approved secret and no other. */
  ghost predicate Complete(approved: Approved, r: Rec) {
    if r.key == NoKey then r.entries == map[]
    else r.key in approved && r.entries.Keys == approved[r.key].Keys
  }

  /** `r` holds a true copy of everything that was approved, under a key made for it. */
  ghost predicate Sound(approved: Approved, r: Rec) {
    && Uniform(r) && Complete(approved, r)
    && forall s :: s in r.entries ==>
         var e := r.entries[s];
         && r.key in approved && s in approved[r.key] && e.copy.dek == approved[r.key][s]
         && e.copy.cls == e.cls
         && e.copy.under.owner == r.key && e.copy.under.kind == e.wrap
  }

  /** The key each entry of `r` is sealed under is still in the store. */
  ghost predicate Kept(keys: map<Name, KeyBytes>, r: Rec) {
    forall s :: s in r.entries ==>
      var n := Name(r.key, r.entries[s].wrap);
      n in keys && keys[n] == r.entries[s].copy.under
  }

  /** No key an entry of `r` is sealed under has left the store without being destroyed. */
  ghost predicate Balanced(keys: map<Name, KeyBytes>, shredded: set<KeyBytes>, r: Rec) {
    forall s :: s in r.entries && r.entries[s].copy.under !in shredded ==>
      var n := Name(r.key, r.entries[s].wrap);
      n in keys && keys[n] == r.entries[s].copy.under
  }

  ghost predicate Shut(shredded: set<KeyBytes>, r: Rec) {
    forall s :: s in r.entries ==> r.entries[s].copy.under in shredded
  }

  // ---- a file, a snapshot or memory ----

  ghost predicate AllSound<K>(approved: Approved, m: map<K, Rec>) {
    forall i :: i in m ==> Sound(approved, m[i])
  }

  ghost predicate AllKept<K>(keys: map<Name, KeyBytes>, ended: set<Id>, m: map<K, Rec>) {
    forall i :: i in m && m[i].key !in ended ==> Kept(keys, m[i])
  }

  ghost predicate AllBalanced<K>(keys: map<Name, KeyBytes>, shredded: set<KeyBytes>, m: map<K, Rec>) {
    forall i :: i in m ==> Balanced(keys, shredded, m[i])
  }

  ghost predicate AllShut<K>(destroyed: set<Id>, shredded: set<KeyBytes>, m: map<K, Rec>) {
    forall i :: i in m && m[i].key in destroyed ==> Shut(shredded, m[i])
  }

  ghost predicate Keyed(ids: set<Id>, m: map<Id, Rec>) {
    forall i :: i in m ==> m[i].key == i && i in ids
  }

  ghost predicate Lacks(erased: set<Id>, m: map<Id, Rec>) {
    forall i :: i in erased ==> i !in m
  }

  ghost predicate Agree(a: map<Id, Rec>, b: map<Id, Rec>) {
    forall i :: i in a && i in b ==> a[i] == b[i]
  }

  // ---- the state ----

  ghost predicate KeysOk(keys: map<Name, KeyBytes>, serial: nat, shredded: set<KeyBytes>) {
    && (forall n :: n in keys ==>
         && keys[n].owner == n.id && keys[n].kind == n.kind && keys[n].serial < serial && keys[n] !in shredded)
    && (forall b :: b in shredded ==> b.serial < serial)
  }

  ghost predicate IdsOk(keys: map<Name, KeyBytes>, h: Hist) {
    && (forall i :: i in h.grantIds ==> i.GrantId?) && (forall i :: i in h.jobIds ==> i.JobId?)
    && (forall n :: n in keys ==> n.id in Ids(h))
    && h.approved.Keys <= Ids(h) && h.ended <= Ids(h)
    && h.erased <= h.ended && h.destroyed <= h.ended && h.destroyed <= h.grantIds
  }

  ghost predicate GrantsOk(keys: map<Name, KeyBytes>, h: Hist, m: map<Id, Rec>) {
    && Keyed(h.grantIds, m)
    && AllSound(h.approved, m)
    && AllKept(keys, h.ended, m)
    && AllBalanced(keys, h.shredded, m)
    && AllShut(h.destroyed, h.shredded, m)
  }

  ghost predicate CacheOk(phase: Phase, objs: map<Id, Rec>, dead: set<Id>, cached: map<Id, KeyBytes>,
      shredded: set<KeyBytes>) {
    && (phase != Serving ==> cached == map[])
    && (forall i :: i in cached ==> i in objs && i !in dead && cached[i].owner == i && cached[i] !in shredded)
  }

  ghost predicate ObjsOk(phase: Phase, objs: map<Id, Rec>, standing: set<Id>, dead: set<Id>, h: Hist) {
    && standing <= objs.Keys && dead <= objs.Keys && dead !! standing
    && (forall i :: i in objs && i !in standing ==> i in h.ended)
    && (phase == Boot ==> standing == objs.Keys)
    && (phase == Down ==> objs == map[])
    && (forall i :: i in h.erased && i in objs ==> i in dead)
  }

  ghost predicate CreateOk(keys: map<Name, KeyBytes>, h: Hist, objs: map<Id, Rec>, standing: set<Id>, dead: set<Id>,
      i: Id, c: CStage) {
    && i in h.grantIds
    && (c.Minted? ==> i !in objs && i !in h.ended && i !in h.approved)
    && (c.Ready? ==>
          && i !in objs && i !in h.ended && c.rec.key == i
          && Sound(h.approved, c.rec) && Kept(keys, c.rec)
          && c.key.owner == i && c.key !in h.shredded)
    && (c.Recording? || c.Failed? || c.Withdrawn? ==> i in objs)
    && (c.Withdrawn? || c.Gone? ==> i in h.ended && i !in standing)
    && (c.Gone? ==> i !in objs || i in dead)
  }

  ghost predicate CreatesOk(keys: map<Name, KeyBytes>, h: Hist, objs: map<Id, Rec>, standing: set<Id>, dead: set<Id>,
      creates: map<Id, CStage>) {
    forall i :: i in creates ==> CreateOk(keys, h, objs, standing, dead, i, creates[i])
  }

  ghost predicate RevokesOk(h: Hist, objs: map<Id, Rec>, standing: set<Id>, dead: set<Id>, revokes: map<Id, RStage>) {
    forall i :: i in revokes ==>
      && i in h.ended && i in objs && i !in standing
      && (revokes[i] != Begun ==> i in dead)
  }

  /** What a save holds under ledgerMu: memory as it was, no older than the file and no newer than now. */
  ghost predicate SnapshotOk(keys: map<Name, KeyBytes>, h: Hist, objs: map<Id, Rec>, log: seq<map<Id, Rec>>,
      written: int, saver: Saver)
  {
    saver.Saving? ==>
      && GrantsOk(keys, h, saver.snapshot)
      && Lacks(h.erased, saver.snapshot)
      && saver.snapshot.Keys <= objs.Keys && Agree(saver.snapshot, objs)
      && 0 <= written <= saver.version < |log| && saver.snapshot == log[saver.version]
  }

  ghost predicate OwnerOk(creates: map<Id, CStage>, revokes: map<Id, RStage>, saver: Saver) {
    saver.Saving? ==>
      && (saver.owner.ByCreate? ==> Has(creates, saver.owner.id, Recording))
      && (saver.owner.ByRevoke? ==> Has(revokes, saver.owner.id, Dropped) && saver.owner.id !in saver.snapshot)
  }

  ghost predicate LogOk(phase: Phase, ledgerOk: bool, ledger: map<Id, Rec>, mem: map<Id, Rec>, log: seq<map<Id, Rec>>,
      written: int) {
    phase != Down ==>
      && 0 <= written < |log| && log[|log| - 1] == mem
      && (ledgerOk ==> ledger == log[written])
  }

  /** A job's key is its own, and is not on its way out while the file names it. */
  ghost predicate JobKeysOk(h: Hist, m: map<JobName, Rec>) {
    && (forall i :: i in m && m[i].key != NoKey ==> m[i].key in h.jobIds && m[i].key !in h.ended)
    && (forall i, j :: i in m && j in m && i != j && m[i].key != NoKey ==> m[i].key != m[j].key)
  }

  ghost predicate JobFileOk(keys: map<Name, KeyBytes>, h: Hist, m: map<JobName, Rec>) {
    AllSound(h.approved, m) && AllKept(keys, {}, m) && JobKeysOk(h, m)
  }

  ghost predicate JobPlansOk(h: Hist, m: map<JobName, Rec>, jobMade: map<Id, Kind>, jobDrops: set<Id>) {
    && (forall i :: i in jobMade ==>
         && i in h.jobIds && i !in h.ended && i !in h.approved && forall n :: n in m ==> m[n].key != i)
    && (forall i :: i in jobDrops ==> i in h.jobIds && i in h.ended)
  }

  /** Nothing is under way before the service listens. */
  ghost predicate Quiet(p: Proc) {
    && (p.creates != map[] ==> p.ledgerOk)
    && (p.phase != Serving ==>
      p.creates == map[] && p.revokes == map[] && p.saver.Free? && p.jobMade == map[] && p.jobDrops == {}
          && p.dead == {})
  }

  ghost predicate Inv(s: State) {
    var p := s.proc;
    && KeysOk(s.disk.keys, s.disk.serial, s.hist.shredded)
    && IdsOk(s.disk.keys, s.hist)
    && GrantsOk(s.disk.keys, s.hist, s.disk.ledger) && Lacks(s.hist.erased, s.disk.ledger)
    && GrantsOk(s.disk.keys, s.hist, p.objs) && Agree(s.disk.ledger, p.objs)
    && CacheOk(p.phase, p.objs, p.dead, p.cached, s.hist.shredded)
    && ObjsOk(p.phase, p.objs, p.standing, p.dead, s.hist)
    && CreatesOk(s.disk.keys, s.hist, p.objs, p.standing, p.dead, p.creates)
    && RevokesOk(s.hist, p.objs, p.standing, p.dead, p.revokes)
    && SnapshotOk(s.disk.keys, s.hist, p.objs, p.log, p.written, p.saver)
    && OwnerOk(p.creates, p.revokes, p.saver)
    && LogOk(p.phase, p.ledgerOk, s.disk.ledger, Mem(p), p.log, p.written)
    && JobFileOk(s.disk.keys, s.hist, s.disk.jobs)
    && p.jobs == (if p.phase != Down && p.jobsOk then s.disk.jobs else map[])
    && JobPlansOk(s.hist, s.disk.jobs, p.jobMade, p.jobDrops)
    && Quiet(p)
    && (p.phase != Down && p.ledgerOk ==> s.disk.ledger.Keys <= p.objs.Keys)
    && (p.phase == Boot ==> p.objs == if p.ledgerOk then s.disk.ledger else map[])
  }

  // ---- one step ----

  lemma InitInv()
    ensures Inv(INIT)
  {
  }

  /** What a record needs of the world: nothing it rests on is gone in `t`. */
  ghost predicate Carries(s: State, t: State) {
    && s.hist.grantIds <= t.hist.grantIds
    && s.hist.ended <= t.hist.ended
    && s.hist.shredded <= t.hist.shredded
    && s.hist.destroyed == t.hist.destroyed
    && (forall i :: i in s.hist.approved ==> i in t.hist.approved && t.hist.approved[i] == s.hist.approved[i])
    && (forall n :: n in s.disk.keys ==>
          || (n in t.disk.keys && t.disk.keys[n] == s.disk.keys[n])
          || (n.id in t.hist.ended && s.disk.keys[n] in t.hist.shredded))
  }

  lemma CarryGrants(s: State, t: State, m: map<Id, Rec>)
    requires GrantsOk(s.disk.keys, s.hist, m) && Carries(s, t)
    ensures GrantsOk(t.disk.keys, t.hist, m)
  {
  }

  lemma CarryCreates(s: State, t: State)
    requires Carries(s, t) && t.proc == s.proc
    requires var p := s.proc; CreatesOk(s.disk.keys, s.hist, p.objs, p.standing, p.dead, p.creates)
    requires Pending(s.proc.creates, t.hist)
    ensures var p := t.proc; CreatesOk(t.disk.keys, t.hist, p.objs, p.standing, p.dead, p.creates)
  {
    forall i | i in s.proc.creates
      ensures CreateOk(t.disk.keys, t.hist, t.proc.objs, t.proc.standing, t.proc.dead, i, s.proc.creates[i])
    {
    }
  }

  /** No create in progress is ended, approved ahead of its seal, or left without its key. */
  ghost predicate Pending(creates: map<Id, CStage>, h: Hist) {
    forall i :: i in creates ==>
      && (creates[i].Minted? || creates[i].Ready? ==> i !in h.ended)
      && (creates[i].Minted? ==> i !in h.approved)
      && (creates[i].Ready? ==> creates[i].key !in h.shredded)
  }

  lemma CarryJobs(s: State, t: State, m: map<JobName, Rec>)
    requires JobFileOk(s.disk.keys, s.hist, m) && Carries(s, t)
    requires t.hist.jobIds == s.hist.jobIds && NoKey !in s.hist.approved
    requires forall n :: n in m && m[n].key != NoKey ==> m[n].key !in t.hist.ended
    ensures JobFileOk(t.disk.keys, t.hist, m)
  {
    assert AllSound(t.hist.approved, m);
    assert AllKept(t.disk.keys, {}, m);
  }

  /** A change to the world alone keeps the invariant when nothing a record, an approval in progress
      or the cache rests on goes with it. */
  lemma CarryInv(s: State, t: State)
    requires Inv(s) && Carries(s, t) && t.proc == s.proc
    requires t.disk.ledger == s.disk.ledger && t.disk.jobs == s.disk.jobs && t.hist.jobIds == s.hist.jobIds
    requires KeysOk(t.disk.keys, t.disk.serial, t.hist.shredded) && IdsOk(t.disk.keys, t.hist)
    requires t.hist.erased == s.hist.erased
    requires CacheOk(t.proc.phase, t.proc.objs, t.proc.dead, t.proc.cached, t.hist.shredded)
    requires forall n :: n in s.disk.jobs && s.disk.jobs[n].key != NoKey ==> s.disk.jobs[n].key !in t.hist.ended
    requires JobPlansOk(t.hist, s.disk.jobs, s.proc.jobMade, s.proc.jobDrops)
    requires Pending(s.proc.creates, t.hist)
    ensures Inv(t)
  {
    hide KeysOk, GrantsOk, CacheOk, CreatesOk, JobFileOk, JobPlansOk, OwnerOk, LogOk, Quiet, Published, Pending, Agree;
    CarryGrants(s, t, s.disk.ledger);
    CarryGrants(s, t, s.proc.objs);
    if s.proc.saver.Saving? {
      CarryGrants(s, t, s.proc.saver.snapshot);
    }
    CarryCreates(s, t);
    CarryJobs(s, t, s.disk.jobs);
  }

  lemma AddBytesInv(s: State, id: Id, kind: Kind)
    requires Inv(s) && Name(id, kind) !in s.disk.keys && id in Ids(s.hist)
    ensures Inv(AddBytes(s, id, kind))
  {
    hide GrantsOk, Lacks, Agree, RevokesOk, SnapshotOk, OwnerOk, LogOk, Quiet, Published, CacheOk, ObjsOk, JobPlansOk;
    CarryInv(s, AddBytes(s, id, kind));
  }

  function WithId(s: State, id: Id, job: bool): State {
    s.(hist := if job then s.hist.(jobIds := s.hist.jobIds + {id}) else s.hist.(grantIds := s.hist.grantIds + {id}))
  }

  /** A grant's id begins with g-, a job's with j-. */
  predicate OfShape(id: Id, job: bool) {
    if job then id.JobId? else id.GrantId?
  }

  lemma AddIdInv(s: State, id: Id, job: bool)
    requires Inv(s) && id !in Ids(s.hist) && OfShape(id, job)
    ensures Inv(WithId(s, id, job))
  {
  }

  /** What rests on a dropped key has ended. */
  lemma BytesDropped(s: State, id: Id, kinds: set<Kind>)
    requires Inv(s) && id in s.hist.ended && (id in s.proc.objs ==> id in s.proc.dead)
    ensures var t := DropBytes(s, id, kinds);
      && Carries(s, t) && t.proc == s.proc && t.disk.ledger == s.disk.ledger && t.disk.jobs == s.disk.jobs
      && t.hist.jobIds == s.hist.jobIds && t.hist.erased == s.hist.erased && t.hist.ended == s.hist.ended
      && KeysOk(t.disk.keys, t.disk.serial, t.hist.shredded) && IdsOk(t.disk.keys, t.hist)
      && CacheOk(t.proc.phase, t.proc.objs, t.proc.dead, t.proc.cached, t.hist.shredded)
      && JobPlansOk(t.hist, s.disk.jobs, s.proc.jobMade, s.proc.jobDrops) && Pending(s.proc.creates, t.hist)
      && forall n :: n in s.disk.jobs && s.disk.jobs[n].key != NoKey ==> s.disk.jobs[n].key !in t.hist.ended
  {
    hide GrantsOk, Lacks, Agree, RevokesOk, SnapshotOk, OwnerOk, LogOk, Quiet, Published;
    var t := DropBytes(s, id, kinds);
    forall b | b in t.hist.shredded && b !in s.hist.shredded ensures b.owner == id && b.serial < s.disk.serial {
    }
  }

  lemma DropBytesInv(s: State, id: Id, kinds: set<Kind>)
    requires Inv(s) && id in s.hist.ended && (id in s.proc.objs ==> id in s.proc.dead)
    ensures Inv(DropBytes(s, id, kinds))
  {
    hide GrantsOk, Lacks, Agree, CreatesOk, RevokesOk, SnapshotOk, OwnerOk, LogOk, JobFileOk, Quiet, Published, Carries,
      DropBytes, KeysOk, IdsOk, Pending, CacheOk, JobPlansOk;
    BytesDropped(s, id, kinds);
    CarryInv(s, DropBytes(s, id, kinds));
  }

  /** Approving names an id nothing is being made for any more: its stage moves on in the same step. */
  lemma ApproveInv(s: State, id: Id, deks: map<Slot, Dek>)
    requires Inv(s) && id in Ids(s.hist) && id !in s.hist.approved
    requires id !in s.proc.creates && id !in s.proc.jobMade
    ensures Inv(s.(hist := s.hist.(approved := s.hist.approved[id := deks])))
  {
    hide GrantsOk, Lacks, Agree, RevokesOk, SnapshotOk, OwnerOk, LogOk, Quiet, Published, KeysOk, CacheOk, ObjsOk;
    CarryInv(s, s.(hist := s.hist.(approved := s.hist.approved[id := deks])));
  }

  lemma EndedCreates(s: State, id: Id)
    requires Inv(s) && (id in s.proc.creates ==> !s.proc.creates[id].Minted? && !s.proc.creates[id].Ready?)
    ensures Pending(s.proc.creates, Ending(s, id).hist)
  {
    hide KeysOk, IdsOk, GrantsOk, Lacks, Agree, CacheOk, ObjsOk, RevokesOk, SnapshotOk, OwnerOk, LogOk, JobFileOk,
      JobPlansOk, Quiet, Published, Sound, Kept;
  }

  lemma JobsNotEnded(s: State, id: Id)
    requires Inv(s) && forall n :: n in s.disk.jobs ==> s.disk.jobs[n].key != id
    ensures forall n :: n in s.disk.jobs && s.disk.jobs[n].key != NoKey ==>
      s.disk.jobs[n].key !in Ending(s, id).hist.ended
  {
    hide KeysOk, IdsOk, GrantsOk, Lacks, Agree, CacheOk, ObjsOk, CreatesOk, RevokesOk, SnapshotOk, OwnerOk, LogOk,
      JobPlansOk, Quiet, Published;
  }

  lemma EndingInv(s: State, id: Id)
    requires Inv(s) && id in Ids(s.hist)
    requires id in s.proc.creates ==> !s.proc.creates[id].Minted? && !s.proc.creates[id].Ready?
    requires id !in s.proc.jobMade
    requires forall n :: n in s.disk.jobs ==> s.disk.jobs[n].key != id
    ensures Inv(Ending(s, id))
  {
    hide KeysOk, GrantsOk, Lacks, Agree, CacheOk, CreatesOk, RevokesOk, SnapshotOk, OwnerOk, LogOk, Quiet, Published,
      JobFileOk;
    var t := Ending(s, id);
    assert Pending(s.proc.creates, t.hist) by {
      EndedCreates(s, id);
    }
    JobsNotEnded(s, id);
    CarryInv(s, t);
  }

  lemma StageCreateInv(s: State, id: Id, c: CStage)
    requires Inv(s) && s.proc.phase == Serving && s.proc.ledgerOk
        && CreateOk(s.disk.keys, s.hist, s.proc.objs, s.proc.standing, s.proc.dead, id, c)
    requires s.proc.saver.Saving? && s.proc.saver.owner == ByCreate(id) ==> c == Recording
    ensures Inv(s.(proc := s.proc.(creates := s.proc.creates[id := c])))
  {
  }

  lemma UnstageCreateInv(s: State, id: Id)
    requires Inv(s)
    requires s.proc.saver.Saving? ==> s.proc.saver.owner != ByCreate(id)
    ensures Inv(s.(proc := s.proc.(creates := s.proc.creates - {id})))
  {
    hide KeysOk, IdsOk, GrantsOk, Lacks, Agree, CacheOk, ObjsOk, CreateOk, RevokesOk, SnapshotOk, LogOk, JobFileOk,
      JobPlansOk, Published;
  }

  lemma SealedIsGood(s: State, id: Id, kind: Kind, secrets: map<Slot, Secret>)
    requires Inv(s) && Name(id, kind) in s.disk.keys && id in s.hist.approved && s.hist.approved[id] == DeksOf(secrets)
    ensures var r := SealAll(s.disk.keys[Name(id, kind)], id, secrets);
            Sound(s.hist.approved, r) && Kept(s.disk.keys, r)
  {
  }

  // ---- grants ----

  /** An id just minted is in nothing yet. */
  ghost predicate Unused(s: State, id: Id) {
    && id !in s.hist.ended && id !in s.hist.approved && id !in s.proc.objs
    && (s.proc.saver.Saving? ==> s.proc.saver.owner != ByCreate(id))
    && forall n :: n in s.disk.jobs ==> s.disk.jobs[n].key != id
  }

  lemma NewIsUnused(s: State, id: Id, kind: Kind, job: bool)
    requires Inv(s) && id !in Ids(s.hist) && OfShape(id, job)
    ensures Unused(AddBytes(WithId(s, id, job), id, kind), id)
  {
  }

  lemma NewIdInv(s: State, id: Id, kind: Kind, job: bool)
    requires Inv(s) && id !in Ids(s.hist) && OfShape(id, job)
    ensures Inv(AddBytes(WithId(s, id, job), id, kind))
  {
    AddIdInv(s, id, job);
    AddBytesInv(WithId(s, id, job), id, kind);
  }

  lemma MintInv(s: State, id: Id, kind: Kind) returns (t: State)
    requires Inv(s) && Can(s, Mint(id, kind))
    ensures t == Do(s, Mint(id, kind)) && Inv(t)
  {
    hide Inv;
    NewIdInv(s, id, kind, false);
    NewIsUnused(s, id, kind, false);
    var s1 := AddBytes(WithId(s, id, false), id, kind);
    StageCreateInv(s1, id, Minted(kind));
    t := s1.(proc := s1.proc.(creates := s1.proc.creates[id := Minted(kind)]));
  }

  function SealedState(s: State, id: Id, key: KeyBytes, secrets: map<Slot, Secret>): State {
    s.(hist := s.hist.(approved := s.hist.approved[id := DeksOf(secrets)]),
       proc := s.proc.(creates := s.proc.creates[id := Ready(SealAll(key, id, secrets), key)]))
  }

  /** The approval and its seal, for a grant nothing has been sealed for yet. */
  lemma SealedInv(s: State, id: Id, kind: Kind, secrets: map<Slot, Secret>)
    requires Inv(s) && s.proc.phase == Serving && s.proc.ledgerOk && Name(id, kind) in s.disk.keys
    requires id in s.hist.grantIds && id !in s.hist.approved && id !in s.proc.creates && id !in s.proc.objs
        && id !in s.hist.ended
    ensures var key := s.disk.keys[Name(id, kind)]; Inv(SealedState(s, id, key, secrets))
  {
    ApproveInv(s, id, DeksOf(secrets));
    var t := s.(hist := s.hist.(approved := s.hist.approved[id := DeksOf(secrets)]));
    SealedIsGood(t, id, kind, secrets);
    var key := s.disk.keys[Name(id, kind)];
    StageCreateInv(t, id, Ready(SealAll(key, id, secrets), key));
  }

  function Unstaged(s: State, id: Id): State {
    s.(proc := s.proc.(creates := s.proc.creates - {id}))
  }

  lemma MintedFacts(s: State, id: Id)
    requires Inv(s) && id in s.proc.creates && s.proc.creates[id].Minted?
    ensures s.proc.phase == Serving && s.proc.ledgerOk
    ensures id in s.hist.grantIds && id !in s.hist.approved && id !in s.proc.objs && id !in s.hist.ended
    ensures id !in s.proc.standing && id !in s.proc.jobMade && forall n :: n in s.disk.jobs ==> s.disk.jobs[n].key != id
    ensures s.proc.saver.Saving? ==> s.proc.saver.owner != ByCreate(id)
  {
  }

  lemma SealIsDo(s: State, id: Id, secrets: map<Slot, Secret>)
    requires Can(s, SealGrant(id, secrets))
    ensures Do(s, SealGrant(id, secrets)) == SealedState(Unstaged(s, id), id,
        s.disk.keys[Name(id, s.proc.creates[id].kind)], secrets)
  {
    var c := Ready(SealAll(s.disk.keys[Name(id, s.proc.creates[id].kind)], id, secrets),
        s.disk.keys[Name(id, s.proc.creates[id].kind)]);
    assert (s.proc.creates - {id})[id := c] == s.proc.creates[id := c];
  }

  lemma SealGrantInv(s: State, id: Id, secrets: map<Slot, Secret>) returns (t: State)
    requires Inv(s) && Can(s, SealGrant(id, secrets))
    ensures t == Do(s, SealGrant(id, secrets)) && Inv(t)
  {
    var kind := s.proc.creates[id].kind;
    MintedFacts(s, id);
    UnstageCreateInv(s, id);
    SealedInv(Unstaged(s, id), id, kind, secrets);
    t := SealedState(Unstaged(s, id), id, s.disk.keys[Name(id, kind)], secrets);
    SealIsDo(s, id, secrets);
  }

  lemma AbortInv(s: State, id: Id)
    requires Inv(s) && Can(s, Abort(id))
    ensures Inv(Do(s, Abort(id)))
  {
    hide Inv, Do;
    MintedFacts(s, id);
    UnstageCreateInv(s, id);
    EndingInv(Unstaged(s, id), id);
    StageCreateInv(Ending(Unstaged(s, id), id), id, Gone);
    AbortIsDo(s, id);
  }

  lemma AbortIsDo(s: State, id: Id)
    requires Can(s, Abort(id))
    ensures var t := Ending(Unstaged(s, id), id);
      Do(s, Abort(id)) == t.(proc := t.proc.(creates := t.proc.creates[id := Gone]))
  {
    assert Unstaged(s, id).proc.creates[id := Gone] == s.proc.creates[id := Gone];
  }

  lemma AddGrant(keys: map<Name, KeyBytes>, h: Hist, m: map<Id, Rec>, id: Id, r: Rec)
    requires GrantsOk(keys, h, m)
    requires r.key == id && id in h.grantIds && id !in h.destroyed && Sound(h.approved, r) && Kept(keys, r)
    ensures GrantsOk(keys, h, m[id := r])
  {
  }

  function Shown(p: Proc, id: Id, r: Rec): Proc {
    Logged(p.(objs := p.objs[id := r], standing := p.standing + {id}, creates := p.creates[id := Recording]))
  }

  lemma ShownObjs(s: State, id: Id, r: Rec)
    requires Inv(s) && s.proc.phase == Serving && id !in s.proc.objs && id in s.hist.grantIds && id !in s.hist.ended
    ensures var p := s.proc;
            && ObjsOk(p.phase, p.objs[id := r], p.standing + {id}, p.dead, s.hist)
            && RevokesOk(s.hist, p.objs[id := r], p.standing + {id}, p.dead, p.revokes)
            && CacheOk(p.phase, p.objs[id := r], p.dead, p.cached, s.hist.shredded)
  {
  }

  lemma ShownCreates(s: State, id: Id)
    requires Inv(s) && Can(s, Publish(id))
    ensures var p := s.proc;
            CreatesOk(s.disk.keys, s.hist, p.objs[id := p.creates[id].rec], p.standing + {id}, p.dead,
                p.creates[id := Recording])
  {
  }

  lemma ShownLog(s: State, id: Id, r: Rec)
    requires Inv(s) && s.proc.phase == Serving && id !in s.proc.objs
    ensures var p, q := s.proc, Shown(s.proc, id, r);
            && LogOk(q.phase, q.ledgerOk, s.disk.ledger, Mem(q), q.log, q.written)
            && SnapshotOk(s.disk.keys, s.hist, q.objs, q.log, q.written, q.saver)
  {
    var p, q := s.proc, Shown(s.proc, id, r);
    if p.saver.Saving? {
      assert q.log[p.saver.version] == p.log[p.saver.version];
      assert p.saver.snapshot.Keys <= q.objs.Keys && Agree(p.saver.snapshot, q.objs);
    }
  }

  lemma ShownRest(s: State, id: Id, r: Rec)
    requires Inv(s) && Can(s, Publish(id)) && r.key == id
    ensures Agree(s.disk.ledger, s.proc.objs[id := r])
        && OwnerOk(s.proc.creates[id := Recording], s.proc.revokes, s.proc.saver)
    ensures Quiet(Shown(s.proc, id, r)) && (s.proc.ledgerOk ==> s.disk.ledger.Keys <= s.proc.objs[id := r].Keys)
  {
    assert id !in s.disk.ledger;
  }

  /** A finished grant object joins the published ones. */
  lemma ShownInv(s: State, id: Id, r: Rec)
    requires Inv(s) && Can(s, Publish(id)) && r == s.proc.creates[id].rec
    ensures Inv(s.(proc := Shown(s.proc, id, r)))
  {
    AddGrant(s.disk.keys, s.hist, s.proc.objs, id, r);
    ShownObjs(s, id, r);
    ShownCreates(s, id);
    ShownLog(s, id, r);
    ShownRest(s, id, r);
  }

  lemma CachedInv(s: State, id: Id, b: KeyBytes)
    requires Inv(s) && s.proc.phase == Serving && id in s.proc.objs && id !in s.proc.dead
    requires b.owner == id && b !in s.hist.shredded
    ensures Inv(s.(proc := s.proc.(cached := s.proc.cached[id := b])))
  {
  }

  lemma PublishInv(s: State, id: Id)
    requires Inv(s) && Can(s, Publish(id))
    ensures Inv(Do(s, Publish(id)))
  {
    var c := s.proc.creates[id];
    ShownInv(s, id, c.rec);
    CachedInv(s.(proc := Shown(s.proc, id, c.rec)), id, c.key);
  }

  /** Memory as it is makes a good snapshot. */
  lemma SnapshotTaken(keys: map<Name, KeyBytes>, h: Hist, objs: map<Id, Rec>, standing: set<Id>, dead: set<Id>,
      log: seq<map<Id, Rec>>, written: int, owner: Owner)
    requires GrantsOk(keys, h, objs) && dead !! standing && forall i :: i in h.erased && i in objs ==> i in dead
    requires 0 <= written < |log| && log[|log| - 1] == Published(objs, standing)
    ensures SnapshotOk(keys, h, objs, log, written, Saving(Published(objs, standing), |log| - 1, owner))
  {
    hide Sound, Kept, Balanced, Shut;
  }

  lemma UnpublishedLeft(objs: map<Id, Rec>, standing: set<Id>)
    ensures forall i :: i in Published(objs, standing) <==> i in objs && i in standing
  {
  }

  lemma SaveBeginInv(s: State, owner: Owner)
    requires Inv(s) && Can(s, SaveBegin(owner))
    ensures Inv(Do(s, SaveBegin(owner)))
  {
    hide KeysOk, IdsOk, GrantsOk, CacheOk, CreatesOk, SnapshotOk, JobFileOk, JobPlansOk, Published;
    var p := s.proc;
    SnapshotTaken(s.disk.keys, s.hist, p.objs, p.standing, p.dead, p.log, p.written, owner);
    UnpublishedLeft(p.objs, p.standing);
  }

  lemma ReleasedInv(s: State, wrote: bool)
    requires Inv(s)
    ensures Inv(Released(s, wrote))
  {
  }

  /** But for what is on record as destroyed or erased. */
  predicate SameCore(h: Hist, k: Hist) {
    && h.approved == k.approved && h.grantIds == k.grantIds && h.jobIds == k.jobIds && h.ended == k.ended
    && h.shredded == k.shredded
  }

  lemma CoreFrame(s: State, k: Hist)
    requires SameCore(s.hist, k)
    ensures var p, h, keys := s.proc, s.hist, s.disk.keys;
      && (CreatesOk(keys, h, p.objs, p.standing, p.dead, p.creates) ==>
           CreatesOk(keys, k, p.objs, p.standing, p.dead, p.creates))
      && (RevokesOk(h, p.objs, p.standing, p.dead, p.revokes) ==> RevokesOk(k, p.objs, p.standing, p.dead, p.revokes))
      && (JobFileOk(keys, h, s.disk.jobs) ==> JobFileOk(keys, k, s.disk.jobs))
      && (JobPlansOk(h, s.disk.jobs, p.jobMade, p.jobDrops) ==> JobPlansOk(k, s.disk.jobs, p.jobMade, p.jobDrops))
  {
    hide Sound, Kept;
  }

  lemma GrantsFrame(keys: map<Name, KeyBytes>, h: Hist, k: Hist, m: map<Id, Rec>)
    requires SameCore(h, k) && h.destroyed == k.destroyed && GrantsOk(keys, h, m)
    ensures GrantsOk(keys, k, m)
  {
  }

  lemma EraseInv(s: State, id: Id)
    requires Inv(s) && id in s.proc.dead && id in s.hist.ended && id !in s.disk.ledger && s.proc.saver.Free?
    ensures Inv(s.(hist := s.hist.(erased := s.hist.erased + {id})))
  {
    hide KeysOk, GrantsOk, CacheOk, CreatesOk, RevokesOk, LogOk, JobFileOk, JobPlansOk, Quiet, Published, Agree,
      OwnerOk;
    var k := s.hist.(erased := s.hist.erased + {id});
    CoreFrame(s, k);
    GrantsFrame(s.disk.keys, s.hist, k, s.disk.ledger);
    GrantsFrame(s.disk.keys, s.hist, k, s.proc.objs);
  }

  lemma SaverFacts(s: State)
    requires Inv(s) && s.proc.saver.Saving?
    ensures s.proc.phase == Serving
    ensures s.proc.saver.owner.ByCreate? ==>
      var id := s.proc.saver.owner.id; s.proc.ledgerOk && id in s.hist.grantIds && id in s.proc.objs
    ensures s.proc.saver.owner.ByRevoke? ==>
      var id := s.proc.saver.owner.id;
      id in s.proc.dead && id in s.hist.ended && id !in s.proc.saver.snapshot
  {
    hide KeysOk, IdsOk, GrantsOk, Lacks, Agree, CacheOk, ObjsOk, SnapshotOk, LogOk, JobFileOk, JobPlansOk, Published;
  }

  lemma SaveEndInv(s: State, ok: bool)
    requires Inv(s) && Can(s, SaveEnd(ok))
    ensures Inv(Do(s, SaveEnd(ok)))
  {
    hide Inv;
    var wrote := ok && s.proc.ledgerOk;
    var t := Released(s, wrote);
    ReleasedInv(s, wrote);
    SaverFacts(s);
    match s.proc.saver.owner
    case ByServe =>
    case ByCreate(id) =>
      if ok { UnstageCreateInv(t, id); } else { StageCreateInv(t, id, Failed); }
    case ByRevoke(id) =>
      UnstageRevokeInv(t, id);
      if wrote {
        EraseInv(t.(proc := t.proc.(revokes := t.proc.revokes - {id})), id);
      }
  }

  lemma UnstageRevokeInv(s: State, id: Id)
    requires Inv(s) && s.proc.saver.Free?
    ensures Inv(s.(proc := s.proc.(revokes := s.proc.revokes - {id})))
  {
    hide KeysOk, IdsOk, GrantsOk, Lacks, Agree, CacheOk, ObjsOk, CreatesOk, SnapshotOk, LogOk, JobFileOk, JobPlansOk,
      Published;
  }

  /** An ended grant leaves the published ones. */
  lemma TakenDownInv(s: State, id: Id)
    requires Inv(s) && s.proc.phase == Serving && id in s.hist.ended
    ensures Inv(s.(proc := Logged(s.proc.(standing := s.proc.standing - {id}))))
  {
    hide GrantsOk, Sound;
  }

  lemma StageRevokeInv(s: State, id: Id, r: RStage)
    requires Inv(s) && s.proc.phase == Serving
    requires id in s.hist.ended && id in s.proc.objs && id !in s.proc.standing && (r != Begun ==> id in s.proc.dead)
    requires s.proc.saver.Saving? && s.proc.saver.owner == ByRevoke(id) ==> r == Dropped
    ensures Inv(s.(proc := s.proc.(revokes := s.proc.revokes[id := r])))
  {
    hide GrantsOk, CreatesOk, JobFileOk, JobPlansOk, ObjsOk;
  }

  lemma UnpublishInv(s: State, id: Id)
    requires Inv(s) && Can(s, Unpublish(id))
    ensures Inv(Do(s, Unpublish(id)))
  {
    hide LogOk, SnapshotOk, KeysOk, ObjsOk, CacheOk, RevokesOk, Published, Sound, Balanced, Shut, AllKept,
      AllBalanced, AllShut, Lacks, Agree, Resealed;
    EndingInv(s, id);
    var s1 := Ending(s, id);
    TakenDownInv(s1, id);
    var s2 := s1.(proc := Logged(s1.proc.(standing := s1.proc.standing - {id})));
    StageCreateInv(s2, id, Withdrawn);
  }

  lemma RevokeBeginIsDo(s: State, id: Id)
    requires Can(s, RevokeBegin(id))
    ensures var s1 := Ending(s, id); var s2 := s1.(proc := Logged(s1.proc.(standing := s1.proc.standing - {id})));
      Do(s, RevokeBegin(id)) == s2.(proc := s2.proc.(revokes := s2.proc.revokes[id := Begun]))
  {
    assert Mem(s.proc.(standing := s.proc.standing - {id},
        revokes := s.proc.revokes[id := Begun])) == Mem(s.proc.(standing := s.proc.standing - {id}));
  }

  lemma RevokeBeginInv(s: State, id: Id) returns (t: State)
    requires Inv(s) && Can(s, RevokeBegin(id))
    ensures t == Do(s, RevokeBegin(id)) && Inv(t)
  {
    hide Do, LogOk, KeysOk, Published;
    EndingInv(s, id);
    var s1 := Ending(s, id);
    TakenDownInv(s1, id);
    var s2 := s1.(proc := Logged(s1.proc.(standing := s1.proc.standing - {id})));
    StageRevokeInv(s2, id, Begun);
    RevokeBeginIsDo(s, id);
    t := s2.(proc := s2.proc.(revokes := s2.proc.revokes[id := Begun]));
  }

  lemma DeadInv(s: State, id: Id)
    requires Inv(s) && s.proc.phase == Serving && id in s.proc.objs && id !in s.proc.standing
    ensures Inv(s.(proc := s.proc.(dead := s.proc.dead + {id}, cached := s.proc.cached - {id})))
  {
    hide GrantsOk, IdsOk, LogOk, KeysOk;
  }

  lemma RetireInv(s: State, id: Id, l: Label)
    requires Inv(s) && Can(s, l) && (l == RetireCreate(id) || l == RetireRevoke(id))
    ensures Inv(Do(s, l))
  {
    hide GrantsOk;
    DeadInv(s, id);
    var s1 := s.(proc := s.proc.(dead := s.proc.dead + {id}, cached := s.proc.cached - {id}));
    if l == RetireCreate(id) { StageCreateInv(s1, id, Gone); } else { StageRevokeInv(s1, id, Retired); }
  }

  lemma DropCreateInv(s: State, id: Id, kinds: set<Kind>)
    requires Inv(s) && Can(s, DropCreate(id, kinds))
    ensures Inv(Do(s, DropCreate(id, kinds)))
  {
    DropBytesInv(s, id, kinds);
    UnstageCreateInv(DropBytes(s, id, kinds), id);
  }

  /** With no key of its kinds left, every copy a record of a retired grant holds is under a
      destroyed key, in memory, in the file and in a save's snapshot alike. */
  lemma DestroyGrants(keys: map<Name, KeyBytes>, h: Hist, id: Id, m: map<Id, Rec>)
    requires GrantsOk(keys, h, m) && (id in m ==> Shut(h.shredded, m[id]))
    ensures GrantsOk(keys, h.(destroyed := h.destroyed + {id}), m)
  {
  }

  /** With no key of its kinds left, every copy of a grant is under a destroyed key, wherever its record is. */
  lemma AllGone(s: State, id: Id)
    requires Inv(s) && id in s.proc.objs && KeyGone(s.disk.keys, s.proc.objs[id])
    ensures id in s.hist.grantIds
    ensures id in s.disk.ledger ==> Shut(s.hist.shredded, s.disk.ledger[id])
    ensures Shut(s.hist.shredded, s.proc.objs[id])
    ensures s.proc.saver.Saving? && id in s.proc.saver.snapshot ==> Shut(s.hist.shredded, s.proc.saver.snapshot[id])
  {
    hide KeysOk, IdsOk, CacheOk, CreatesOk, RevokesOk, LogOk, JobFileOk, JobPlansOk, Quiet, Published;
    assert Balanced(s.disk.keys, s.hist.shredded, s.proc.objs[id]);
  }

  lemma DestroyInv(s: State, id: Id)
    requires Inv(s) && id in s.proc.dead && id in s.hist.ended && KeyGone(s.disk.keys, s.proc.objs[id])
    ensures Inv(s.(hist := s.hist.(destroyed := s.hist.destroyed + {id})))
  {
    hide KeysOk, GrantsOk, CacheOk, CreatesOk, RevokesOk, LogOk, JobFileOk, JobPlansOk, Quiet, Published, Agree,
      OwnerOk, Lacks;
    CoreFrame(s, s.hist.(destroyed := s.hist.destroyed + {id}));
    AllGone(s, id);
    DestroyGrants(s.disk.keys, s.hist, id, s.disk.ledger);
    DestroyGrants(s.disk.keys, s.hist, id, s.proc.objs);
    if s.proc.saver.Saving? {
      DestroyGrants(s.disk.keys, s.hist, id, s.proc.saver.snapshot);
    }
  }

  lemma DropRevokeInv(s: State, id: Id, kinds: set<Kind>)
    requires Inv(s) && Can(s, DropRevoke(id, kinds))
    ensures Inv(Do(s, DropRevoke(id, kinds)))
  {
    hide GrantsOk;
    DropBytesInv(s, id, kinds);
    var s1 := DropBytes(s, id, kinds);
    StageRevokeInv(s1, id, Dropped);
    var s2 := s1.(proc := s1.proc.(revokes := s1.proc.revokes[id := Dropped]));
    if id in s.proc.objs && KeyGone(s1.disk.keys, s.proc.objs[id]) {
      DestroyInv(s2, id);
    }
  }

  lemma ServeFacts(s: State, id: Id, slot: Slot)
    requires Inv(s) && Can(s, Serve(id, slot))
    ensures var b := KeyFor(s, id, s.proc.objs[id].entries[slot]); b.owner == id && b !in s.hist.shredded
  {
    hide IdsOk, GrantsOk, Lacks, Agree, ObjsOk, CreatesOk, RevokesOk, SnapshotOk, OwnerOk, LogOk, JobFileOk, JobPlansOk,
      Quiet, Published;
  }

  lemma InvIgnoresServed(s: State, served: seq<Served>)
    requires Inv(s)
    ensures Inv(s.(served := served))
  {
    hide KeysOk, IdsOk, GrantsOk, Lacks, Agree, CacheOk, ObjsOk, CreatesOk, RevokesOk, SnapshotOk, OwnerOk, LogOk,
      JobFileOk, JobPlansOk, Quiet, Published;
  }

  lemma ServeInv(s: State, id: Id, slot: Slot)
    requires Inv(s) && Can(s, Serve(id, slot))
    ensures Inv(Do(s, Serve(id, slot)))
  {
    hide Inv;
    ServeFacts(s, id, slot);
    var b := KeyFor(s, id, s.proc.objs[id].entries[slot]);
    CachedInv(s, id, b);
    InvIgnoresServed(s.(proc := s.proc.(cached := s.proc.cached[id := b])), Do(s, Serve(id, slot)).served);
  }

  // ---- jobs ----

  lemma PlanJobInv(s: State, id: Id, kind: Kind)
    requires Inv(s) && s.proc.phase == Serving && id in s.hist.jobIds && Unused(s, id)
    ensures Inv(s.(proc := s.proc.(jobMade := s.proc.jobMade[id := kind])))
  {
  }

  lemma MintJobIsDo(s: State, id: Id, kind: Kind)
    requires Can(s, MintJob(id, kind))
    ensures var s1 := AddBytes(WithId(s, id, true), id, kind);
      Do(s, MintJob(id, kind)) == s1.(proc := s1.proc.(jobMade := s1.proc.jobMade[id := kind]))
  {
  }

  lemma MintJobInv(s: State, id: Id, kind: Kind) returns (t: State)
    requires Inv(s) && Can(s, MintJob(id, kind))
    ensures t == Do(s, MintJob(id, kind)) && Inv(t)
  {
    NewIdInv(s, id, kind, true);
    NewIsUnused(s, id, kind, true);
    var s1 := AddBytes(WithId(s, id, true), id, kind);
    PlanJobInv(s1, id, kind);
    MintJobIsDo(s, id, kind);
    t := s1.(proc := s1.proc.(jobMade := s1.proc.jobMade[id := kind]));
  }

  lemma JobIsNoGrant(s: State, id: Id)
    requires Inv(s) && id in s.hist.jobIds
    ensures id in Ids(s.hist) && id !in s.proc.creates
  {
    hide KeysOk, GrantsOk, Lacks, Agree, CacheOk, ObjsOk, RevokesOk, SnapshotOk, OwnerOk, LogOk, JobFileOk,
      JobPlansOk, Quiet, Published;
  }

  lemma PlanDropInv(s: State, id: Id)
    requires Inv(s) && s.proc.phase == Serving && id in s.hist.jobIds && id in s.hist.ended
    ensures Inv(s.(proc := s.proc.(jobDrops := s.proc.jobDrops + {id})))
  {
    hide KeysOk, IdsOk, GrantsOk, Lacks, Agree, CacheOk, ObjsOk, CreatesOk, RevokesOk, SnapshotOk, OwnerOk, LogOk,
      JobFileOk, Published;
  }

  lemma EndJobKeyInv(s: State, id: Id)
    requires Inv(s) && s.proc.phase == Serving && id in s.hist.jobIds && id !in s.proc.jobMade
    requires forall n :: n in s.disk.jobs ==> s.disk.jobs[n].key != id
    ensures Inv(EndJobKey(s, id))
  {
    hide Inv;
    JobIsNoGrant(s, id);
    EndingInv(s, id);
    PlanDropInv(Ending(s, id), id);
  }

  lemma UnplanInv(s: State, id: Id)
    requires Inv(s)
    ensures Inv(s.(proc := s.proc.(jobMade := s.proc.jobMade - {id})))
    ensures Inv(s.(proc := s.proc.(jobDrops := s.proc.jobDrops - {id})))
  {
    hide KeysOk, IdsOk, GrantsOk, Lacks, Agree, CacheOk, ObjsOk, CreatesOk, RevokesOk, SnapshotOk, OwnerOk, LogOk,
      JobFileOk, Published;
  }

  lemma AbandonJobInv(s: State, id: Id)
    requires Inv(s) && Can(s, AbandonJob(id))
    ensures Inv(Do(s, AbandonJob(id)))
  {
    UnplanInv(s, id);
    EndJobKeyInv(s.(proc := s.proc.(jobMade := s.proc.jobMade - {id})), id);
  }

  /** The job list changed in memory and on disk at once, no key yet dropped. */
  lemma JobFileInv(s: State, jobs: map<JobName, Rec>)
    requires Inv(s) && s.proc.phase == Serving && s.proc.jobsOk
    requires JobFileOk(s.disk.keys, s.hist, jobs) && JobPlansOk(s.hist, jobs, s.proc.jobMade, s.proc.jobDrops)
    ensures Inv(s.(disk := s.disk.(jobs := jobs), proc := s.proc.(jobs := jobs)))
  {
  }

  /** A record of a new key in place of another makes a good job list, which the other's key is not in. */
  lemma FileFacts(s: State, name: JobName, r: Rec)
    requires Inv(s) && s.proc.phase == Serving && s.proc.jobsOk
    requires Sound(s.hist.approved, r) && Kept(s.disk.keys, r)
    requires r.key != NoKey ==> r.key in s.hist.jobIds && r.key !in s.hist.ended && r.key !in s.proc.jobMade
    requires r.key != NoKey ==> forall n :: n in s.disk.jobs ==> s.disk.jobs[n].key != r.key
    ensures var jobs := s.proc.jobs[name := r];
      && JobFileOk(s.disk.keys, s.hist, jobs) && JobPlansOk(s.hist, jobs, s.proc.jobMade, s.proc.jobDrops)
      && (name in s.proc.jobs && s.proc.jobs[name].key != NoKey && s.proc.jobs[name].key != r.key ==>
           var was := s.proc.jobs[name].key;
           was in s.hist.jobIds && was !in s.proc.jobMade && forall n :: n in jobs ==> jobs[n].key != was)
  {
    hide KeysOk, GrantsOk, Lacks, Agree, CacheOk, ObjsOk, CreatesOk, RevokesOk, SnapshotOk, OwnerOk, LogOk, Quiet,
      Published, Sound, Kept;
  }

  lemma FileJobInv(s: State, name: JobName, r: Rec)
    requires Inv(s) && s.proc.phase == Serving && s.proc.jobsOk
    requires Sound(s.hist.approved, r) && Kept(s.disk.keys, r)
    requires r.key != NoKey ==> r.key in s.hist.jobIds && r.key !in s.hist.ended && r.key !in s.proc.jobMade
    requires r.key != NoKey ==> forall n :: n in s.disk.jobs ==> s.disk.jobs[n].key != r.key
    ensures Inv(FileJob(s, name, r))
  {
    hide Inv, Sound, Kept;
    FileFacts(s, name, r);
    var jobs := s.proc.jobs[name := r];
    JobFileInv(s, jobs);
    var t := s.(disk := s.disk.(jobs := jobs), proc := s.proc.(jobs := jobs));
    if name in s.proc.jobs && s.proc.jobs[name].key != NoKey && s.proc.jobs[name].key != r.key {
      EndJobKeyInv(t, s.proc.jobs[name].key);
    }
  }

  lemma ApproveJobInv(s: State, id: Id, name: JobName, secrets: map<Slot, Secret>, ok: bool)
    requires Inv(s) && Can(s, ApproveJob(id, name, secrets, ok))
    ensures Inv(Do(s, ApproveJob(id, name, secrets, ok)))
  {
    var kind := s.proc.jobMade[id];
    UnplanInv(s, id);
    var s1 := s.(proc := s.proc.(jobMade := s.proc.jobMade - {id}));
    ApproveInv(s1, id, DeksOf(secrets));
    var s2 := s1.(hist := s1.hist.(approved := s1.hist.approved[id := DeksOf(secrets)]));
    SealedIsGood(s2, id, kind, secrets);
    if ok {
      FileJobInv(s2, name, SealAll(s.disk.keys[Name(id, kind)], id, secrets));
    } else {
      EndJobKeyInv(s2, id);
    }
  }

  lemma RemoveJobInv(s: State, name: JobName)
    requires Inv(s) && Can(s, RemoveJob(name, true))
    ensures Inv(Do(s, RemoveJob(name, true)))
  {
    var jobs := s.proc.jobs - {name};
    JobFileInv(s, jobs);
    if s.proc.jobs[name].key != NoKey {
      EndJobKeyInv(s.(disk := s.disk.(jobs := jobs), proc := s.proc.(jobs := jobs)), s.proc.jobs[name].key);
    }
  }

  lemma DropJobInv(s: State, id: Id, kinds: set<Kind>)
    requires Inv(s) && Can(s, DropJob(id, kinds))
    ensures Inv(Do(s, DropJob(id, kinds)))
  {
    DropBytesInv(s, id, kinds);
    UnplanInv(DropBytes(s, id, kinds), id);
  }

  // ---- start-up ----

  lemma DropUnneeded<K>(s: State, n: Name, m: map<K, Rec>)
    requires Unneeded(s.disk.keys, m, n) && KeysOk(s.disk.keys, s.disk.serial, s.hist.shredded)
        && AllSound(s.hist.approved, m)
    ensures var t := DropBytes(s, n.id, {n.kind});
            && t.disk.keys == s.disk.keys - {n}
            && KeysOk(t.disk.keys, t.disk.serial, t.hist.shredded)
            && (forall ended :: AllKept(s.disk.keys, ended, m) ==> AllKept(t.disk.keys, ended, m))
            && (AllBalanced(s.disk.keys, s.hist.shredded, m) ==> AllBalanced(t.disk.keys, t.hist.shredded, m))
            && s.hist.shredded <= t.hist.shredded
  {
    assert Names(n.id, {n.kind}) == {n};
    assert n in s.disk.keys ==> BytesOf(s.disk.keys, {n}) == {s.disk.keys[n]};
    forall i, slot | i in m && slot in m[i].entries && Name(m[i].key, m[i].entries[slot].wrap) == n && n in s.disk.keys
      ensures s.disk.keys[n] != m[i].entries[slot].copy.under
    {
      assert Opens(s.disk.keys, m[i], slot).None?;
    }
  }

  lemma BootDropGrants(s: State, n: Name)
    requires Unneeded(s.disk.keys, s.disk.ledger, n) && KeysOk(s.disk.keys, s.disk.serial, s.hist.shredded)
    requires GrantsOk(s.disk.keys, s.hist, s.disk.ledger)
    ensures var t := DropBytes(s, n.id, {n.kind});
      GrantsOk(t.disk.keys, t.hist, s.disk.ledger) && KeysOk(t.disk.keys, t.disk.serial, t.hist.shredded)
      && t.disk.keys.Keys <= s.disk.keys.Keys
  {
    hide Unneeded, KeysOk, Sound, Kept, Balanced;
    DropUnneeded(s, n, s.disk.ledger);
  }

  lemma BootDropJobs(s: State, n: Name)
    requires Unneeded(s.disk.keys, s.disk.jobs, n) && KeysOk(s.disk.keys, s.disk.serial, s.hist.shredded)
    requires JobFileOk(s.disk.keys, s.hist, s.disk.jobs)
    ensures JobFileOk(DropBytes(s, n.id, {n.kind}).disk.keys, s.hist, s.disk.jobs)
  {
    hide Unneeded, KeysOk, Sound, Kept, Balanced;
    DropUnneeded(s, n, s.disk.jobs);
  }

  /** What was destroyed does not matter to a job list. */
  lemma SameJobFile(s: State, n: Name)
    ensures var t := DropBytes(s, n.id, {n.kind});
      JobFileOk(t.disk.keys, s.hist, s.disk.jobs) ==> JobFileOk(t.disk.keys, t.hist, s.disk.jobs)
  {
    hide Sound, Kept;
  }

  lemma NoGrants(keys: map<Name, KeyBytes>, h: Hist)
    ensures GrantsOk(keys, h, map[])
  {
  }

  lemma BootDropInv(s: State, n: Name)
    requires Inv(s) && Can(s, AtBoot(DropKey(n)))
    ensures Inv(DropBytes(s, n.id, {n.kind}))
  {
    hide LogOk, Published, Agree, Lacks, GrantsOk, JobFileOk, KeysOk, Unneeded;
    BootDropGrants(s, n);
    NoGrants(DropBytes(s, n.id, {n.kind}).disk.keys, DropBytes(s, n.id, {n.kind}).hist);
    BootDropJobs(s, n);
    SameJobFile(s, n);
  }

  lemma ResealedSound<K>(d: Disk, h: Hist, a: map<K, Rec>, b: map<K, Rec>)
    requires KeysOk(d.keys, d.serial, h.shredded) && AllSound(h.approved, a) && Resealed(d.keys, a, b)
    ensures AllSound(h.approved, b)
  {
  }

  lemma ResealedKept<K>(d: Disk, h: Hist, a: map<K, Rec>, b: map<K, Rec>, ended: set<Id>)
    requires Resealed(d.keys, a, b) && AllKept(d.keys, ended, a)
    ensures AllKept(d.keys, ended, b)
  {
  }

  lemma ResealedBalanced<K>(d: Disk, h: Hist, a: map<K, Rec>, b: map<K, Rec>)
    requires Resealed(d.keys, a, b) && AllBalanced(d.keys, h.shredded, a)
    ensures AllBalanced(d.keys, h.shredded, b)
  {
  }

  lemma ResealedShut<K>(d: Disk, h: Hist, a: map<K, Rec>, b: map<K, Rec>)
    requires KeysOk(d.keys, d.serial, h.shredded) && Resealed(d.keys, a, b) && AllShut(h.destroyed, h.shredded, a)
    ensures AllShut(h.destroyed, h.shredded, b)
  {
  }

  lemma ResealedGrants(d: Disk, h: Hist, m: map<Id, Rec>)
    requires KeysOk(d.keys, d.serial, h.shredded) && GrantsOk(d.keys, h, d.ledger) && Resealed(d.keys, d.ledger, m)
    ensures GrantsOk(d.keys, h, m)
  {
    ResealedSound(d, h, d.ledger, m);
    ResealedKept(d, h, d.ledger, m, h.ended);
    ResealedBalanced(d, h, d.ledger, m);
    ResealedShut(d, h, d.ledger, m);
  }

  lemma ResealedJobs(d: Disk, h: Hist, m: map<JobName, Rec>)
    requires KeysOk(d.keys, d.serial, h.shredded) && JobFileOk(d.keys, h, d.jobs) && Resealed(d.keys, d.jobs, m)
    ensures JobFileOk(d.keys, h, m)
  {
    ResealedSound(d, h, d.jobs, m);
    ResealedKept(d, h, d.jobs, m, {});
  }

  function Rewritten(p: Proc, m: map<Id, Rec>): Proc {
    p.(objs := m, standing := m.Keys, log := p.log + [m], written := |p.log|)
  }

  /** Before the service listens memory is the file, and nothing else is under way. */
  lemma RewrittenProc(s: State, m: map<Id, Rec>)
    requires Inv(s) && s.proc.phase == Boot && s.proc.ledgerOk && m.Keys == s.disk.ledger.Keys
    ensures var q := Rewritten(s.proc, m);
            && ObjsOk(q.phase, q.objs, q.standing, q.dead, s.hist)
            && CacheOk(q.phase, q.objs, q.dead, q.cached, s.hist.shredded)
            && q.creates == map[] && q.revokes == map[] && q.saver.Free? && Quiet(q)
            && LogOk(q.phase, q.ledgerOk, m, Mem(q), q.log, q.written)
  {
    assert Mem(Rewritten(s.proc, m)) == m;
  }

  lemma BootLedgerInv(s: State, m: map<Id, Rec>) returns (t: State)
    requires Inv(s) && Can(s, AtBoot(WriteLedger(m)))
    ensures t == Do(s, AtBoot(WriteLedger(m))) && Inv(t)
  {
    ResealedGrants(s.disk, s.hist, m);
    RewrittenProc(s, m);
    t := s.(disk := s.disk.(ledger := m), proc := Rewritten(s.proc, m));
  }

  lemma BootJobsInv(s: State, m: map<JobName, Rec>)
    requires Inv(s) && Can(s, AtBoot(WriteJobs(m)))
    ensures Inv(Do(s, AtBoot(WriteJobs(m))))
  {
    ResealedJobs(s.disk, s.hist, m);
  }

  lemma BootInv(s: State, b: BootStep)
    requires Inv(s) && Can(s, AtBoot(b))
    ensures Inv(Do(s, AtBoot(b)))
    ensures Do(s, AtBoot(b)).disk == Apply(s.disk, b)
  {
    hide Inv;
    match b
    case AddKey(n) => AddBytesInv(s, n.id, n.kind);
    case DropKey(n) => BootDropInv(s, n); assert Names(n.id, {n.kind}) == {n};
    case WriteLedger(m) => var _ := BootLedgerInv(s, m);
    case WriteJobs(m) => BootJobsInv(s, m);
  }

  lemma CrashInv(s: State)
    requires Inv(s)
    ensures Inv(Do(s, Crash))
  {
  }

  lemma ListenInv(s: State)
    requires Inv(s) && Can(s, Listen)
    ensures Inv(Do(s, Listen))
  {
    hide CreatesOk, GrantsOk, OwnerOk, AllSound, AllKept, Lacks, Resealed;
  }

  lemma LoadInv(s: State, ledgerOk: bool, jobsOk: bool)
    requires Inv(s) && Can(s, Load(ledgerOk, jobsOk))
    ensures Inv(Do(s, Load(ledgerOk, jobsOk)))
  {
    hide GrantsOk, JobPlansOk, IdsOk, OwnerOk, AllSound, AllKept, CreateOk;
    var objs := if ledgerOk then s.disk.ledger else map[];
    assert Published(objs, objs.Keys) == objs;
  }

  lemma GrantStepInv(s: State, l: Label)
    requires Inv(s) && Can(s, l)
    requires l.Mint? || l.SealGrant? || l.Abort? || l.Publish? || l.SaveBegin? || l.SaveEnd? || l.Unpublish?
        || l.RetireCreate?
    ensures Inv(Do(s, l))
  {
    hide Inv, Do;
    match l
    case Mint(id, kind) => var _ := MintInv(s, id, kind);
    case SealGrant(id, secrets) => var _ := SealGrantInv(s, id, secrets);
    case Abort(id) => AbortInv(s, id);
    case Publish(id) => PublishInv(s, id);
    case SaveBegin(owner) => SaveBeginInv(s, owner);
    case SaveEnd(ok) => SaveEndInv(s, ok);
    case Unpublish(id) => UnpublishInv(s, id);
    case RetireCreate(id) => RetireInv(s, id, l);
  }

  lemma EndStepInv(s: State, l: Label)
    requires Inv(s) && Can(s, l)
    requires l.DropCreate? || l.RevokeBegin? || l.RetireRevoke? || l.DropRevoke? || l.Serve?
    ensures Inv(Do(s, l))
  {
    match l
    case DropCreate(id, kinds) => DropCreateInv(s, id, kinds);
    case RevokeBegin(id) => var _ := RevokeBeginInv(s, id);
    case RetireRevoke(id) => RetireInv(s, id, l);
    case DropRevoke(id, kinds) => DropRevokeInv(s, id, kinds);
    case Serve(id, slot) => ServeInv(s, id, slot);
  }

  lemma JobStepInv(s: State, l: Label)
    requires Inv(s) && Can(s, l)
    requires l.MintJob? || l.AbandonJob? || l.ApproveJob? || l.ApproveEachTime? || l.RemoveJob? || l.DropJob?
    ensures Inv(Do(s, l))
  {
    hide Inv, IdsOk;
    match l
    case MintJob(id, kind) => var _ := MintJobInv(s, id, kind);
    case AbandonJob(id) => AbandonJobInv(s, id);
    case ApproveJob(id, name, secrets, ok) => ApproveJobInv(s, id, name, secrets, ok);
    case ApproveEachTime(name, ok) => if ok { FileJobInv(s, name, Rec(NoKey, map[], 0)); }
    case RemoveJob(name, ok) => if ok { RemoveJobInv(s, name); }
    case DropJob(id, kinds) => DropJobInv(s, id, kinds);
  }

  lemma StepInv(s: State, l: Label)
    requires Inv(s) && Can(s, l)
    ensures Inv(Do(s, l))
  {
    if l.Crash? {
      CrashInv(s);
    } else if l.Load? {
      LoadInv(s, l.ledgerOk, l.jobsOk);
    } else if l.Listen? {
      ListenInv(s);
    } else if l.AtBoot? {
      BootInv(s, l.step);
    } else if l.MintJob? || l.AbandonJob? || l.ApproveJob? || l.ApproveEachTime? || l.RemoveJob? || l.DropJob? {
      JobStepInv(s, l);
    } else if l.DropCreate? || l.RevokeBegin? || l.RetireRevoke? || l.DropRevoke? || l.Serve? {
      EndStepInv(s, l);
    } else if !l.SaveJobs? {
      GrantStepInv(s, l);
    }
  }

  // ---- every run ----

  ghost predicate Run(s: State, labels: seq<Label>, t: State)
    decreases |labels|
  {
    if labels == [] then t == s else Can(s, labels[0]) && Run(Do(s, labels[0]), labels[1..], t)
  }

  ghost predicate Reachable(s: State) {
    exists labels :: Run(INIT, labels, s)
  }

  lemma {:induction false} RunInv(s: State, labels: seq<Label>, t: State)
    requires Inv(s) && Run(s, labels, t)
    ensures Inv(t)
    decreases |labels|
  {
    if labels != [] {
      StepInv(s, labels[0]);
      RunInv(Do(s, labels[0]), labels[1..], t);
    }
  }

  lemma ReachableInv(s: State)
    requires Reachable(s)
    ensures Inv(s)
  {
    var labels :| Run(INIT, labels, s);
    InitInv();
    RunInv(INIT, labels, s);
  }

  /** Every approved secret of every grant on file is there, and opens with a stored key of the kind its entry
      names to the DEK that was approved. Opening is excused only once the grant's revoke, or the withdrawal of
      its failed create, has begun. */
  ghost predicate GrantsOpen(d: Disk, h: Hist) {
    && (forall i :: i in d.ledger ==> i in h.approved && d.ledger[i].entries.Keys == h.approved[i].Keys)
    && forall i, slot :: i in d.ledger && i !in h.ended && slot in h.approved[i] ==>
         Opens(d.keys, d.ledger[i], slot) == Some(h.approved[i][slot])
  }

  /** The same of the jobs with a key, with nothing excused; one that asks each time holds nothing. */
  ghost predicate JobsOpen(d: Disk, h: Hist) {
    && (forall n :: n in d.jobs ==>
          if d.jobs[n].key == NoKey then d.jobs[n].entries == map[]
          else d.jobs[n].key in h.approved && d.jobs[n].entries.Keys == h.approved[d.jobs[n].key].Keys)
    && forall n, slot :: n in d.jobs && d.jobs[n].key != NoKey && slot in h.approved[d.jobs[n].key] ==>
         Opens(d.keys, d.jobs[n], slot) == Some(h.approved[d.jobs[n].key][slot])
  }

  ghost predicate NothingLost(d: Disk, h: Hist) {
    GrantsOpen(d, h) && JobsOpen(d, h)
  }

  lemma GrantsOkOpen(d: Disk, h: Hist)
    requires GrantsOk(d.keys, h, d.ledger) && NoKey !in h.grantIds
    ensures GrantsOpen(d, h)
  {
  }

  lemma JobFileOkOpen(d: Disk, h: Hist)
    requires JobFileOk(d.keys, h, d.jobs)
    ensures JobsOpen(d, h)
  {
  }

  lemma InvKeepsKeys(s: State)
    requires Inv(s)
    ensures NothingLost(s.disk, s.hist)
  {
    hide GrantsOk, JobFileOk, GrantsOpen, JobsOpen;
    GrantsOkOpen(s.disk, s.hist);
    JobFileOkOpen(s.disk, s.hist);
  }

  /** At no point is a grant's or a job's only key gone: whatever happened so far, and were the process to
      die now. */
  lemma NoLostKey(s: State)
    requires Reachable(s)
    ensures NothingLost(s.disk, s.hist)
  {
    ReachableInv(s);
    InvKeepsKeys(s);
  }

  /** Every record any run leaves on disk is sealed for one kind of key, so the start-up move never meets
      a mixed one. */
  lemma FilesAreUniform(s: State)
    requires Reachable(s)
    ensures forall i :: i in s.disk.ledger ==> Uniform(s.disk.ledger[i])
    ensures forall n :: n in s.disk.jobs ==> Uniform(s.disk.jobs[n])
  {
    ReachableInv(s);
    forall i | i in s.disk.ledger ensures Uniform(s.disk.ledger[i]) {
      assert Sound(s.hist.approved, s.disk.ledger[i]);
    }
    forall n | n in s.disk.jobs ensures Uniform(s.disk.jobs[n]) {
      assert Sound(s.hist.approved, s.disk.jobs[n]);
    }
  }
}
