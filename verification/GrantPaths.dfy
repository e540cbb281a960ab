/** How a create, a revoke and a job's approval go by themselves: from any state their sections can be taken in turn,
    and together they do what was asked for, or undo it. */
module GrantPaths {
  import opened GrantKeys
  import opened Wrappers
  import opened GrantProtocol
  import opened GrantSafety
  import opened GrantApprovals

  lemma RunOne(s: State, l: Label)
    requires Can(s, l)
    ensures Run(s, [l], Do(s, l))
  {
    assert [l][1..] == [];
  }

  lemma RunMore(s: State, l: Label, rest: seq<Label>, t: State)
    requires Can(s, l) && Run(Do(s, l), rest, t)
    ensures Run(s, [l] + rest, t)
  {
    assert ([l] + rest)[1..] == rest;
  }

  // ---- a create ----

  lemma MintGoes(s: State, id: Id, kind: Kind) returns (t: State)
    requires Inv(s) && s.proc.phase == Serving && s.proc.ledgerOk && id.GrantId? && id !in Ids(s.hist)
    ensures Can(s, Mint(id, kind)) && t == Do(s, Mint(id, kind)) && Has(t.proc.creates, id, Minted(kind))
    ensures t.disk.keys.Keys == s.disk.keys.Keys + {Name(id, kind)} && t.disk.ledger == s.disk.ledger
    ensures t.disk.keys[Name(id, kind)].kind == kind
    ensures t.proc == s.proc.(creates := t.proc.creates) && t.hist.ended == s.hist.ended && id !in s.proc.objs
  {
    t := Do(s, Mint(id, kind));
  }

  lemma SealGoes(s: State, id: Id, secrets: map<Slot, Secret>) returns (t: State)
    requires id in s.proc.creates && s.proc.creates[id].Minted?
    requires var n := Name(id, s.proc.creates[id].kind); n in s.disk.keys && s.disk.keys[n].kind == n.kind
    ensures Can(s, SealGrant(id, secrets)) && t == Do(s, SealGrant(id, secrets))
    ensures id in t.proc.creates && t.proc.creates[id].Ready? && t.disk == s.disk && t.hist.ended == s.hist.ended
    ensures Holds(t.disk.keys, t.proc.creates[id].rec, id, secrets)
    ensures t.proc == s.proc.(creates := t.proc.creates)
  {
    t := Do(s, SealGrant(id, secrets));
    SealHolds(s.disk.keys, id, s.proc.creates[id].kind, secrets);
  }

  lemma PublishGoes(s: State, id: Id) returns (t: State)
    requires id in s.proc.creates && s.proc.creates[id].Ready?
    ensures Can(s, Publish(id)) && t == Do(s, Publish(id)) && Has(t.proc.creates, id, Recording)
    ensures t.disk == s.disk && t.hist == s.hist && Mem(t.proc) == Mem(s.proc)[id := s.proc.creates[id].rec]
    ensures t.proc.phase == s.proc.phase && t.proc.ledgerOk == s.proc.ledgerOk && t.proc.saver == s.proc.saver
  {
    t := Do(s, Publish(id));
  }

  /** A save by itself: what is published is what the file holds. */
  lemma SaveGoes(s: State, owner: Owner) returns (t: State)
    requires s.proc.phase == Serving && s.proc.saver.Free? && s.proc.ledgerOk
    requires owner.ByCreate? ==> Has(s.proc.creates, owner.id, Recording)
    requires owner.ByRevoke? ==> Has(s.proc.revokes, owner.id, Dropped)
    ensures Run(s, [SaveBegin(owner), SaveEnd(true)], t)
    ensures t.disk == s.disk.(ledger := Mem(s.proc)) && Mem(t.proc) == Mem(s.proc) && t.proc.saver.Free?
    ensures t.hist == s.hist.(erased := s.hist.erased + if owner.ByRevoke? then {owner.id} else {})
    ensures owner.ByCreate? ==> owner.id !in t.proc.creates
    ensures owner.ByRevoke? ==> owner.id !in t.proc.revokes
  {
    var s1 := SaveBegun(s, owner);
    t := SaveEnded(s1);
    RunOne(s1, SaveEnd(true));
    RunMore(s, SaveBegin(owner), [SaveEnd(true)], t);
    assert [SaveBegin(owner)] + [SaveEnd(true)] == [SaveBegin(owner), SaveEnd(true)];
  }

  lemma SaveBegun(s: State, owner: Owner) returns (t: State)
    requires s.proc.phase == Serving && s.proc.saver.Free?
    requires owner.ByCreate? ==> Has(s.proc.creates, owner.id, Recording)
    requires owner.ByRevoke? ==> Has(s.proc.revokes, owner.id, Dropped)
    ensures Can(s, SaveBegin(owner)) && t == Do(s, SaveBegin(owner))
    ensures t.disk == s.disk && t.hist == s.hist && t.proc == s.proc.(saver := t.proc.saver)
    ensures t.proc.saver.Saving? && t.proc.saver.snapshot == Mem(s.proc) && t.proc.saver.owner == owner
  {
    t := Do(s, SaveBegin(owner));
  }

  lemma SaveEnded(s: State) returns (t: State)
    requires s.proc.saver.Saving? && s.proc.ledgerOk
    ensures Can(s, SaveEnd(true)) && t == Do(s, SaveEnd(true))
    ensures t.disk == s.disk.(ledger := s.proc.saver.snapshot) && t.proc.saver.Free?
    ensures t.proc.objs == s.proc.objs && t.proc.standing == s.proc.standing
    ensures var o := s.proc.saver.owner;
      && t.hist == s.hist.(erased := s.hist.erased + if o.ByRevoke? then {o.id} else {})
      && (o.ByCreate? ==> o.id !in t.proc.creates) && (o.ByRevoke? ==> o.id !in t.proc.revokes)
  {
    t := Do(s, SaveEnd(true));
    var o := s.proc.saver.owner;
    assert s.hist.erased + {} == s.hist.erased;
    match o
    case ByServe =>
    case ByCreate(id) =>
    case ByRevoke(id) =>
  }

  /** A create with no failure and no other save under way: the grant is published, and on file with every secret. */
  lemma CreateGoes(s: State, id: Id, kind: Kind, secrets: map<Slot, Secret>) returns (t: State)
    requires Inv(s) && s.proc.phase == Serving && s.proc.ledgerOk && s.proc.saver.Free?
    requires id.GrantId? && id !in Ids(s.hist)
    ensures Run(s, [Mint(id, kind), SealGrant(id, secrets), Publish(id), SaveBegin(ByCreate(id)), SaveEnd(true)], t)
    ensures id in t.disk.ledger && Holds(t.disk.keys, t.disk.ledger[id], id, secrets)
    ensures t.disk.ledger == Mem(t.proc) == Mem(s.proc)[id := t.disk.ledger[id]]
    ensures id !in t.proc.creates && id !in t.hist.ended
  {
    hide Can, Do, Inv, Run, Holds, Published;
    NewIsNotEnded(s, id);
    var s1 := MintGoes(s, id, kind);
    var s2 := SealGoes(s1, id, secrets);
    var s3 := PublishGoes(s2, id);
    t := SaveGoes(s3, ByCreate(id));
    var save := [SaveBegin(ByCreate(id)), SaveEnd(true)];
    RunMore(s2, Publish(id), save, t);
    RunMore(s1, SealGrant(id, secrets), [Publish(id)] + save, t);
    RunMore(s, Mint(id, kind), [SealGrant(id, secrets)] + ([Publish(id)] + save), t);
    assert [Mint(id, kind)] + ([SealGrant(id, secrets)] + ([Publish(id)] + save))
        == [Mint(id, kind), SealGrant(id, secrets), Publish(id), SaveBegin(ByCreate(id)), SaveEnd(true)];
  }

  lemma NewIsNotEnded(s: State, id: Id)
    requires Inv(s) && id !in Ids(s.hist)
    ensures id !in s.hist.ended
  {
  }

  lemma FailedStep(s: State, id: Id) returns (t: State)
    requires Can(s, SaveEnd(false)) && s.proc.saver.owner == ByCreate(id)
    ensures t == Do(s, SaveEnd(false)) && Can(t, Unpublish(id)) && t.disk == s.disk
  {
    t := Do(s, SaveEnd(false));
  }

  lemma UnpublishStep(s: State, id: Id) returns (t: State)
    requires Can(s, Unpublish(id))
    ensures t == Do(s, Unpublish(id)) && Can(t, RetireCreate(id)) && id !in t.proc.standing && id in t.hist.ended
    ensures t.disk == s.disk
  {
    t := Do(s, Unpublish(id));
  }

  lemma RetireStep(s: State, id: Id) returns (t: State)
    requires Can(s, RetireCreate(id))
    ensures t == Do(s, RetireCreate(id)) && Can(t, DropCreate(id, {Keychain, Enclave}))
    ensures t.disk == s.disk && t.hist == s.hist && t.proc.standing == s.proc.standing && id in t.proc.dead
  {
    t := Do(s, RetireCreate(id));
  }

  lemma GoneStep(s: State, id: Id) returns (t: State)
    requires Can(s, DropCreate(id, {Keychain, Enclave}))
    ensures t == Do(s, DropCreate(id, {Keychain, Enclave}))
    ensures t.disk.ledger == s.disk.ledger && t.disk.jobs == s.disk.jobs && t.hist.ended == s.hist.ended
    ensures t.proc == s.proc.(creates := s.proc.creates - {id})
    ensures forall n :: n in t.disk.keys ==> n.id != id
  {
    t := Do(s, DropCreate(id, {Keychain, Enclave}));
    DropsJustThose(s, DropCreate(id, {Keychain, Enclave}), id, {Keychain, Enclave});
    forall n | n in t.disk.keys ensures n.id != id {
      assert n.kind == Keychain || n.kind == Enclave;
    }
  }

  /** A create whose save failed is taken down, retired, and its keys deleted: it leaves no grant and no key. */
  lemma FailedSaveIsUndone(s: State, id: Id) returns (t: State)
    requires Can(s, SaveEnd(false)) && s.proc.saver.owner == ByCreate(id)
    ensures Run(s, [SaveEnd(false), Unpublish(id), RetireCreate(id), DropCreate(id, {Keychain, Enclave})], t)
    ensures id !in Mem(t.proc) && id in t.proc.dead && id in t.hist.ended && id !in t.proc.creates
    ensures forall n :: n in t.disk.keys ==> n.id != id
    ensures t.disk.ledger == s.disk.ledger && t.disk.jobs == s.disk.jobs
  {
    hide Can, Do, Run;
    var s1 := FailedStep(s, id);
    var s2 := UnpublishStep(s1, id);
    var s3 := RetireStep(s2, id);
    t := GoneStep(s3, id);
    var drop := DropCreate(id, {Keychain, Enclave});
    RunOne(s3, drop);
    RunMore(s2, RetireCreate(id), [drop], t);
    RunMore(s1, Unpublish(id), [RetireCreate(id)] + [drop], t);
    RunMore(s, SaveEnd(false), [Unpublish(id)] + ([RetireCreate(id)] + [drop]), t);
    assert [SaveEnd(false)] + ([Unpublish(id)] + ([RetireCreate(id)] + [drop]))
        == [SaveEnd(false), Unpublish(id), RetireCreate(id), drop];
  }

  lemma Aborted(s: State, id: Id) returns (t: State)
    requires id in s.proc.creates && s.proc.creates[id].Minted?
    ensures Can(s, Abort(id)) && t == Do(s, Abort(id)) && Has(t.proc.creates, id, Gone)
    ensures t.disk == s.disk && id in t.hist.ended && Mem(t.proc) == Mem(s.proc)
  {
    t := Do(s, Abort(id));
  }

  /** A create that fails before it is published leaves no key of its id. */
  lemma AbortedIsUndone(s: State, id: Id) returns (t: State)
    requires id in s.proc.creates && s.proc.creates[id].Minted?
    ensures Run(s, [Abort(id), DropCreate(id, {Keychain, Enclave})], t)
    ensures id in t.hist.ended && id !in t.proc.creates && Mem(t.proc) == Mem(s.proc)
    ensures forall n :: n in t.disk.keys ==> n.id != id
    ensures t.disk.ledger == s.disk.ledger && t.disk.jobs == s.disk.jobs
  {
    hide Do, Run, Published;
    var drop := DropCreate(id, {Keychain, Enclave});
    var s1 := Aborted(s, id);
    t := GoneStep(s1, id);
    RunOne(s1, drop);
    RunMore(s, Abort(id), [drop], t);
    assert [Abort(id)] + [drop] == [Abort(id), drop];
  }

  // ---- a revoke ----

  lemma RevokeBegun(s: State, id: Id) returns (t: State)
    requires s.proc.phase == Serving && id in s.proc.standing
    ensures Can(s, RevokeBegin(id)) && t == Do(s, RevokeBegin(id)) && Has(t.proc.revokes, id, Begun)
    ensures t.disk == s.disk && Mem(t.proc) == Mem(s.proc) - {id} && t.hist.ended == s.hist.ended + {id}
    ensures t.proc.phase == s.proc.phase && t.proc.ledgerOk == s.proc.ledgerOk && t.proc.saver == s.proc.saver
  {
    t := Do(s, RevokeBegin(id));
  }

  lemma RevokeRetired(s: State, id: Id) returns (t: State)
    requires Has(s.proc.revokes, id, Begun)
    ensures Can(s, RetireRevoke(id)) && t == Do(s, RetireRevoke(id)) && Has(t.proc.revokes, id, Retired)
    ensures id in t.proc.dead && t.disk == s.disk && t.hist == s.hist && Mem(t.proc) == Mem(s.proc)
    ensures t.proc.phase == s.proc.phase && t.proc.ledgerOk == s.proc.ledgerOk && t.proc.saver == s.proc.saver
  {
    t := Do(s, RetireRevoke(id));
  }

  lemma RevokeDropped(s: State, id: Id) returns (t: State)
    requires Has(s.proc.revokes, id, Retired) && id in s.proc.dead
    ensures Can(s, DropRevoke(id, {Keychain, Enclave})) && t == Do(s, DropRevoke(id, {Keychain, Enclave}))
    ensures Has(t.proc.revokes, id, Dropped) && id in t.proc.dead && Mem(t.proc) == Mem(s.proc)
    ensures t.proc.phase == s.proc.phase && t.proc.ledgerOk == s.proc.ledgerOk && t.proc.saver == s.proc.saver
    ensures t.hist.ended == s.hist.ended && forall n :: n in t.disk.keys ==> n.id != id
  {
    t := Do(s, DropRevoke(id, {Keychain, Enclave}));
    DropsJustThose(s, DropRevoke(id, {Keychain, Enclave}), id, {Keychain, Enclave});
    forall n | n in t.disk.keys ensures n.id != id {
      assert n.kind == Keychain || n.kind == Enclave;
    }
  }

  /** A revoke with no failure and no other save under way: the grant is retired, off the file, and keyless. */
  lemma RevokeGoes(s: State, id: Id) returns (t: State)
    requires s.proc.phase == Serving && s.proc.ledgerOk && s.proc.saver.Free? && id in s.proc.standing
    ensures Run(s, [RevokeBegin(id), RetireRevoke(id), DropRevoke(id, {Keychain, Enclave}), SaveBegin(ByRevoke(id)),
        SaveEnd(true)], t)
    ensures t.disk.ledger == Mem(t.proc) == Mem(s.proc) - {id}
    ensures id in t.hist.erased && id in t.hist.ended && id !in t.proc.revokes
    ensures forall n :: n in t.disk.keys ==> n.id != id
  {
    hide Can, Do, Run, Published;
    var s1 := RevokeBegun(s, id);
    var s2 := RevokeRetired(s1, id);
    var s3 := RevokeDropped(s2, id);
    t := SaveGoes(s3, ByRevoke(id));
    var save, both := [SaveBegin(ByRevoke(id)), SaveEnd(true)], {Keychain, Enclave};
    RunMore(s2, DropRevoke(id, both), save, t);
    RunMore(s1, RetireRevoke(id), [DropRevoke(id, both)] + save, t);
    RunMore(s, RevokeBegin(id), [RetireRevoke(id)] + ([DropRevoke(id, both)] + save), t);
    assert [RevokeBegin(id)] + ([RetireRevoke(id)] + ([DropRevoke(id, both)] + save))
        == [RevokeBegin(id), RetireRevoke(id), DropRevoke(id, both), SaveBegin(ByRevoke(id)), SaveEnd(true)];
  }

  // ---- a job ----

  lemma MintJobGoes(s: State, id: Id, kind: Kind) returns (t: State)
    requires Inv(s) && s.proc.phase == Serving && id.JobId? && id !in Ids(s.hist)
    ensures Can(s, MintJob(id, kind)) && t == Do(s, MintJob(id, kind)) && Inv(t)
    ensures id in t.proc.jobMade && t.proc.jobMade[id] == kind && Name(id, kind) in t.disk.keys
    ensures t.proc.jobsOk == s.proc.jobsOk && t.proc.phase == s.proc.phase
    ensures t.disk.jobs == s.disk.jobs && t.disk.ledger == s.disk.ledger
  {
    t := Do(s, MintJob(id, kind));
    var _ := MintJobInv(s, id, kind);
  }

  /** A never-ask job's approval with no failure: its key is made, and it is on file with every secret. */
  lemma JobGoes(s: State, id: Id, kind: Kind, name: JobName, secrets: map<Slot, Secret>) returns (t: State)
    requires Inv(s) && s.proc.phase == Serving && s.proc.jobsOk && id.JobId? && id !in Ids(s.hist)
    ensures Run(s, [MintJob(id, kind), ApproveJob(id, name, secrets, true)], t)
    ensures name in t.disk.jobs && Holds(t.disk.keys, t.disk.jobs[name], id, secrets)
    ensures SameJobsBut(s.disk.jobs, t.disk.jobs, name) && t.disk.ledger == s.disk.ledger
    ensures name in s.disk.jobs && s.disk.jobs[name].key != NoKey ==>
      Can(t, DropJob(s.disk.jobs[name].key, {Keychain, Enclave}))
  {
    hide Do, Inv, Run, Holds, SameJobsBut;
    var s1 := MintJobGoes(s, id, kind);
    var l := ApproveJob(id, name, secrets, true);
    ApprovedJobIsFiled(s1, id, name, secrets);
    t := Do(s1, l);
    RunOne(s1, l);
    RunMore(s, MintJob(id, kind), [l], t);
    assert [MintJob(id, kind)] + [l] == [MintJob(id, kind), l];
  }

  /** A job can be removed whenever it is there, and then its key can be dropped, of both kinds. */
  lemma RemoveJobGoes(s: State, name: JobName) returns (t: State)
    requires Inv(s) && s.proc.phase == Serving && s.proc.jobsOk && name in s.disk.jobs && s.disk.jobs[name].key != NoKey
    ensures Run(s, [RemoveJob(name, true), DropJob(s.disk.jobs[name].key, {Keychain, Enclave})], t)
    ensures name !in t.disk.jobs && SameJobsBut(s.disk.jobs, t.disk.jobs, name)
    ensures forall n :: n in t.disk.keys ==> n.id != s.disk.jobs[name].key
  {
    hide Do, Run, SameJobsBut, KeysOk, IdsOk, GrantsOk, Lacks, CacheOk, ObjsOk, CreatesOk, RevokesOk, SnapshotOk,
      OwnerOk, LogOk, JobPlansOk, JobFileOk, Quiet, Agree, Published;
    var id := s.disk.jobs[name].key;
    var drop := DropJob(id, {Keychain, Enclave});
    RemovedJobIsGone(s, name);
    var s1 := Do(s, RemoveJob(name, true));
    t := Do(s1, drop);
    DropsJustThose(s1, drop, id, {Keychain, Enclave});
    forall n | n in t.disk.keys ensures n.id != id {
      assert n.kind == Keychain || n.kind == Enclave;
    }
    RunOne(s1, drop);
    RunMore(s, RemoveJob(name, true), [drop], t);
    assert [RemoveJob(name, true)] + [drop] == [RemoveJob(name, true), drop];
  }

  lemma Abandoned(s: State, id: Id) returns (t: State)
    requires id in s.proc.jobMade
    ensures Can(s, AbandonJob(id)) && t == Do(s, AbandonJob(id)) && id in t.proc.jobDrops && id !in t.proc.jobMade
    ensures t.disk == s.disk
  {
    t := Do(s, AbandonJob(id));
  }

  /** An approval that fails before the job is filed leaves no key of its id, and the files as they were. */
  lemma AbandonedJobIsUndone(s: State, id: Id) returns (t: State)
    requires id in s.proc.jobMade
    ensures Run(s, [AbandonJob(id), DropJob(id, {Keychain, Enclave})], t)
    ensures id !in t.proc.jobMade && id !in t.proc.jobDrops
    ensures forall n :: n in t.disk.keys ==> n.id != id
    ensures t.disk.ledger == s.disk.ledger && t.disk.jobs == s.disk.jobs
  {
    hide Run;
    var drop := DropJob(id, {Keychain, Enclave});
    var s1 := Abandoned(s, id);
    t := Do(s1, drop);
    DropsJustThose(s1, drop, id, {Keychain, Enclave});
    forall n | n in t.disk.keys ensures n.id != id {
      assert n.kind == Keychain || n.kind == Enclave;
    }
    RunOne(s1, drop);
    RunMore(s, AbandonJob(id), [drop], t);
    assert [AbandonJob(id)] + [drop] == [AbandonJob(id), drop];
  }
}
