/** What an approval leaves behind: each secret the human approved is sealed, reaches the file with its record,
    and is served until its grant's end begins. */
module GrantApprovals {
  import opened GrantKeys
  import opened Wrappers
  import opened GrantProtocol
  import opened GrantSafety

  /** `r` is of `id`, has an entry for each secret and no other, and each opens with the stored key to its DEK. */
  ghost predicate Holds(keys: map<Name, KeyBytes>, r: Rec, id: Id, secrets: map<Slot, Secret>) {
    && r.key == id && r.entries.Keys == secrets.Keys && r.unread == 0
    && forall slot :: slot in secrets ==>
         r.entries[slot].cls == secrets[slot].cls && Opens(keys, r, slot) == Some(secrets[slot].dek)
  }

  ghost predicate SameJobsBut(a: map<JobName, Rec>, b: map<JobName, Rec>, name: JobName) {
    forall n :: n != name ==> (n in b <==> n in a) && (n in a ==> b[n] == a[n])
  }

  // ---- jobs ----

  lemma SealHolds(keys: map<Name, KeyBytes>, id: Id, kind: Kind, secrets: map<Slot, Secret>)
    requires Name(id, kind) in keys && keys[Name(id, kind)].kind == kind
    ensures Holds(keys, SealAll(keys[Name(id, kind)], id, secrets), id, secrets)
  {
  }

  /** An approved never-ask job is on file with every secret, and the key of the job it replaces is to go. */
  lemma ApprovedJobIsFiled(s: State, id: Id, name: JobName, secrets: map<Slot, Secret>)
    requires Inv(s) && Can(s, ApproveJob(id, name, secrets, true))
    ensures var t := Do(s, ApproveJob(id, name, secrets, true));
      && name in t.disk.jobs && Holds(t.disk.keys, t.disk.jobs[name], id, secrets)
      && SameJobsBut(s.disk.jobs, t.disk.jobs, name) && t.disk.ledger == s.disk.ledger && t.disk.keys == s.disk.keys
      && (name in s.disk.jobs && s.disk.jobs[name].key != NoKey ==> s.disk.jobs[name].key in t.proc.jobDrops)
      && id !in t.proc.jobMade
  {
    hide Inv, Holds, SealAll;
    JobIsFresh(s, id);
    SealHolds(s.disk.keys, id, s.proc.jobMade[id], secrets);
    var t := s.(hist := s.hist.(approved := s.hist.approved[id := DeksOf(secrets)]),
                proc := s.proc.(jobMade := s.proc.jobMade - {id}));
    FiledJob(t, name, SealAll(s.disk.keys[Name(id, s.proc.jobMade[id])], id, secrets));
  }

  lemma FiledJob(s: State, name: JobName, r: Rec)
    ensures var t := FileJob(s, name, r);
      && t.disk.jobs == t.proc.jobs == s.proc.jobs[name := r] && t.disk.keys == s.disk.keys
      && t.disk.ledger == s.disk.ledger && t.proc.jobMade == s.proc.jobMade
      && (name in s.proc.jobs && s.proc.jobs[name].key != NoKey && s.proc.jobs[name].key != r.key ==>
            s.proc.jobs[name].key in t.proc.jobDrops)
  {
  }

  lemma JobIsFresh(s: State, id: Id)
    requires Inv(s) && id in s.proc.jobMade
    ensures s.proc.phase == Serving && (s.proc.jobsOk ==> s.proc.jobs == s.disk.jobs)
    ensures Name(id, s.proc.jobMade[id]) in s.disk.keys ==>
      s.disk.keys[Name(id, s.proc.jobMade[id])].kind == s.proc.jobMade[id]
    ensures forall n :: n in s.disk.jobs ==> s.disk.jobs[n].key != id
  {
  }

  /** One that could not be saved leaves the files as they were, and its key is to go. */
  lemma UnsavedJobLeavesNothing(s: State, id: Id, name: JobName, secrets: map<Slot, Secret>)
    requires Inv(s) && Can(s, ApproveJob(id, name, secrets, false))
    ensures var t := Do(s, ApproveJob(id, name, secrets, false));
      t.disk == s.disk && t.proc.jobs == s.proc.jobs && id in t.proc.jobDrops && id !in t.proc.jobMade
  {
  }

  /** A job approved to ask each time keeps no key that opens its secrets. */
  lemma EachTimeKeepsNoKey(s: State, name: JobName)
    requires Inv(s) && Can(s, ApproveEachTime(name, true))
    ensures var t := Do(s, ApproveEachTime(name, true));
      && name in t.disk.jobs && t.disk.jobs[name].key == NoKey && t.disk.jobs[name].entries == map[]
      && SameJobsBut(s.disk.jobs, t.disk.jobs, name)
      && (name in s.disk.jobs && s.disk.jobs[name].key != NoKey ==> s.disk.jobs[name].key in t.proc.jobDrops)
  {
    hide KeysOk, IdsOk, GrantsOk, Lacks, CacheOk, ObjsOk, CreatesOk, RevokesOk, SnapshotOk, OwnerOk, LogOk, JobPlansOk,
      Quiet, Agree, Published, Sound, Kept;
  }

  lemma RemovedJobIsGone(s: State, name: JobName)
    requires Inv(s) && Can(s, RemoveJob(name, true))
    ensures var t := Do(s, RemoveJob(name, true));
      && name !in t.disk.jobs && SameJobsBut(s.disk.jobs, t.disk.jobs, name)
      && (s.disk.jobs[name].key != NoKey ==> s.disk.jobs[name].key in t.proc.jobDrops)
  {
    hide KeysOk, IdsOk, GrantsOk, Lacks, CacheOk, ObjsOk, CreatesOk, RevokesOk, SnapshotOk, OwnerOk, LogOk, JobPlansOk,
      Quiet, Agree, Published, Sound, Kept;
  }

  // ---- grants ----

  /** A sealed grant holds every secret, and that is what is published. */
  lemma SealedGrantIsWhole(s: State, id: Id, secrets: map<Slot, Secret>)
    requires Inv(s) && Can(s, SealGrant(id, secrets))
    ensures var t := Do(s, SealGrant(id, secrets));
      && id in t.proc.creates && t.proc.creates[id].Ready? && t.disk == s.disk
      && Holds(t.disk.keys, t.proc.creates[id].rec, id, secrets)
      && Can(t, Publish(id)) && Has(Mem(Do(t, Publish(id)).proc), id, t.proc.creates[id].rec)
  {
    hide Holds, SealAll, GrantsOk, RevokesOk, SnapshotOk, OwnerOk, LogOk, JobFileOk, JobPlansOk, CacheOk, ObjsOk,
      Agree;
    SealHolds(s.disk.keys, id, s.proc.creates[id].kind, secrets);
  }

  /** A save a create is waiting for holds its grant, unless the grant's end has begun. Keys at hand are the
      stored ones. */
  ghost predicate Settled(s: State) {
    var p := s.proc;
    && (p.saver.Saving? && p.saver.owner.ByCreate? ==>
          p.saver.owner.id in p.saver.snapshot || p.saver.owner.id in s.hist.ended)
    && (forall i :: i in p.cached ==> i in s.hist.ended || Stored(s.disk.keys, i, p.cached[i]))
    && (forall i :: i in p.creates && p.creates[i].Ready? ==> Stored(s.disk.keys, i, p.creates[i].key))
  }

  ghost predicate Stored(keys: map<Name, KeyBytes>, id: Id, b: KeyBytes) {
    Name(id, b.kind) in keys && keys[Name(id, b.kind)] == b
  }

  /** But for keys of grants that have ended, what `s` rests on is there in `t`. */
  ghost predicate Still(s: State, t: State) {
    && s.hist.ended <= t.hist.ended
    && forall n :: n in s.disk.keys && n.id !in t.hist.ended ==> n in t.disk.keys && t.disk.keys[n] == s.disk.keys[n]
  }

  ghost predicate SameHeld(p: Proc, q: Proc) {
    && (q.saver == p.saver || q.saver.Free?)
    && (forall i :: i in q.cached ==> i in p.cached && q.cached[i] == p.cached[i])
    && forall i :: i in q.creates && q.creates[i].Ready? ==> i in p.creates && q.creates[i] == p.creates[i]
  }

  lemma StaysSettled(s: State, t: State)
    requires Settled(s) && Still(s, t) && SameHeld(s.proc, t.proc)
    requires forall i :: i in t.proc.creates && t.proc.creates[i].Ready? ==> i !in t.hist.ended
    ensures Settled(t)
  {
  }

  lemma MintStill(s: State, id: Id, kind: Kind)
    requires IdsOk(s.disk.keys, s.hist) && Can(s, Mint(id, kind))
    ensures Still(s, Do(s, Mint(id, kind))) && SameHeld(s.proc, Do(s, Mint(id, kind)).proc)
  {
  }

  /** Nothing but the history, and stages without a key, are any different. */
  lemma StagesStill(s: State, t: State)
    requires t.disk == s.disk && s.hist.ended <= t.hist.ended && t.proc.saver == s.proc.saver
    requires forall i :: i in t.proc.cached ==> i in s.proc.cached && t.proc.cached[i] == s.proc.cached[i]
    requires forall i :: i in t.proc.creates && t.proc.creates[i].Ready? ==>
      i in s.proc.creates && t.proc.creates[i] == s.proc.creates[i]
    ensures Still(s, t) && SameHeld(s.proc, t.proc)
  {
  }

  lemma AbortStill(s: State, id: Id)
    requires Can(s, Abort(id))
    ensures Still(s, Do(s, Abort(id))) && SameHeld(s.proc, Do(s, Abort(id)).proc)
  {
    hide Still, SameHeld;
    StagesStill(s, Do(s, Abort(id)));
  }

  lemma UnpublishStill(s: State, id: Id)
    requires Can(s, Unpublish(id))
    ensures Still(s, Do(s, Unpublish(id))) && SameHeld(s.proc, Do(s, Unpublish(id)).proc)
  {
    hide Still, SameHeld, Published;
    StagesStill(s, Do(s, Unpublish(id)));
  }

  lemma RetireStill(s: State, id: Id, l: Label)
    requires Can(s, l) && (l == RetireCreate(id) || l == RetireRevoke(id))
    ensures Still(s, Do(s, l)) && SameHeld(s.proc, Do(s, l).proc)
  {
    hide Still, SameHeld;
    StagesStill(s, Do(s, l));
  }

  lemma RevokeStill(s: State, id: Id)
    requires Can(s, RevokeBegin(id))
    ensures Still(s, Do(s, RevokeBegin(id))) && SameHeld(s.proc, Do(s, RevokeBegin(id)).proc)
  {
    hide Still, SameHeld, Published;
    StagesStill(s, Do(s, RevokeBegin(id)));
  }

  /** A key delete of what has ended. */
  lemma DropStill(s: State, id: Id, kinds: set<Kind>)
    requires id in s.hist.ended
    ensures Still(s, DropBytes(s, id, kinds)) && SameHeld(s.proc, DropBytes(s, id, kinds).proc)
  {
  }

  lemma DropsStill(s: State, l: Label, id: Id, kinds: set<Kind>)
    requires Can(s, l) && id in s.hist.ended
    requires l == DropCreate(id, kinds) || l == DropRevoke(id, kinds) || l == DropJob(id, kinds)
    ensures Still(s, Do(s, l)) && SameHeld(s.proc, Do(s, l).proc)
  {
    hide Published, KeyGone, BytesOf;
    DropStill(s, id, kinds);
  }

  lemma DroppedHaveEnded(s: State, l: Label)
    requires Inv(s) && Can(s, l) && (l.DropCreate? || l.DropRevoke? || l.DropJob?)
    ensures l.id in s.hist.ended
  {
    hide GrantsOk, SnapshotOk, LogOk, CacheOk, JobFileOk, OwnerOk, Lacks, KeysOk, ObjsOk, Quiet, Agree, Published;
  }

  lemma ListenStill(s: State)
    requires Can(s, Listen)
    ensures Still(s, Do(s, Listen)) && SameHeld(s.proc, Do(s, Listen).proc)
  {
  }

  lemma SaveJobsStill(s: State, ok: bool)
    requires Can(s, SaveJobs(ok))
    ensures Still(s, Do(s, SaveJobs(ok))) && SameHeld(s.proc, Do(s, SaveJobs(ok)).proc)
  {
  }

  lemma ReleasedStill(s: State, wrote: bool)
    ensures var t := Released(s, wrote);
      Still(s, t) && SameHeld(s.proc, t.proc) && t.proc.saver.Free? && t.proc.creates == s.proc.creates
  {
  }

  lemma CreatesStill(s: State, t: State, creates: map<Id, CStage>)
    requires Still(s, t) && SameHeld(s.proc, t.proc)
    requires forall i :: i in creates && creates[i].Ready? ==> i in t.proc.creates && creates[i] == t.proc.creates[i]
    ensures var u := t.(proc := t.proc.(creates := creates)); Still(s, u) && SameHeld(s.proc, u.proc)
  {
  }

  lemma RevokedStill(s: State, t: State, revokes: map<Id, RStage>, erased: set<Id>)
    requires Still(s, t) && SameHeld(s.proc, t.proc)
    ensures var u := t.(proc := t.proc.(revokes := revokes), hist := t.hist.(erased := erased));
      Still(s, u) && SameHeld(s.proc, u.proc)
  {
  }

  lemma SaveStill(s: State, ok: bool)
    requires Can(s, SaveEnd(ok))
    ensures Still(s, Do(s, SaveEnd(ok))) && SameHeld(s.proc, Do(s, SaveEnd(ok)).proc)
  {
    hide Still, SameHeld, Released;
    var t := Released(s, ok && s.proc.ledgerOk);
    ReleasedStill(s, ok && s.proc.ledgerOk);
    match s.proc.saver.owner
    case ByServe =>
    case ByCreate(id) =>
      CreatesStill(s, t, if ok then s.proc.creates - {id} else s.proc.creates[id := Failed]);
    case ByRevoke(id) =>
      RevokedStill(s, t, s.proc.revokes - {id}, t.hist.erased);
      RevokedStill(s, t, s.proc.revokes - {id}, t.hist.erased + {id});
  }

  lemma MintJobStill(s: State, id: Id, kind: Kind)
    requires IdsOk(s.disk.keys, s.hist) && Can(s, MintJob(id, kind))
    ensures Still(s, Do(s, MintJob(id, kind))) && SameHeld(s.proc, Do(s, MintJob(id, kind)).proc)
  {
  }

  lemma AbandonStill(s: State, id: Id)
    requires Can(s, AbandonJob(id))
    ensures Still(s, Do(s, AbandonJob(id))) && SameHeld(s.proc, Do(s, AbandonJob(id)).proc)
  {
    hide Still, SameHeld;
    StagesStill(s, Do(s, AbandonJob(id)));
  }

  lemma FileJobStill(s: State, name: JobName, r: Rec)
    ensures Still(s, FileJob(s, name, r)) && SameHeld(s.proc, FileJob(s, name, r).proc)
  {
  }

  lemma JobListStill(s: State, l: Label)
    requires Can(s, l) && (l.ApproveJob? || l.ApproveEachTime? || l.RemoveJob?)
    ensures Still(s, Do(s, l)) && SameHeld(s.proc, Do(s, l).proc)
  {
    match l
    case ApproveJob(id, name, secrets, ok) =>
      var key := s.disk.keys[Name(id, s.proc.jobMade[id])];
      var t := s.(hist := s.hist.(approved := s.hist.approved[id := DeksOf(secrets)]),
                  proc := s.proc.(jobMade := s.proc.jobMade - {id}));
      FileJobStill(t, name, SealAll(key, id, secrets));
    case ApproveEachTime(name, ok) => FileJobStill(s, name, Rec(NoKey, map[], 0));
    case RemoveJob(name, ok) =>
  }

  /** Before the service listens nothing is at hand, and after a crash nothing is. */
  lemma NothingAtHand(s: State, l: Label)
    requires Inv(s) && Can(s, l) && (l.Crash? || l.Load? || l.AtBoot?)
    ensures var q := Do(s, l).proc; q.saver.Free? && q.cached == map[] && q.creates == map[]
  {
    hide GrantsOk, CreatesOk, RevokesOk, SnapshotOk, OwnerOk, LogOk, JobFileOk, JobPlansOk, Agree, Published, ObjsOk;
  }

  lemma SealSettled(s: State, id: Id, secrets: map<Slot, Secret>)
    requires Inv(s) && Settled(s) && Can(s, SealGrant(id, secrets))
    ensures Settled(Do(s, SealGrant(id, secrets)))
  {
    hide GrantsOk, CreatesOk, RevokesOk, SnapshotOk, OwnerOk, LogOk, CacheOk, ObjsOk, JobFileOk, Agree, Published;
  }

  lemma PublishSettled(s: State, id: Id)
    requires Settled(s) && Can(s, Publish(id))
    ensures Settled(Do(s, Publish(id)))
  {
  }

  lemma SaveBeginSettled(s: State, owner: Owner)
    requires Inv(s) && Settled(s) && Can(s, SaveBegin(owner))
    ensures Settled(Do(s, SaveBegin(owner)))
  {
    hide GrantsOk, RevokesOk, SnapshotOk, OwnerOk, LogOk, CacheOk, JobFileOk, Agree, KeysOk;
  }

  lemma ServeSettled(s: State, id: Id, slot: Slot)
    requires Inv(s) && Settled(s) && Can(s, Serve(id, slot))
    ensures Settled(Do(s, Serve(id, slot)))
  {
    hide IdsOk, GrantsOk, Lacks, Agree, CreatesOk, RevokesOk, SnapshotOk, OwnerOk, LogOk, JobFileOk, JobPlansOk, Quiet,
      Published, ObjsOk, CacheOk;
  }

  lemma ReadyIsLive(s: State)
    requires Inv(s)
    ensures forall i :: i in s.proc.creates && s.proc.creates[i].Ready? ==> i !in s.hist.ended
  {
    hide GrantsOk, RevokesOk, SnapshotOk, OwnerOk, LogOk, CacheOk, ObjsOk, JobFileOk, JobPlansOk, Agree, KeysOk, IdsOk,
      Published;
  }

  lemma SettledStep(s: State, l: Label)
    requires Inv(s) && Settled(s) && Can(s, l)
    ensures Settled(Do(s, l))
  {
    hide Inv, Do, Can, Still, SameHeld;
    if l.SealGrant? {
      SealSettled(s, l.id, l.secrets);
    } else if l.Publish? {
      PublishSettled(s, l.id);
    } else if l.SaveBegin? {
      SaveBeginSettled(s, l.owner);
    } else if l.Serve? {
      ServeSettled(s, l.id, l.slot);
    } else if l.Crash? || l.Load? || l.AtBoot? {
      NothingAtHand(s, l);
    } else {
      OtherStill(s, l);
      StepInv(s, l);
      ReadyIsLive(Do(s, l));
      StaysSettled(s, Do(s, l));
    }
  }

  lemma IdsAreOk(s: State)
    requires Inv(s)
    ensures IdsOk(s.disk.keys, s.hist)
  {
  }

  lemma OtherStill(s: State, l: Label)
    requires Inv(s) && Can(s, l)
    requires !l.SealGrant? && !l.Publish? && !l.SaveBegin? && !l.Serve? && !l.Crash? && !l.Load? && !l.AtBoot?
    ensures Still(s, Do(s, l)) && SameHeld(s.proc, Do(s, l).proc)
  {
    hide Inv, Do, Can, Still, SameHeld, IdsOk;
    if l.DropCreate? || l.DropRevoke? || l.DropJob? {
      DroppedHaveEnded(s, l);
      DropsStill(s, l, l.id, l.kinds);
    } else if l.Mint? || l.MintJob? {
      IdsAreOk(s);
      if l.Mint? { MintStill(s, l.id, l.kind); } else { MintJobStill(s, l.id, l.kind); }
    } else if l.Abort? {
      AbortStill(s, l.id);
    } else if l.Unpublish? {
      UnpublishStill(s, l.id);
    } else if l.RetireCreate? || l.RetireRevoke? {
      RetireStill(s, l.id, l);
    } else if l.RevokeBegin? {
      RevokeStill(s, l.id);
    } else if l.Listen? {
      ListenStill(s);
    } else if l.SaveJobs? {
      SaveJobsStill(s, l.ok);
    } else if l.SaveEnd? {
      SaveStill(s, l.ok);
    } else if l.AbandonJob? {
      AbandonStill(s, l.id);
    } else {
      JobListStill(s, l);
    }
  }

  lemma {:induction false} RunSettled(s: State, labels: seq<Label>, t: State)
    requires Inv(s) && Settled(s) && Run(s, labels, t)
    ensures Settled(t)
    decreases |labels|
  {
    if labels != [] {
      SettledStep(s, labels[0]);
      StepInv(s, labels[0]);
      RunSettled(Do(s, labels[0]), labels[1..], t);
    }
  }

  lemma ReachedIsSettled(s: State)
    requires Reachable(s)
    ensures Inv(s) && Settled(s)
  {
    var labels :| Run(INIT, labels, s);
    InitInv();
    RunInv(INIT, labels, s);
    RunSettled(INIT, labels, s);
  }

  /** A create that was told its save is done is on file with every approved secret, each opening to its DEK,
      unless somebody has begun to revoke it meanwhile. */
  lemma CreatedIsOnFile(s: State, id: Id)
    requires Reachable(s) && Can(s, SaveEnd(true)) && s.proc.saver.owner == ByCreate(id) && id !in s.hist.ended
    ensures var t := Do(s, SaveEnd(true));
      && id in t.disk.ledger && id in t.hist.approved && t.disk.ledger[id].entries.Keys == t.hist.approved[id].Keys
      && forall slot :: slot in t.hist.approved[id] ==>
           Opens(t.disk.keys, t.disk.ledger[id], slot) == Some(t.hist.approved[id][slot])
  {
    hide Inv, Settled, Reachable;
    ReachedIsSettled(s);
    SaverFacts(s);
    StepInv(s, SaveEnd(true));
    InvKeepsKeys(Do(s, SaveEnd(true)));
    SavedHasIt(s, id);
  }

  lemma SavedHasIt(s: State, id: Id)
    requires Settled(s) && s.proc.ledgerOk && Can(s, SaveEnd(true)) && s.proc.saver.owner == ByCreate(id)
    requires id !in s.hist.ended
    ensures var t := Do(s, SaveEnd(true)); id in t.disk.ledger && t.hist.ended == s.hist.ended
  {
  }

  /** Until its end begins, a grant that can be served yields just the DEK that was approved. */
  lemma LiveGrantServes(s: State, id: Id, slot: Slot)
    requires Reachable(s) && Can(s, Serve(id, slot)) && id !in s.hist.ended
    ensures id in s.hist.approved && slot in s.hist.approved[id]
    ensures Do(s, Serve(id, slot)).served == s.served + [Served(id, slot, s.hist.approved[id][slot])]
  {
    hide Reachable;
    ReachedIsSettled(s);
    ServesApprovedDek(s, id, slot);
  }

  lemma ServesApprovedDek(s: State, id: Id, slot: Slot)
    requires Inv(s) && Settled(s) && Can(s, Serve(id, slot)) && id !in s.hist.ended
    ensures id in s.hist.approved && slot in s.hist.approved[id]
    ensures Do(s, Serve(id, slot)).served == s.served + [Served(id, slot, s.hist.approved[id][slot])]
  {
    hide IdsOk, Lacks, Agree, CacheOk, ObjsOk, CreatesOk, RevokesOk, SnapshotOk, OwnerOk, LogOk, JobFileOk, JobPlansOk,
      Quiet, Published;
    assert Sound(s.hist.approved, s.proc.objs[id]) && Kept(s.disk.keys, s.proc.objs[id]);
  }

  /** And it can be served: every approved secret of it has an entry whose key is stored. */
  lemma LiveGrantCanServe(s: State, id: Id, slot: Slot)
    requires Reachable(s) && s.proc.phase == Serving && id in s.proc.standing && id !in s.hist.ended
    requires id in s.hist.approved && slot in s.hist.approved[id]
    ensures Can(s, Serve(id, slot))
  {
    ReachableInv(s);
    assert Sound(s.hist.approved, s.proc.objs[id]) && Kept(s.disk.keys, s.proc.objs[id]);
  }

  // ---- what goes ----

  /** A key delete drops the keys of that id it reached, and nothing else. */
  lemma DropsJustThose(s: State, l: Label, id: Id, kinds: set<Kind>)
    requires Can(s, l) && (l == DropCreate(id, kinds) || l == DropRevoke(id, kinds) || l == DropJob(id, kinds))
    ensures var t := Do(s, l);
      && t.disk.ledger == s.disk.ledger && t.disk.jobs == s.disk.jobs
      && (forall n :: n in t.disk.keys <==> n in s.disk.keys && !(n.id == id && n.kind in kinds))
      && forall n :: n in t.disk.keys ==> t.disk.keys[n] == s.disk.keys[n]
  {
  }
}
