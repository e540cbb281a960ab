/** What runs of the protocol cannot do: undo a revoke, write an older picture over a newer one, or
    hand out anything but the approved DEK. */
module GrantRuns {
  import opened GrantKeys
  import opened GrantProtocol
  import opened GrantFrames
  import opened GrantSafety

  // ---- a revoke is final ----

  /** A revoked grant whose key delete or whose ledger write took effect. */
  predicate Over(h: Hist, id: Id) {
    id in h.destroyed || id in h.erased
  }

  /** A grant whose copies are all under destroyed keys opens nothing, whatever key is loaded for it;
      one whose record was erased is retired, or is not in this process at all. */
  lemma ServeOver(s: State, id: Id, slot: Slot)
    requires Inv(s) && Can(s, Serve(id, slot)) && Over(s.hist, id)
    ensures Do(s, Serve(id, slot)).served == s.served
  {
    hide IdsOk, Lacks, Agree, CreatesOk, RevokesOk, SnapshotOk, OwnerOk, LogOk, JobFileOk, JobPlansOk, Quiet, Mem;
    var e := s.proc.objs[id].entries[slot];
    assert Shut(s.hist.shredded, s.proc.objs[id]);
    assert KeyFor(s, id, e) !in s.hist.shredded;
  }

  lemma OverStep(s: State, l: Label, id: Id)
    requires Inv(s) && Can(s, l) && Over(s.hist, id)
    ensures Over(Do(s, l).hist, id) && ServedTo(Do(s, l).served, id) == ServedTo(s.served, id)
  {
    HistGrows(s, l);
    if l.Serve? && l.id == id {
      ServeOver(s, id, l.slot);
    } else if l.Serve? {
      ServeOther(s, l.id, l.slot, id);
    }
  }

  lemma {:induction false} OverRun(s: State, labels: seq<Label>, t: State, id: Id)
    requires Inv(s) && Run(s, labels, t) && Over(s.hist, id)
    ensures Over(t.hist, id) && ServedTo(t.served, id) == ServedTo(s.served, id)
    decreases |labels|
  {
    if labels != [] {
      OverStep(s, labels[0], id);
      StepInv(s, labels[0]);
      OverRun(Do(s, labels[0]), labels[1..], t, id);
    }
  }

  lemma RetiredStep(s: State, l: Label, id: Id)
    requires Inv(s) && Can(s, l) && id in s.proc.dead && !l.Crash?
    ensures id in Do(s, l).proc.dead && ServedTo(Do(s, l).served, id) == ServedTo(s.served, id)
  {
    HistGrows(s, l);
    if l.Serve? {
      ServeOther(s, l.id, l.slot, id);
    }
  }

  /** No serve opens a retired grant's copy for the rest of the process, a serve that checked it was
      live before the revoke included. */
  lemma {:induction false} RetiredRun(s: State, labels: seq<Label>, t: State, id: Id)
    requires Inv(s) && Run(s, labels, t) && id in s.proc.dead && Crash !in labels
    ensures id in t.proc.dead && ServedTo(t.served, id) == ServedTo(s.served, id)
    decreases |labels|
  {
    if labels != [] {
      RetiredStep(s, labels[0], id);
      StepInv(s, labels[0]);
      RetiredRun(Do(s, labels[0]), labels[1..], t, id);
    }
  }

  /** The key delete of a revoke takes effect when it reaches the kind the grant's copies are sealed
      for; what the other kind's half did does not matter. */
  lemma KeyDeleteIsFinal(s: State, id: Id, kinds: set<Kind>)
    requires Inv(s) && Can(s, DropRevoke(id, kinds))
    requires forall slot :: slot in s.proc.objs[id].entries ==> s.proc.objs[id].entries[slot].wrap in kinds
    ensures Over(Do(s, DropRevoke(id, kinds)).hist, id)
  {
    var r := s.proc.objs[id];
    forall slot | slot in r.entries ensures Name(r.key, r.entries[slot].wrap) in Names(id, kinds) {
    }
    assert KeyGone(DropBytes(s, id, kinds).disk.keys, r);
  }

  lemma LedgerWriteIsFinal(s: State, id: Id)
    requires Inv(s) && Can(s, SaveEnd(true)) && s.proc.ledgerOk && s.proc.saver.owner == ByRevoke(id)
    ensures Over(Do(s, SaveEnd(true)).hist, id)
  {
  }

  /** `revokeStanding` has returned: the grant is retired here, and its key or its record is gone.
      From then on, in this process and in every later one, no serve yields any of its DEKs. */
  lemma RevokeIsFinal(s: State, labels: seq<Label>, t: State, id: Id)
    requires Reachable(s) && Run(s, labels, t)
    requires Over(s.hist, id) || (id in s.proc.dead && Crash !in labels)
    ensures ServedTo(t.served, id) == ServedTo(s.served, id)
  {
    ReachableInv(s);
    if Over(s.hist, id) { OverRun(s, labels, t, id); } else { RetiredRun(s, labels, t, id); }
  }

  /** A record a revoke erased is in no file, no snapshot on its way to one, and no published grant,
      so no save that was coalesced, queued or in flight brings it back. */
  lemma NeverResurrected(s: State, labels: seq<Label>, t: State, id: Id)
    requires Reachable(s) && Run(s, labels, t) && id in s.hist.erased
    ensures id !in t.disk.ledger && id !in t.proc.standing
    ensures t.proc.saver.Saving? ==> id !in t.proc.saver.snapshot
  {
    ReachableInv(s);
    ErasedRun(s, labels, t, id);
    RunInv(s, labels, t);
  }

  lemma {:induction false} ErasedRun(s: State, labels: seq<Label>, t: State, id: Id)
    requires Run(s, labels, t) && id in s.hist.erased
    ensures id in t.hist.erased
    decreases |labels|
  {
    if labels != [] {
      HistGrows(s, labels[0]);
      ErasedRun(Do(s, labels[0]), labels[1..], t, id);
    }
  }

  // ---- the ledger file ----

  lemma {:induction false} LogRun(s: State, labels: seq<Label>, t: State)
    requires Inv(s) && Run(s, labels, t) && s.proc.phase != Down && Crash !in labels
    ensures s.proc.log <= t.proc.log && s.proc.written <= t.proc.written && t.proc.phase != Down
    decreases |labels|
  {
    if labels != [] {
      LogStep(s, labels[0]);
      LogRun(Do(s, labels[0]), labels[1..], t);
    }
  }

  lemma LogStep(s: State, l: Label)
    requires Inv(s) && Can(s, l) && s.proc.phase != Down && l != Crash
    ensures var t := Do(s, l);
      Inv(t) && t.proc.phase != Down && s.proc.log <= t.proc.log && s.proc.written <= t.proc.written
  {
    LogGrows(s, l);
    StepInv(s, l);
  }

  lemma FileIsLogged(s: State)
    requires Inv(s) && s.proc.phase != Down && s.proc.ledgerOk
    ensures 0 <= s.proc.written < |s.proc.log| && s.disk.ledger == s.proc.log[s.proc.written]
    ensures Mem(s.proc) == s.proc.log[|s.proc.log| - 1]
  {
  }

  /** Within one process the ledger file always is one of the values the published grants have had,
      and only ever moves on to a later one. */
  lemma SnapshotsReachDiskInOrder(s: State, labels: seq<Label>, t: State)
    requires Reachable(s) && Run(s, labels, t)
    requires s.proc.phase != Down && s.proc.ledgerOk && t.proc.ledgerOk && Crash !in labels
    ensures 0 <= s.proc.written <= t.proc.written < |t.proc.log| && s.proc.log <= t.proc.log
    ensures s.disk.ledger == t.proc.log[s.proc.written] && t.disk.ledger == t.proc.log[t.proc.written]
    ensures Mem(t.proc) == t.proc.log[|t.proc.log| - 1]
  {
    ReachableInv(s);
    LogRun(s, labels, t);
    RunInv(s, labels, t);
    FileIsLogged(s);
    FileIsLogged(t);
  }

  // ---- what a serve hands out ----

  ghost predicate AllApproved(approved: Approved, served: seq<Served>) {
    forall k :: 0 <= k < |served| ==>
      var y := served[k];
      y.id in approved && y.slot in approved[y.id] && y.dek == approved[y.id][y.slot]
  }

  lemma ServeApproved(s: State, l: Label)
    requires Inv(s) && Can(s, l) && AllApproved(s.hist.approved, s.served)
    ensures AllApproved(Do(s, l).hist.approved, Do(s, l).served)
  {
    hide Inv, HistLater;
    NothingApprovedYet(s);
    ApprovedStays(s, l);
    if l.Serve? {
      ServesApproved(s, l.id, l.slot);
    } else {
      ServesNone(s, l);
    }
  }

  lemma NothingApprovedYet(s: State)
    requires Inv(s)
    ensures forall i :: i in s.proc.creates && s.proc.creates[i].Minted? ==> i !in s.hist.approved
    ensures forall i :: i in s.proc.jobMade ==> i !in s.hist.approved
  {
  }

  lemma ServesNone(s: State, l: Label)
    requires Can(s, l) && !l.Serve?
    ensures Do(s, l).served == s.served
  {
    hide Do;
    HistGrows(s, l);
  }

  lemma ServesApproved(s: State, id: Id, slot: Slot)
    requires Inv(s) && Can(s, Serve(id, slot)) && AllApproved(s.hist.approved, s.served)
    ensures AllApproved(s.hist.approved, Do(s, Serve(id, slot)).served)
  {
    hide KeysOk, IdsOk, Lacks, Agree, CacheOk, ObjsOk, CreatesOk, RevokesOk, SnapshotOk, OwnerOk, LogOk, JobFileOk,
      JobPlansOk, Quiet, Mem;
    assert Sound(s.hist.approved, s.proc.objs[id]);
  }

  lemma {:induction false} ServedRun(s: State, labels: seq<Label>, t: State)
    requires Inv(s) && Run(s, labels, t) && AllApproved(s.hist.approved, s.served)
    ensures AllApproved(t.hist.approved, t.served)
    decreases |labels|
  {
    if labels != [] {
      ServeApproved(s, labels[0]);
      StepInv(s, labels[0]);
      ServedRun(Do(s, labels[0]), labels[1..], t);
    }
  }

  /** Every DEK any serve ever handed out is the one the human approved for that grant and secret. */
  lemma OnlyApprovedDeks(s: State)
    requires Reachable(s)
    ensures AllApproved(s.hist.approved, s.served)
  {
    var labels :| Run(INIT, labels, s);
    InitInv();
    ServedRun(INIT, labels, s);
  }

  // ---- start-up ----

  function Labels(log: seq<BootStep>): (r: seq<Label>)
    ensures |r| == |log|
  {
    seq(|log|, k requires 0 <= k < |log| => AtBoot(log[k]))
  }

  lemma {:induction false} RunThen(s: State, labels: seq<Label>, t: State, l: Label)
    requires Run(s, labels, t) && Can(t, l)
    ensures Run(s, labels + [l], Do(t, l))
    decreases |labels|
  {
    if labels == [] {
      assert [l][1..] == [];
    } else {
      assert (labels + [l])[1..] == labels[1..] + [l];
      RunThen(Do(s, labels[0]), labels[1..], t, l);
    }
  }

  predicate Booting(p: Proc) {
    p.phase == Boot && p.ledgerOk && p.jobsOk
  }

  /** Nothing was minted, approved or ended. */
  predicate SameStory(a: Hist, b: Hist) {
    Ids(b) == Ids(a) && b.approved == a.approved && b.ended == a.ended
  }

  lemma BootLogStep(u: State, b: BootStep) returns (t: State)
    requires Inv(u) && Booting(u.proc) && Legal(u.disk, b)
    requires b.AddKey? ==> b.name.id in Ids(u.hist)
    ensures Can(u, AtBoot(b)) && t == Do(u, AtBoot(b)) && t.disk == Apply(u.disk, b)
    ensures Inv(t) && Booting(t.proc) && SameStory(u.hist, t.hist)
  {
    BootInv(u, b);
    t := Do(u, AtBoot(b));
  }

  /** Any sequence of legal durable changes at start-up is a run, so what every reachable state keeps
      holds between any two of them. */
  lemma {:induction false} BootLogIsRun(s: State, log: seq<BootStep>) returns (t: State)
    requires Inv(s) && Booting(s.proc) && AllLegal(s.disk, log)
    requires forall k :: 0 <= k < |log| && log[k].AddKey? ==> log[k].name.id in Ids(s.hist)
    ensures Run(s, Labels(log), t) && t.disk == Replay(s.disk, log) && Inv(t)
    ensures Booting(t.proc) && SameStory(s.hist, t.hist)
    decreases |log|
  {
    hide Inv, Can, Do, Legal, Booting, Apply;
    if log == [] {
      t := s;
    } else {
      var front, last := log[..|log| - 1], log[|log| - 1];
      var u := BootLogIsRun(s, front);
      t := BootLogStep(u, last);
      RunThen(s, Labels(front), u, AtBoot(last));
      assert Labels(front) + [AtBoot(last)] == Labels(log);
    }
  }
}
