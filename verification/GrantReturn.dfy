/** What a revoke that neither deleted the key nor rewrote the ledger leaves behind: exactly when a later
    process can serve the grant again. */
module GrantReturn {
  import opened GrantKeys
  import opened Wrappers
  import opened GrantProtocol
  import opened GrantFrames
  import opened GrantSafety
  import opened GrantRuns

  /** The same state, with more on record as destroyed or erased. No step looks at either. */
  function More(s: State, ds: set<Id>, es: set<Id>): State {
    s.(hist := s.hist.(destroyed := s.hist.destroyed + ds, erased := s.hist.erased + es))
  }

  lemma GrantMoves(s: State, l: Label, ds: set<Id>, es: set<Id>)
    requires Can(s, l) && (l.Mint? || l.SealGrant? || l.Abort? || l.Publish? || l.SaveBegin? || l.Unpublish?
        || l.RetireCreate? || l.DropCreate?)
    ensures Can(More(s, ds, es), l) && Do(More(s, ds, es), l) == More(Do(s, l), ds, es)
  {
  }

  lemma EndMoves(s: State, l: Label, ds: set<Id>, es: set<Id>)
    requires Can(s, l) && (l.RevokeBegin? || l.RetireRevoke? || l.DropRevoke? || l.Serve?)
    ensures Can(More(s, ds, es), l) && Do(More(s, ds, es), l) == More(Do(s, l), ds, es)
  {
    if l.DropRevoke? {
      assert s.hist.destroyed + {l.id} + ds == s.hist.destroyed + ds + {l.id};
    }
  }

  lemma SaveMoves(s: State, ok: bool, ds: set<Id>, es: set<Id>)
    requires Can(s, SaveEnd(ok))
    ensures Can(More(s, ds, es), SaveEnd(ok)) && Do(More(s, ds, es), SaveEnd(ok)) == More(Do(s, SaveEnd(ok)), ds, es)
  {
    var wrote := ok && s.proc.ledgerOk;
    assert Released(More(s, ds, es), wrote) == More(Released(s, wrote), ds, es);
    match s.proc.saver.owner
    case ByServe =>
    case ByCreate(_) =>
    case ByRevoke(id) => assert s.hist.erased + {id} + es == s.hist.erased + es + {id};
  }

  lemma JobMoves(s: State, l: Label, ds: set<Id>, es: set<Id>)
    requires Can(s, l) && (l.MintJob? || l.AbandonJob? || l.DropJob? || l.SaveJobs?)
    ensures Can(More(s, ds, es), l) && Do(More(s, ds, es), l) == More(Do(s, l), ds, es)
  {
  }

  lemma JobListMoves(s: State, l: Label, ds: set<Id>, es: set<Id>)
    requires Can(s, l) && (l.ApproveJob? || l.ApproveEachTime? || l.RemoveJob?)
    ensures Can(More(s, ds, es), l) && Do(More(s, ds, es), l) == More(Do(s, l), ds, es)
  {
  }

  lemma BootMoves(s: State, l: Label, ds: set<Id>, es: set<Id>)
    requires Can(s, l) && (l.Crash? || l.Load? || l.AtBoot? || l.Listen?)
    ensures Can(More(s, ds, es), l) && Do(More(s, ds, es), l) == More(Do(s, l), ds, es)
  {
  }

  lemma SameMoves(s: State, l: Label, ds: set<Id>, es: set<Id>)
    requires Can(s, l)
    ensures Can(More(s, ds, es), l) && Do(More(s, ds, es), l) == More(Do(s, l), ds, es)
  {
    if l.SaveEnd? {
      SaveMoves(s, l.ok, ds, es);
    } else if l.Crash? || l.Load? || l.AtBoot? || l.Listen? {
      BootMoves(s, l, ds, es);
    } else if l.RevokeBegin? || l.RetireRevoke? || l.DropRevoke? || l.Serve? {
      EndMoves(s, l, ds, es);
    } else if l.MintJob? || l.AbandonJob? || l.DropJob? || l.SaveJobs? {
      JobMoves(s, l, ds, es);
    } else if l.ApproveJob? || l.ApproveEachTime? || l.RemoveJob? {
      JobListMoves(s, l, ds, es);
    } else {
      GrantMoves(s, l, ds, es);
    }
  }

  lemma {:induction false} RunMoves(s: State, labels: seq<Label>, t: State, ds: set<Id>, es: set<Id>)
    requires Run(s, labels, t)
    ensures Run(More(s, ds, es), labels, More(t, ds, es))
    decreases |labels|
  {
    if labels != [] {
      SameMoves(s, labels[0], ds, es);
      RunMoves(Do(s, labels[0]), labels[1..], t, ds, es);
    }
  }

  /** The ledger file holds a record of `id` with a copy its stored key opens. */
  ghost predicate CanComeBack(d: Disk, id: Id) {
    id in d.ledger && exists slot :: slot in d.ledger[id].entries && Opens(d.keys, d.ledger[id], slot).Some?
  }

  lemma UnopenedIsShut(s: State, id: Id)
    requires Inv(s) && id in s.disk.ledger && !CanComeBack(s.disk, id)
    ensures Shut(s.hist.shredded, s.disk.ledger[id])
  {
    var r := s.disk.ledger[id];
    assert Balanced(s.disk.keys, s.hist.shredded, r) && Sound(s.hist.approved, r);
    forall slot | slot in r.entries ensures r.entries[slot].copy.under in s.hist.shredded {
      assert Opens(s.disk.keys, r, slot).None?;
    }
  }

  lemma MoreDestroyed(s: State, id: Id)
    requires Inv(s) && s.proc == NO_PROC && id in s.hist.ended && id in s.disk.ledger
    requires Shut(s.hist.shredded, s.disk.ledger[id])
    ensures Inv(More(s, {id}, {}))
  {
    hide KeysOk, Sound, Kept, Balanced, Shut;
    DestroyGrants(s.disk.keys, s.hist, id, s.disk.ledger);
    assert s.hist.erased + {} == s.hist.erased;
  }

  lemma MoreErased(s: State, id: Id)
    requires Inv(s) && s.proc == NO_PROC && id in s.hist.ended && id !in s.disk.ledger
    ensures Inv(More(s, {}, {id}))
  {
    hide KeysOk, Sound, Kept, Balanced, Shut;
    assert s.hist.destroyed + {} == s.hist.destroyed;
  }

  lemma MoreInv(s: State, id: Id)
    requires Inv(s) && s.proc == NO_PROC && id in s.hist.ended && !CanComeBack(s.disk, id)
    ensures Inv(if id in s.disk.ledger then More(s, {id}, {}) else More(s, {}, {id}))
  {
    hide Inv;
    if id in s.disk.ledger {
      UnopenedIsShut(s, id);
      MoreDestroyed(s, id);
    } else {
      MoreErased(s, id);
    }
  }

  lemma StaysGone(s: State, id: Id, labels: seq<Label>, t: State)
    requires Inv(s) && s.proc == NO_PROC && id in s.hist.ended && !CanComeBack(s.disk, id) && Run(s, labels, t)
    ensures ServedTo(t.served, id) == ServedTo(s.served, id)
  {
    MoreInv(s, id);
    var ds: set<Id>, es: set<Id> := {}, {};
    if id in s.disk.ledger {
      ds := {id};
    } else {
      es := {id};
    }
    RunMoves(s, labels, t, ds, es);
    OverRun(More(s, ds, es), labels, More(t, ds, es), id);
  }

  lemma ComesBack(s: State, id: Id) returns (labels: seq<Label>, t: State)
    requires s.proc == NO_PROC && CanComeBack(s.disk, id) && s.disk.ledger[id].key == id
    ensures Run(s, labels, t) && ServedTo(t.served, id) != ServedTo(s.served, id)
  {
    var slot :| slot in s.disk.ledger[id].entries && Opens(s.disk.keys, s.disk.ledger[id], slot).Some?;
    var s1 := Do(s, Load(true, true));
    var s2 := Do(s1, Listen);
    t := Do(s2, Serve(id, slot));
    labels := [Load(true, true), Listen, Serve(id, slot)];
    assert labels[1..] == [Listen, Serve(id, slot)] && labels[1..][1..] == [Serve(id, slot)]
        && labels[1..][1..][1..] == [];
    assert Run(t, [], t);
    assert Run(s2, [Serve(id, slot)], t);
    assert Run(s1, [Listen, Serve(id, slot)], t);
    assert |t.served| == |s.served| + 1 && t.served[..|s.served|] == s.served;
  }

  /** Some run from `s` serves `id`. */
  ghost predicate ServedLater(s: State, id: Id) {
    exists labels, t :: Run(s, labels, t) && ServedTo(t.served, id) != ServedTo(s.served, id)
  }

  /** Once a grant's revoke has begun, a process started later can serve it exactly when the restart finds
      its record in the ledger file with a copy the stored key opens. */
  lemma ServedAfterRestartIff(s: State, id: Id)
    requires Reachable(s) && id in s.hist.ended
    ensures ServedLater(Do(s, Crash), id) <==> CanComeBack(s.disk, id)
  {
    ReachableInv(s);
    StepInv(s, Crash);
    var c := Do(s, Crash);
    if CanComeBack(s.disk, id) {
      assert Keyed(s.hist.grantIds, s.disk.ledger);
      var labels, t := ComesBack(c, id);
    } else {
      forall labels, t | Run(c, labels, t) ensures ServedTo(t.served, id) == ServedTo(c.served, id) {
        StaysGone(c, id, labels, t);
      }
    }
  }

  // ---- it happens ----

  lemma ReachStep(s: State, l: Label) returns (t: State)
    requires Reachable(s) && Can(s, l)
    ensures t == Do(s, l) && Reachable(t)
  {
    hide Can, Do;
    t := Do(s, l);
    var labels :| Run(INIT, labels, s);
    RunThen(INIT, labels, s, l);
  }

  const FIRST_KEY := KeyBytes(GrantId(1), Keychain, 0)
  const FIRST_SECRETS: map<Slot, Secret> := map[1 := Secret(5, 2)]

  function FirstRec(): Rec {
    SealAll(FIRST_KEY, GrantId(1), FIRST_SECRETS)
  }

  function Listening(): Proc {
    NO_PROC.(phase := Serving, ledgerOk := true, jobsOk := true, log := [map[]])
  }

  /** A first grant's key made and its one secret sealed under it. */
  lemma FirstSealed() returns (s: State)
    ensures Reachable(s)
    ensures s.disk == Disk(map[Name(GrantId(1), Keychain) := FIRST_KEY], 1, map[], map[])
    ensures s.proc == Listening().(creates := map[GrantId(1) := Ready(FirstRec(), FIRST_KEY)])
  {
    hide Reachable;
    StartIsReached();
    s := ReachStep(INIT, Load(true, true));
    s := ReachStep(s, Listen);
    assert s.proc == Listening();
    s := ReachStep(s, Mint(GrantId(1), Keychain));
    assert s.disk.keys == map[Name(GrantId(1), Keychain) := FIRST_KEY];
    s := ReachStep(s, SealGrant(GrantId(1), FIRST_SECRETS));
  }

  lemma FirstPublished() returns (s: State)
    ensures Reachable(s)
    ensures s.disk == Disk(map[Name(GrantId(1), Keychain) := FIRST_KEY], 1, map[], map[])
    ensures s.proc.phase == Serving && s.proc.ledgerOk && s.proc.saver.Free? && s.proc.revokes == map[]
    ensures s.proc.creates == map[GrantId(1) := Recording] && s.proc.standing == {GrantId(1)}
    ensures Mem(s.proc) == map[GrantId(1) := FirstRec()]
  {
    hide Reachable, FirstRec;
    s := FirstSealed();
    s := ReachStep(s, Publish(GrantId(1)));
  }

  /** A first grant, created and recorded. */
  lemma FirstRecorded() returns (s: State)
    ensures Reachable(s) && s.proc.phase == Serving && s.proc.ledgerOk && s.proc.saver.Free? && s.proc.revokes == map[]
    ensures GrantId(1) in s.proc.standing && CanComeBack(s.disk, GrantId(1))
  {
    hide Reachable;
    s := FirstPublished();
    s := ReachStep(s, SaveBegin(ByCreate(GrantId(1))));
    s := ReachStep(s, SaveEnd(true));
    var r := s.disk.ledger[GrantId(1)];
    assert r == FirstRec() && 1 in r.entries;
    assert Opens(s.disk.keys, r, 1) == Some(5);
  }

  lemma StartIsReached()
    ensures Reachable(INIT)
  {
    assert Run(INIT, [], INIT);
  }

  lemma RevokeUnderWay(id: Id) returns (s: State)
    requires id == GrantId(1)
    ensures Reachable(s) && s.proc.phase == Serving && s.proc.ledgerOk && s.proc.saver.Free?
    ensures s.proc.revokes == map[id := Retired] && id in s.hist.ended && id in s.proc.dead && CanComeBack(s.disk, id)
  {
    hide Reachable, CanComeBack;
    s := FirstRecorded();
    s := ReachStep(s, RevokeBegin(id));
    s := ReachStep(s, RetireRevoke(id));
  }

  lemma KeyDeleteMissed(s: State, id: Id) returns (t: State)
    requires Reachable(s) && Has(s.proc.revokes, id, Retired)
    ensures t == s.(proc := s.proc.(revokes := s.proc.revokes[id := Dropped]),
        hist := t.hist) && Reachable(t) && t.hist.ended == s.hist.ended
  {
    hide Reachable;
    t := ReachStep(s, DropRevoke(id, {}));
    assert Names(id, {}) == {} && s.disk.keys - {} == s.disk.keys;
  }

  /** The claim that a revoke outlives a restart fails: one that has finished, its key delete and its save
      both missing, leaves a grant the next process serves. */
  lemma RevokedCanComeBack() returns (s: State, id: Id)
    ensures Reachable(s) && id in s.hist.ended && id in s.proc.dead && s.proc.revokes == map[]
    ensures CanComeBack(s.disk, id) && ServedLater(Do(s, Crash), id)
  {
    hide Reachable, CanComeBack, ServedLater;
    id := GrantId(1);
    s := RevokeUnderWay(id);
    s := KeyDeleteMissed(s, id);
    s := ReachStep(s, SaveBegin(ByRevoke(id)));
    s := ReachStep(s, SaveEnd(false));
    ServedAfterRestartIff(s, id);
  }
}
