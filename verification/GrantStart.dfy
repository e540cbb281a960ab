/** Start-up as it runs, on the protocol: the move and the cleanup change the disk only by steps the protocol
    has, so no key still needed is gone at any moment of them, whichever calls fail. */
module GrantStart {
  import opened GrantKeys
  import opened Wrappers
  import opened GrantProtocol
  import opened GrantSafety
  import opened GrantRuns
  import opened GrantWorld
  import opened GrantKeep
  import opened GrantMove
  import opened GrantOrphans
  import opened GrantRerun
  import opened NamedKeys

  /** What start-up takes for granted of the disk holds of every disk a run leaves. */
  lemma ReachedIsSane(s: State)
    requires Inv(s)
    ensures Sane(s.disk)
  {
    forall i, slot | i in s.disk.ledger && slot in s.disk.ledger[i].entries
      ensures s.disk.ledger[i].entries[slot].copy.under.serial < s.disk.serial {
      assert Balanced(s.disk.keys, s.hist.shredded, s.disk.ledger[i]);
    }
    forall n, slot | n in s.disk.jobs && slot in s.disk.jobs[n].entries
      ensures s.disk.jobs[n].entries[slot].copy.under.serial < s.disk.serial {
      assert Kept(s.disk.keys, s.disk.jobs[n]);
    }
  }

  lemma UniformIsSpared<K>(keys: Keys, m: map<K, Rec>, ids: set<K>, target: Kind)
    requires forall i :: i in m ==> Uniform(m[i])
    ensures Spared(keys, m, PendingIn(m, ids, target), target)
  {
  }

  /** No record a run leaves is of both kinds, so a move loses nothing on any store. */
  lemma ReachedIsUnmixed(s: State, target: Kind)
    requires Reachable(s)
    ensures NoneMixed(s.disk, target)
  {
    FilesAreUniform(s);
    UniformIsSpared(s.disk.keys, s.disk.ledger, s.disk.ledger.Keys, target);
    UniformIsSpared(s.disk.keys, s.disk.jobs, Movable(s.disk.jobs), target);
  }

  lemma RecordIdsAreMinted(s: State)
    requires Inv(s)
    ensures OwnKeys(s.disk) <= Ids(s.hist)
  {
    forall n | n in Movable(s.disk.jobs) ensures s.disk.jobs[n].key in Ids(s.hist) {
      assert s.disk.jobs[n].key != NoKey;
    }
  }

  lemma {:induction false} LegalPrefix(d: Disk, log: seq<BootStep>, k: nat)
    requires AllLegal(d, log) && k <= |log|
    ensures AllLegal(d, log[..k])
    decreases |log|
  {
    if k == |log| {
      assert log[..k] == log;
    } else {
      LegalPrefix(d, log[..|log| - 1], k);
      assert log[..|log| - 1][..k] == log[..k];
    }
  }

  lemma {:induction false} RunJoin(s: State, a: seq<Label>, t: State, b: seq<Label>, u: State)
    requires Run(s, a, t) && Run(t, b, u)
    ensures Run(s, a + b, u)
    decreases |a|
  {
    if a == [] {
      assert a + b == b;
    } else {
      assert (a + b)[1..] == a[1..] + b;
      RunJoin(Do(s, a[0]), a[1..], t, b, u);
    }
  }

  /** After any of its changes nothing was lost. */
  ghost predicate NeverLost(d: Disk, log: seq<BootStep>, h: Hist) {
    forall k :: 0 <= k <= |log| ==> NothingLost(Replay(d, log[..k]), h)
  }

  lemma LegalLogLosesNothing(s: State, log: seq<BootStep>)
    requires Inv(s) && Booting(s.proc) && AllLegal(s.disk, log) && Made(log) <= Ids(s.hist)
    ensures NeverLost(s.disk, log, s.hist)
  {
    hide Inv, NothingLost, Booting;
    forall k | 0 <= k <= |log| ensures NothingLost(Replay(s.disk, log[..k]), s.hist) {
      LegalPrefix(s.disk, log, k);
      MadeByAll(log, k);
      var t := BootLogIsRun(s, log[..k]);
      InvKeepsKeys(t);
      SameLoss(t.disk, t.hist, s.hist);
    }
  }

  lemma MadeByAll(log: seq<BootStep>, k: nat)
    requires k <= |log|
    ensures forall j :: 0 <= j < k && log[..k][j].AddKey? ==> log[..k][j].name.id in Made(log)
  {
  }

  lemma SameLoss(d: Disk, a: Hist, b: Hist)
    requires SameStory(b, a)
    ensures NothingLost(d, a) <==> NothingLost(d, b)
  {
  }

  /** Start-up from any reachable state: the move, then the cleanup, each call of them failing or not. What
      they do is a run of the protocol, and at no moment of it is a key gone that is still needed. */
  method StartUp(ghost s: State, disk: Disk, store: Store, target: Kind, ledger: Option<Json>, jobList: Option<Json>)
    returns (w: World, moved: nat, r: Cleanup, ghost t: State)
    requires Reachable(s) && Booting(s.proc) && disk == s.disk
    ensures fresh(w) && w.start == s.disk && w.store == store
    ensures Run(s, Labels(w.log), t) && t.disk == w.disk && Reachable(t)
    ensures NeverLost(s.disk, w.log, s.hist) && Meaning(s.disk, w.disk)
  {
    hide Inv, Reachable, Booting, WholeMove, Cleaned, Sane, NothingLost, NeverLost, Meaning, NoneMixed;
    ReachableInv(s);
    ReachedIsSane(s);
    w := new World(disk, store);
    ghost var v0 := w.Now();
    var server := new Server(w, target);
    var failedGrants, failedJobs;
    moved, failedGrants, failedJobs := server.MoveGrantKeys();
    ghost var v1 := w.Now();
    r := DeleteOrphanGrantKeys(server, ledger, jobList);
    MovedLawfully(s, w.store, target, v0, v1, moved, failedGrants, failedJobs);
    CleanedLawfully(w.store, v1, w.Now(), r);
    LawfulMeaning(v0, w.Now());
    t := LawfulRun(s, w.log);
  }

  lemma MovedLawfully(s: State, st: Store, target: Kind, v0: Moment, v: Moment, moved: nat, failedGrants: set<Id>,
      failedJobs: set<JobName>)
    requires Reachable(s) && v0.start == v0.disk == s.disk && v0.log == []
    requires WholeMove(st, target, v0, v, moved, failedGrants, failedJobs)
    ensures Later(v0, v) && v.Lawful() && Made(v.log) <= Ids(s.hist)
  {
    hide Inv, Reachable, SparedBoth, Meaning, NoneMixed, OwnKeys;
    ReachedIsUnmixed(s, target);
    MoveIsSafe(st, target, v0, v, moved, failedGrants, failedJobs);
    ReachableInv(s);
    RecordIdsAreMinted(s);
  }

  lemma CleanedLawfully(st: Store, v0: Moment, v: Moment, r: Cleanup)
    requires if r.Done? then Cleaned(st, v0, v, r.deleted, r.failed) else v == v0
    ensures Later(v0, v) && Made(v.log) == Made(v0.log) && (v0.Lawful() ==> v.Lawful())
  {
  }

  lemma LawfulRun(s: State, log: seq<BootStep>) returns (t: State)
    requires Reachable(s) && Inv(s) && Booting(s.proc) && AllLegal(s.disk, log) && Made(log) <= Ids(s.hist)
    ensures Run(s, Labels(log), t) && t.disk == Replay(s.disk, log) && Reachable(t)
    ensures NeverLost(s.disk, log, s.hist)
  {
    hide Inv, Booting, NeverLost;
    LegalLogLosesNothing(s, log);
    MadeByAll(log, |log|);
    assert log[..|log|] == log;
    t := BootLogIsRun(s, log);
    var labels :| Run(INIT, labels, s);
    RunJoin(INIT, labels, s, Labels(log), t);
  }
}
