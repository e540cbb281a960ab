/** What single steps leave alone, whatever the state. */
module GrantFrames {
  import opened GrantKeys
  import opened GrantProtocol

  function ServedTo(served: seq<Served>, id: Id): seq<Served> {
    if served == [] then []
    else if served[|served| - 1].id == id then ServedTo(served[..|served| - 1], id) + [served[|served| - 1]]
    else ServedTo(served[..|served| - 1], id)
  }

  predicate HistLater(s: State, t: State) {
    && s.hist.destroyed <= t.hist.destroyed && s.hist.erased <= t.hist.erased
    && t.served == s.served
  }

  predicate ProcLater(s: State, t: State) {
    HistLater(s, t) && s.proc.dead <= t.proc.dead
  }

  lemma GrantHist(s: State, l: Label)
    requires Can(s, l) && (l.Mint? || l.SealGrant? || l.Abort? || l.Publish? || l.RetireCreate?)
    ensures ProcLater(s, Do(s, l))
  {
  }

  lemma SaveBeginHist(s: State, l: Label)
    requires Can(s, l) && (l.SaveBegin? || l.Unpublish?)
    ensures ProcLater(s, Do(s, l))
  {
  }

  lemma SaveEndHist(s: State, ok: bool)
    requires Can(s, SaveEnd(ok))
    ensures ProcLater(s, Do(s, SaveEnd(ok)))
  {
    assert ProcLater(s, Released(s, ok && s.proc.ledgerOk));
    match s.proc.saver.owner
    case ByServe =>
    case ByCreate(id) =>
    case ByRevoke(id) =>
  }

  lemma DropHist(s: State, l: Label)
    requires Can(s, l) && (l.DropCreate? || l.DropRevoke?)
    ensures ProcLater(s, Do(s, l))
  {
  }

  lemma EndHist(s: State, l: Label)
    requires Can(s, l) && (l.RevokeBegin? || l.RetireRevoke? || l.Listen? || l.SaveJobs?)
    ensures ProcLater(s, Do(s, l))
  {
  }

  lemma JobHist(s: State, l: Label)
    requires Can(s, l) && (l.MintJob? || l.AbandonJob? || l.DropJob?)
    ensures ProcLater(s, Do(s, l))
  {
  }

  lemma FileJobHist(s: State, name: JobName, r: Rec)
    ensures ProcLater(s, FileJob(s, name, r))
  {
  }

  lemma JobListHist(s: State, l: Label)
    requires Can(s, l) && (l.ApproveJob? || l.ApproveEachTime? || l.RemoveJob?)
    ensures ProcLater(s, Do(s, l))
  {
    hide FileJob;
    match l
    case ApproveJob(id, name, secrets, ok) =>
      var key := s.disk.keys[Name(id, s.proc.jobMade[id])];
      var t := s.(hist := s.hist.(approved := s.hist.approved[id := DeksOf(secrets)]),
                  proc := s.proc.(jobMade := s.proc.jobMade - {id}));
      FileJobHist(t, name, SealAll(key, id, secrets));
    case ApproveEachTime(name, ok) => FileJobHist(s, name, Rec(NoKey, map[], 0));
    case RemoveJob(name, ok) =>
  }

  lemma BootHist(s: State, l: Label)
    requires Can(s, l) && (l.Crash? || l.Load? || l.AtBoot?)
    ensures HistLater(s, Do(s, l))
    ensures l.AtBoot? ==> s.proc.dead <= Do(s, l).proc.dead
  {
  }

  lemma HistGrows(s: State, l: Label)
    requires Can(s, l)
    ensures l.Serve? || HistLater(s, Do(s, l))
    ensures s.hist.destroyed <= Do(s, l).hist.destroyed && s.hist.erased <= Do(s, l).hist.erased
    ensures !l.Crash? && !l.Load? ==> s.proc.dead <= Do(s, l).proc.dead
  {
    if l.MintJob? || l.AbandonJob? || l.DropJob? {
      JobHist(s, l);
    } else if l.ApproveJob? || l.ApproveEachTime? || l.RemoveJob? {
      JobListHist(s, l);
    } else if l.DropCreate? || l.DropRevoke? {
      DropHist(s, l);
    } else if l.RevokeBegin? || l.RetireRevoke? || l.Listen? || l.SaveJobs? {
      EndHist(s, l);
    } else if l.Crash? || l.Load? || l.AtBoot? {
      BootHist(s, l);
    } else if l.SaveBegin? || l.Unpublish? {
      SaveBeginHist(s, l);
    } else if l.SaveEnd? {
      SaveEndHist(s, l.ok);
    } else if !l.Serve? {
      GrantHist(s, l);
    }
  }

  lemma ServeOther(s: State, id: Id, slot: Slot, other: Id)
    requires Can(s, Serve(id, slot)) && id != other
    ensures ServedTo(Do(s, Serve(id, slot)).served, other) == ServedTo(s.served, other)
  {
    var t := Do(s, Serve(id, slot));
    if t.served != s.served {
      assert t.served[..|t.served| - 1] == s.served;
    }
  }

  predicate SameLog(p: Proc, q: Proc) {
    q.log == p.log && p.written == q.written && (p.phase != Down ==> q.phase != Down)
  }

  predicate LaterLog(p: Proc, q: Proc) {
    p.log <= q.log && p.written <= q.written && q.phase != Down
  }

  lemma GrantLog(s: State, l: Label)
    requires Can(s, l) && (l.Mint? || l.SealGrant? || l.Abort? || l.SaveBegin? || l.RetireCreate? || l.DropCreate?)
    ensures SameLog(s.proc, Do(s, l).proc)
  {
  }

  lemma EndLog(s: State, l: Label)
    requires Can(s, l) && (l.RetireRevoke? || l.DropRevoke? || l.Serve? || l.Listen? || l.SaveJobs?)
    ensures SameLog(s.proc, Do(s, l).proc)
  {
  }

  lemma JobLog(s: State, l: Label)
    requires Can(s, l) && (l.MintJob? || l.AbandonJob? || l.DropJob?)
    ensures SameLog(s.proc, Do(s, l).proc)
  {
  }

  lemma FileJobLog(s: State, name: JobName, r: Rec)
    ensures SameLog(s.proc, FileJob(s, name, r).proc)
  {
  }

  lemma JobListLog(s: State, l: Label)
    requires Can(s, l) && (l.ApproveJob? || l.ApproveEachTime? || l.RemoveJob?)
    ensures SameLog(s.proc, Do(s, l).proc)
  {
    match l
    case ApproveJob(id, name, secrets, ok) =>
      var key := s.disk.keys[Name(id, s.proc.jobMade[id])];
      var t := s.(hist := s.hist.(approved := s.hist.approved[id := DeksOf(secrets)]),
                  proc := s.proc.(jobMade := s.proc.jobMade - {id}));
      FileJobLog(t, name, SealAll(key, id, secrets));
    case ApproveEachTime(name, ok) => FileJobLog(s, name, Rec(NoKey, map[], 0));
    case RemoveJob(name, ok) =>
  }

  lemma SaveLog(s: State, ok: bool)
    requires Can(s, SaveEnd(ok)) && s.proc.written <= s.proc.saver.version && s.proc.phase != Down
    ensures LaterLog(s.proc, Do(s, SaveEnd(ok)).proc)
  {
    assert LaterLog(s.proc, Released(s, ok && s.proc.ledgerOk).proc);
    match s.proc.saver.owner
    case ByServe =>
    case ByCreate(id) =>
    case ByRevoke(id) =>
  }

  /** The steps that change what is published only ever move it on. */
  lemma LogMoves(s: State, l: Label)
    requires Can(s, l) && (l.Publish? || l.Unpublish? || l.RevokeBegin?) && s.proc.phase != Down
    ensures LaterLog(s.proc, Do(s, l).proc)
  {
  }

  lemma BootLog(s: State, b: BootStep)
    requires Can(s, AtBoot(b)) && s.proc.written < |s.proc.log|
    ensures LaterLog(s.proc, Do(s, AtBoot(b)).proc)
  {
  }

  lemma LogGrows(s: State, l: Label)
    requires Can(s, l) && !l.Crash? && s.proc.phase != Down && s.proc.written < |s.proc.log|
    requires s.proc.saver.Saving? ==> s.proc.written <= s.proc.saver.version
    ensures LaterLog(s.proc, Do(s, l).proc)
  {
    if l.Mint? || l.SealGrant? || l.Abort? || l.SaveBegin? || l.RetireCreate? || l.DropCreate? {
      GrantLog(s, l);
    } else if l.RetireRevoke? || l.DropRevoke? || l.Serve? || l.Listen? || l.SaveJobs? {
      EndLog(s, l);
    } else if l.MintJob? || l.AbandonJob? || l.DropJob? {
      JobLog(s, l);
    } else if l.ApproveJob? || l.ApproveEachTime? || l.RemoveJob? {
      JobListLog(s, l);
    } else if l.SaveEnd? {
      SaveLog(s, l.ok);
    } else if l.AtBoot? {
      BootLog(s, l.step);
    } else {
      LogMoves(s, l);
    }
  }

  ghost predicate ApprovedLater(a: Approved, b: Approved) {
    forall i :: i in a ==> i in b && b[i] == a[i]
  }

  lemma ApprovedStays(s: State, l: Label)
    requires Can(s, l)
    requires forall i :: i in s.proc.creates && s.proc.creates[i].Minted? ==> i !in s.hist.approved
    requires forall i :: i in s.proc.jobMade ==> i !in s.hist.approved
    ensures ApprovedLater(s.hist.approved, Do(s, l).hist.approved)
  {
    if !l.SealGrant? && !l.ApproveJob? {
      ApprovedSame(s, l);
    }
  }

  lemma ApprovedSame(s: State, l: Label)
    requires Can(s, l) && !l.SealGrant? && !l.ApproveJob?
    ensures Do(s, l).hist.approved == s.hist.approved
  {
  }
}
