/** Two starts one after another, and the one store on which a move costs a record its key. */
module GrantRerun {
  import opened GrantKeys
  import opened Wrappers
  import opened GrantWorld
  import opened GrantKeep
  import opened GrantOutcome
  import opened GrantMove

  // ---- the next start ----

  /** What is left to move is what failed, and if nothing fails it fails again. */
  lemma SecondRun<K>(st: Store, target: Kind, v0: Moment, v1: Moment, v2: Moment, a: map<K, Rec>, b: map<K, Rec>,
      c: map<K, Rec>, owned: set<K>, failed: set<K>, again: set<K>)
    requires Outcome(st, target, v0, v1, a, b, owned, failed) && Outcome(st, target, v1, v2, b, c, owned, again)
    ensures again <= failed == PendingIn(b, owned, target)
    ensures st.Works() ==> again == failed && c == b
  {
    hide Pending, Stuck, FrameOf, KeptMeaning, KeptKeys, Swept, Store.Works, Hiccups, OldNames, NewNames;
    assert PendingIn(b, owned, target) == failed;
    if again == failed {
      assert failed - again == {};
    }
  }

  lemma SameMovable(a: map<JobName, Rec>, b: map<JobName, Rec>, moved: set<JobName>, target: Kind)
    requires MovedFile(a, b, moved, target)
    ensures Movable(b) == Movable(a)
  {
  }

  /** A move, and the move the next start makes: that one takes on only what failed, and where nothing fails
      it moves nothing, reports the same records and changes no file. */
  method MoveTwice(w: World, target: Kind) returns (failedGrants: set<Id>, failedJobs: set<JobName>, moved: nat,
      grantsAgain: set<Id>, jobsAgain: set<JobName>, ghost between: Moment)
    requires w.Valid()
    modifies w
    ensures w.Valid() && between.Valid()
    ensures exists first: nat ::
      WholeMove(w.store, target, old(w.Now()), between, first, failedGrants, failedJobs)
    ensures WholeMove(w.store, target, between, w.Now(), moved, grantsAgain, jobsAgain)
    ensures grantsAgain <= failedGrants && jobsAgain <= failedJobs
    ensures moved == |failedGrants - grantsAgain| + |failedJobs - jobsAgain|
    ensures w.store.Works() ==>
      && moved == 0 && grantsAgain == failedGrants && jobsAgain == failedJobs
      && SameFiles(between.disk, w.disk)
  {
    hide WholeMove, Outcome, Sane, Pending, Store.Works;
    ghost var v0 := w.Now();
    var first := new Server(w, target);
    var n: nat;
    n, failedGrants, failedJobs := first.MoveGrantKeys();
    between := w.Now();
    var second := new Server(w, target);
    moved, grantsAgain, jobsAgain := second.MoveGrantKeys();
    TwoMoves(w.store, target, v0, between, w.Now(), n, failedGrants, failedJobs, moved, grantsAgain, jobsAgain);
  }

  lemma TwoMoves(st: Store, target: Kind, v0: Moment, v1: Moment, v2: Moment, first: nat, failedGrants: set<Id>,
      failedJobs: set<JobName>, moved: nat, grantsAgain: set<Id>, jobsAgain: set<JobName>)
    requires WholeMove(st, target, v0, v1, first, failedGrants, failedJobs)
    requires WholeMove(st, target, v1, v2, moved, grantsAgain, jobsAgain)
    ensures grantsAgain <= failedGrants && jobsAgain <= failedJobs
    ensures moved == |failedGrants - grantsAgain| + |failedJobs - jobsAgain|
    ensures st.Works() ==>
      moved == 0 && grantsAgain == failedGrants && jobsAgain == failedJobs && SameFiles(v1.disk, v2.disk)
  {
    hide Outcome, Pending, Store.Works, Effect, SparedBoth, Meaning, Movable, PendingIn;
    var a, b := v0.disk, v1.disk;
    OutcomeMoved(st, target, v0, v1, a.ledger, b.ledger, a.ledger.Keys, failedGrants);
    OutcomeMoved(st, target, v0, v1, a.jobs, b.jobs, Movable(a.jobs), failedJobs);
    SameMovable(a.jobs, b.jobs, PendingIn(a.jobs, Movable(a.jobs), target) - failedJobs, target);
    SecondRun(st, target, v0, v1, v2, a.ledger, b.ledger, v2.disk.ledger, a.ledger.Keys, failedGrants, grantsAgain);
    SecondRun(st, target, v0, v1, v2, a.jobs, b.jobs, v2.disk.jobs, Movable(a.jobs), failedJobs, jobsAgain);
    if st.Works() {
      assert failedGrants - grantsAgain == {} && failedJobs - jobsAgain == {};
    }
  }

  lemma OutcomeMoved<K>(st: Store, target: Kind, v0: Moment, v: Moment, a: map<K, Rec>, b: map<K, Rec>,
      owned: set<K>, failed: set<K>)
    requires Outcome(st, target, v0, v, a, b, owned, failed)
    ensures MovedFile(a, b, PendingIn(a, owned, target) - failed, target) && a.Keys == b.Keys
    ensures failed <= PendingIn(a, owned, target)
  {
  }

  // ---- when a move is safe on every store ----

  /** No record still to be moved has an entry that opens with a target key already. */
  ghost predicate NoneMixed(d: Disk, target: Kind) {
    && Spared(d.keys, d.ledger, PendingIn(d.ledger, d.ledger.Keys, target), target)
    && Spared(d.keys, d.jobs, PendingIn(d.jobs, Movable(d.jobs), target), target)
  }

  /** No grant still to be moved has both unread entries and a target key already. */
  ghost predicate NoneUnread(d: Disk, target: Kind) {
    forall i :: i in d.ledger && Pending(d.ledger[i], target) && d.ledger[i].unread > 0 ==>
      NewName(d.ledger[i], target) !in d.keys
  }

  /** Each grant with entries this build cannot read has every key it had. */
  ghost predicate UnreadKept(a: Disk, b: Disk) {
    forall i, kind :: i in a.ledger && a.ledger[i].unread > 0 && Name(a.ledger[i].key, kind) in a.keys ==>
      SameAt(a.keys, b.keys, Name(a.ledger[i].key, kind))
  }

  /** Enough, on every store. */
  lemma MoveIsSafe(st: Store, target: Kind, v0: Moment, v: Moment, moved: nat, failedGrants: set<Id>,
      failedJobs: set<JobName>)
    requires WholeMove(st, target, v0, v, moved, failedGrants, failedJobs)
    ensures st.Reliable() || NoneMixed(v0.disk, target) ==>
      Meaning(v0.disk, v.disk) && (v0.Lawful() ==> v.Lawful())
    ensures st.Reliable() || NoneUnread(v0.disk, target) ==> UnreadKept(v0.disk, v.disk)
  {
    hide Pending, FrameOf, KeptMeaning, Stuck, Moment.Lawful, Made, Meaning, Spared, MovedFile, StuckIn;
    var d := v0.disk;
    SparedFewer(d.keys, d.ledger, Risky(st, failedGrants), PendingIn(d.ledger, d.ledger.Keys, target), target);
    SparedFewer(d.keys, d.jobs, Risky(st, failedJobs), PendingIn(d.jobs, Movable(d.jobs), target), target);
    if st.Reliable() {
      NoneRisky(d.keys, d.ledger, Risky(st, failedGrants), target);
      NoneRisky(d.keys, d.jobs, Risky(st, failedJobs), target);
    }
  }

  lemma NoneRisky<K>(keys: Keys, m: map<K, Rec>, none: set<K>, target: Kind)
    requires none == {}
    ensures Spared(keys, m, none, target)
  {
  }

  lemma LostMeans<K>(st: Store, target: Kind, ka: Keys, kb: Keys, m: map<K, Rec>, pending: set<K>)
    requires Lost(kb, m, pending, target) && FileMeaning(ka, m, kb, m)
    ensures Spared(ka, m, pending, target)
  {
    forall i | i in pending && i in m ensures !OpensWith(ka, m[i], NewName(m[i], target)) {
      assert RecMeaning(ka, m[i], kb, m[i]);
    }
  }

  /** Needed, on the store whose first load of each target key is refused: the loss is real whenever the
      condition fails. */
  method MoveOnHiccups(d: Disk, target: Kind) returns (w: World)
    requires Sane(d)
    ensures fresh(w) && w.Valid() && w.start == d && SameFiles(d, w.disk)
    ensures Meaning(d, w.disk) <==> NoneMixed(d, target)
    ensures UnreadKept(d, w.disk) <==> NoneUnread(d, target)
  {
    hide WholeMove, Sane, Pending, NoneMixed, NoneUnread, UnreadKept, Meaning;
    w := new World(d, Store((n: Name, k: nat) => n.kind != target || k == 0, true, true));
    ghost var v0 := w.Now();
    var s := new Server(w, target);
    var moved, failedGrants, failedJobs := s.MoveGrantKeys();
    HiccupFacts(w.store, target, v0, w.Now(), moved, failedGrants, failedJobs);
  }

  lemma HiccupFacts(st: Store, target: Kind, v0: Moment, v: Moment, moved: nat, failedGrants: set<Id>,
      failedJobs: set<JobName>)
    requires WholeMove(st, target, v0, v, moved, failedGrants, failedJobs)
    requires Hiccups(st, target) && v0.tries == map[]
    ensures SameFiles(v0.disk, v.disk)
    ensures Meaning(v0.disk, v.disk) <==> NoneMixed(v0.disk, target)
    ensures UnreadKept(v0.disk, v.disk) <==> NoneUnread(v0.disk, target)
  {
    hide Pending, FrameOf, KeptMeaning, Stuck, Moment.Lawful, Made, Spared, StuckIn, RecMeaning, OldNames, NewNames,
      Movable, KeptKeys;
    MoveIsSafe(st, target, v0, v, moved, failedGrants, failedJobs);
    var a, b := v0.disk, v.disk;
    var grants, jobs := PendingIn(a.ledger, a.ledger.Keys, target), PendingIn(a.jobs, Movable(a.jobs), target);
    assert grants - failedGrants == {} && jobs - failedJobs == {};
    NothingMoved(a.ledger, b.ledger, target);
    NothingMoved(a.jobs, b.jobs, target);
    if Meaning(a, b) {
      LostMeans(st, target, a.keys, b.keys, a.ledger, grants);
      LostMeans(st, target, a.keys, b.keys, a.jobs, jobs);
    }
    if UnreadKept(a, b) {
      forall i | i in a.ledger && Pending(a.ledger[i], target) && a.ledger[i].unread > 0
        ensures NewName(a.ledger[i], target) !in a.keys {
        assert i in grants && NewName(a.ledger[i], target) == Name(a.ledger[i].key, target);
      }
    }
  }

  lemma NothingMoved<K>(a: map<K, Rec>, b: map<K, Rec>, target: Kind)
    requires MovedFile(a, b, {}, target)
    ensures b == a
  {
  }

  /** A grant that can lose a key: one entry on the keychain, one it cannot read, and an enclave key. */
  function AtRisk(): Disk {
    var id := GrantId(1);
    var chain, encl := KeyBytes(id, Keychain, 0), KeyBytes(id, Enclave, 1);
    Disk(map[Name(id, Keychain) := chain, Name(id, Enclave) := encl], 2,
         map[id := Rec(id, map[7 := Entry(3, Sealed(chain, 3, 9), Keychain)], 1)], map[])
  }

  lemma RiskIsSane()
    ensures Sane(AtRisk()) && (forall i :: i in AtRisk().ledger ==> Uniform(AtRisk().ledger[i]))
  {
  }

  lemma RiskIsReal()
    ensures !NoneUnread(AtRisk(), Enclave)
  {
    hide Sane;
    assert 7 in AtRisk().ledger[GrantId(1)].entries;
    assert Pending(AtRisk().ledger[GrantId(1)], Enclave);
  }

  /** The claim that a grant with unread entries keeps every key fails: its records are uniform, yet one
      refused load costs it the key the entry it cannot read may be sealed under. */
  method UnreadKeyLost() returns (w: World)
    ensures Sane(AtRisk()) && (forall i :: i in AtRisk().ledger ==> Uniform(AtRisk().ledger[i]))
    ensures w.start == AtRisk() && !UnreadKept(AtRisk(), w.disk)
  {
    hide AtRisk, Sane, Uniform, NoneUnread, UnreadKept;
    RiskIsSane();
    RiskIsReal();
    w := MoveOnHiccups(AtRisk(), Enclave);
  }
}
