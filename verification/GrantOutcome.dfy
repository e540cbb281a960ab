/** What a whole move leaves behind, for one file and for both. */
module GrantOutcome {
  import opened GrantKeys
  import opened Wrappers
  import opened GrantWorld
  import opened GrantKeep

  /** `b` is `a` with the records in `moved` re-sealed to `target`, and every other one as it was. */
  ghost predicate MovedFile<K>(a: map<K, Rec>, b: map<K, Rec>, moved: set<K>, target: Kind) {
    && a.Keys == b.Keys && moved <= a.Keys
    && forall i :: i in a ==>
         if i in moved then Pending(a[i], target) && !Pending(b[i], target) && SameButCopies(a[i], b[i])
         else b[i] == a[i]
  }

  predicate SameButCopies(a: Rec, b: Rec) {
    b.key == a.key && b.unread == a.unread && b.entries.Keys == a.entries.Keys
  }

  /** Each record means what it meant, but for one that could not be moved, had an entry on the target kind
      already, and whose target key was first refused and then made out to be new. */
  ghost predicate KeptMeaning<K>(st: Store, target: Kind, ka: Keys, a: map<K, Rec>, kb: Keys, b: map<K, Rec>,
      failed: set<K>) {
    a.Keys == b.Keys && forall i :: i in a ==>
      || RecMeaning(ka, a[i], kb, b[i])
      || (i in Risky(st, failed) && OpensWith(ka, a[i], NewName(a[i], target)))
  }

  /** A record with entries this build cannot read has every key it had, and one that failed its old one. */
  ghost predicate KeptKeys<K>(st: Store, target: Kind, ka: Keys, a: map<K, Rec>, kb: Keys, failed: set<K>) {
    && (forall i, kind ::
          (i in a && a[i].unread > 0 && Name(a[i].key, kind) in ka && !(kind == target && i in Risky(st, failed)))
          ==> SameAt(ka, kb, Name(a[i].key, kind)))
    && (forall i :: i in failed && i in a ==> SameAt(ka, kb, OldName(a[i], target)))
  }

  /** What a move leaves of the records of one file, those in `owned` being its to take on. Each is wholly
      on the target kind or exactly as it was and in `failed`; the old key of each one settled was asked to
      go; and if nothing fails only what does not open stays behind, and a second run moves nothing. */
  ghost predicate Outcome<K>(st: Store, target: Kind, v0: Moment, v: Moment, a: map<K, Rec>, b: map<K, Rec>,
      owned: set<K>, failed: set<K>) {
    var ka, kb, pending := v0.disk.keys, v.disk.keys, PendingIn(a, owned, target);
    && failed <= pending && MovedFile(a, b, pending - failed, target)
    && FrameOf(KeysAmong(a, a.Keys), ka, kb,
         OldNames(a, owned - failed, target) + NewNames(a, Risky(st, failed), target), NewNames(a, pending, target))
    && KeptMeaning(st, target, ka, a, kb, b, failed)
    && KeptKeys(st, target, ka, a, kb, failed)
    && Swept(b, owned, target, v.asked)
    && (st.Works() ==> failed == StuckIn(a, pending, ka, target) == StuckIn(b, failed, kb, target))
    && (Hiccups(st, target) && Untried(v0.tries, a, target) ==> failed == pending && Lost(kb, a, pending, target))
  }

  /** No key filed under another id is any different, and every change was a legal one if `spared`. */
  ghost predicate Effect(v0: Moment, v: Moment, ids: set<Id>, spared: bool) {
    && Later(v0, v) && SameOutside(v0.disk.keys, v.disk.keys, ids) && TriesOutside(v0.tries, v.tries, ids)
    && Made(v.log) <= Made(v0.log) + ids
    && (v0.Lawful() && spared ==> v.Lawful())
  }

  // ---- from the loops to the outcome ----

  lemma Unchanged(keys: Keys, r: Rec)
    ensures SameMeaning(keys, r, r)
  {
  }

  lemma MovedFacts<K>(keys: Keys, m: map<K, Rec>, target: Kind, moving: map<K, map<Slot, Sealed>>)
    requires Ready(keys, m, target, moving) && forall i :: i in moving ==> Pending(m[i], target)
    ensures MovedFile(m, Moved(m, target, moving), moving.Keys, target)
    ensures Resealed(keys, m, Moved(m, target, moving))
    ensures forall i :: i in moving ==> RecMeaning(keys, m[i], keys, Moved(m, target, moving)[i])
  {
    hide Pending, SameMeaning, RecMeaning, ResealedSoFar;
    forall i | i in m && i !in moving ensures SameMeaning(keys, m[i], m[i]) {
      Unchanged(keys, m[i]);
    }
    forall i | i in moving ensures SameMeaning(keys, m[i], MovedRec(m[i], target, moving[i]))
        && !Pending(MovedRec(m[i], target, moving[i]), target)
        && RecMeaning(keys, m[i], keys, MovedRec(m[i], target, moving[i])) {
      ResealedMeaning(keys, m[i], target, moving[i]);
    }
  }

  /** Which keys a move may have dropped. */
  function MayDrop<K>(m: map<K, Rec>, owned: set<K>, failed: set<K>, risky: set<K>, target: Kind): set<Name> {
    OldNames(m, owned - failed, target) + NewNames(m, risky, target)
  }

  lemma OthersNames<K>(m: map<K, Rec>, owned: set<K>, failed: set<K>, risky: set<K>, target: Kind, i: K)
    requires Apart(m, owned) && risky <= owned && i in m
    ensures i !in risky ==> NewName(m[i], target) !in MayDrop(m, owned, failed, risky, target)
    ensures i !in owned - failed || m[i].unread > 0 ==>
      OldName(m[i], target) !in MayDrop(m, owned, failed, risky, target)
  {
  }

  /** A record left as it was. */
  lemma UnmovedMeaning<K>(st: Store, target: Kind, ka: Keys, kb: Keys, m: map<K, Rec>, owned: set<K>, failed: set<K>,
      added: set<Name>, i: K)
    requires Apart(m, owned) && failed <= PendingIn(m, owned, target) && i in m
    requires i !in PendingIn(m, owned, target) - failed
    requires Frame(ka, kb, MayDrop(m, owned, failed, Risky(st, failed), target), added)
    ensures RecMeaning(ka, m[i], kb, m[i])
        || (i in Risky(st, failed) && OpensWith(ka, m[i], NewName(m[i], target)))
  {
    hide Pending, OldNames, NewNames, Store.Reliable;
    OthersNames(m, owned, failed, Risky(st, failed), target, i);
    if !(i in Risky(st, failed) && OpensWith(ka, m[i], NewName(m[i], target))) {
      forall s | s in m[i].entries && Opens(ka, m[i], s).Some? ensures Opens(kb, m[i], s) == Opens(ka, m[i], s) {
        if m[i].entries[s].wrap != target {
          NotSettled(m, owned, failed, target, i, s);
        }
      }
    }
  }

  lemma NotSettled<K>(m: map<K, Rec>, owned: set<K>, failed: set<K>, target: Kind, i: K, s: Slot)
    requires i in m && s in m[i].entries && m[i].entries[s].wrap != target
    requires i !in PendingIn(m, owned, target) - failed
    ensures i !in owned - failed
  {
  }

  lemma UnmovedKeys<K>(st: Store, target: Kind, ka: Keys, kb: Keys, m: map<K, Rec>, owned: set<K>, failed: set<K>,
      added: set<K>)
    requires Apart(m, owned) && failed <= owned && added <= owned
    requires Frame(ka, kb, MayDrop(m, owned, failed, Risky(st, failed), target), NewNames(m, added, target))
    ensures KeptKeys(st, target, ka, m, kb, failed)
  {
    hide Store.Reliable, OldNames;
    forall i, kind | i in m && m[i].unread > 0 && Name(m[i].key, kind) in ka
        && !(kind == target && i in Risky(st, failed))
      ensures SameAt(ka, kb, Name(m[i].key, kind)) {
      OthersNames(m, owned, failed, Risky(st, failed), target, i);
      assert kind == target || Name(m[i].key, kind) == OldName(m[i], target);
    }
    forall i | i in failed && i in m ensures SameAt(ka, kb, OldName(m[i], target)) {
      OthersNames(m, owned, failed, Risky(st, failed), target, i);
      assert OldName(m[i], target) !in NewNames(m, added, target);
    }
  }

  lemma StillStuck<K>(st: Store, target: Kind, ka: Keys, kb: Keys, a: map<K, Rec>, b: map<K, Rec>, pending: set<K>,
      failed: set<K>)
    requires failed == StuckIn(a, pending, ka, target) && KeptKeys(st, target, ka, a, kb, failed)
    requires failed <= a.Keys == b.Keys && forall i :: i in failed ==> b[i] == a[i]
    ensures StuckIn(b, failed, kb, target) == failed
  {
    hide Stuck;
    forall i | i in failed ensures Stuck(kb, b[i], target) {
      StuckLocal(ka, kb, a[i], target);
    }
  }

  lemma FrameSplit<K>(m: map<K, Rec>, owned: set<K>, ka: Keys, kb: Keys, dropped: set<Name>, added: set<Name>)
    requires Frame(ka, kb, dropped, added)
    requires forall n: Name :: n in dropped + added ==> n.id in KeysAmong(m, owned)
    ensures FrameOf(KeysAmong(m, m.Keys), ka, kb, dropped, added) && SameOutside(ka, kb, KeysAmong(m, owned))
  {
    hide KeysAmong;
    forall n: Name | n.id !in KeysAmong(m, owned) ensures SameAt(ka, kb, n) {
      assert n !in dropped + added;
    }
  }

  lemma NamesOwned<K>(m: map<K, Rec>, owned: set<K>, failed: set<K>, risky: set<K>, target: Kind)
    requires risky <= owned
    ensures var names := MayDrop(m, owned, failed, risky, target) + NewNames(m, PendingIn(m, owned, target), target);
      forall n: Name :: n in names ==> n.id in KeysAmong(m, owned)
  {
  }

  /** Nothing was written: each pending record is as it was, and has its old key. */
  lemma MoveNone<K>(st: Store, target: Kind, v0: Moment, v: Moment, m: map<K, Rec>, owned: set<K>,
      moving: map<K, map<Slot, Sealed>>)
    requires UpTo(st, target, v0, v, m, owned, moving) && Apart(m, owned)
    requires st.steady ==> moving == map[]
    ensures Outcome(st, target, v0, v, m, m, owned, PendingIn(m, owned, target))
    ensures Effect(v0, v, KeysAmong(m, owned), Spared(v0.disk.keys, m, Risky(st, PendingIn(m, owned, target)), target))
  {
    hide Pending, Stuck, OldNames, NewNames, KeysAmong, Spared, Moment.Lawful, Apart, Ready, Store.Reliable;
    var ka, kb, pending := v0.disk.keys, v.disk.keys, PendingIn(m, owned, target);
    var was := pending - moving.Keys;
    FrameNone(st, target, ka, kb, m, owned, was);
    var dropped := MayDrop(m, owned, pending, Risky(st, pending), target);
    NamesOwned(m, owned, pending, Risky(st, pending), target);
    FrameSplit(m, owned, ka, kb, dropped, NewNames(m, pending, target));
    forall i | i in m ensures RecMeaning(ka, m[i], kb, m[i])
        || (i in Risky(st, pending) && OpensWith(ka, m[i], NewName(m[i], target))) {
      UnmovedMeaning(st, target, ka, kb, m, owned, pending, NewNames(m, pending, target), i);
    }
    UnmovedKeys(st, target, ka, kb, m, owned, pending, pending);
    assert pending - pending == {};
    assert moving == map[] ==> was == pending;
    if st.Works() {
      StillStuck(st, target, ka, kb, m, m, pending, pending);
    }
    SparedFewer(ka, m, Risky(st, was), Risky(st, pending), target);
    AmongFewer(m, pending, owned);
  }

  lemma SparedFewer<K>(keys: Keys, m: map<K, Rec>, few: set<K>, many: set<K>, target: Kind)
    requires few <= many
    ensures Spared(keys, m, many, target) ==> Spared(keys, m, few, target)
  {
  }

  lemma AmongFewer<K>(m: map<K, Rec>, few: set<K>, many: set<K>)
    requires few <= many
    ensures KeysAmong(m, few) <= KeysAmong(m, many)
  {
  }

  lemma FrameNone<K>(st: Store, target: Kind, a: Keys, b: Keys, m: map<K, Rec>, owned: set<K>, was: set<K>)
    requires FrameUpTo(st, target, a, b, m, owned, was) && was <= PendingIn(m, owned, target)
    ensures var pending := PendingIn(m, owned, target);
      Frame(a, b, MayDrop(m, owned, pending, Risky(st, pending), target), NewNames(m, pending, target))
  {
    hide Frame, Pending;
    var pending := PendingIn(m, owned, target);
    assert SettledIn(m, owned, target) == set i | i in owned - pending && i in m;
    FrameWider(a, b, OldNames(m, SettledIn(m, owned, target), target) + NewNames(m, Risky(st, was), target),
        NewNames(m, pending, target), MayDrop(m, owned, pending, Risky(st, pending), target),
        NewNames(m, pending, target));
  }

  /** The file written: nothing but records changed. */
  ghost predicate Written(v: Moment, w: Moment) {
    && w.start == v.start && v.log <= w.log && w.asked == v.asked && w.tries == v.tries
    && w.disk.keys == v.disk.keys && Made(w.log) == Made(v.log) && (v.Lawful() ==> w.Lawful())
  }

  lemma MovedSets<K>(a: map<K, Rec>, b: map<K, Rec>, owned: set<K>, moved: set<K>, target: Kind)
    requires MovedFile(a, b, moved, target) && moved <= owned
    ensures SettledIn(b, owned, target) == SettledIn(a, owned, target) + moved
    ensures PendingIn(b, moved, target) == {} && SettledIn(b, moved, target) == moved
    ensures OldNames(b, SettledIn(b, owned, target), target) ==
            OldNames(a, SettledIn(a, owned, target), target) + OldNames(b, moved, target)
    ensures OldNames(b, moved, target) == OldNames(a, moved, target)
    ensures KeysAmong(b, moved) == KeysAmong(a, moved)
  {
  }

  /** Both loops and the write between them, as one change of keys. */
  lemma FrameDone<K>(st: Store, target: Kind, k0: Keys, k1: Keys, k2: Keys, a: map<K, Rec>, b: map<K, Rec>,
      owned: set<K>, moved: set<K>)
    requires MovedFile(a, b, moved, target) && moved <= PendingIn(a, owned, target)
    requires FrameUpTo(st, target, k0, k1, a, owned, PendingIn(a, owned, target) - moved)
    requires FrameUpTo(st, target, k1, k2, b, moved, {})
    ensures var failed := PendingIn(a, owned, target) - moved;
      Frame(k0, k2, MayDrop(a, owned, failed, Risky(st, failed), target),
          NewNames(a, PendingIn(a, owned, target), target))
  {
    hide Frame, Pending, Store.Reliable;
    var pending := PendingIn(a, owned, target);
    var failed := pending - moved;
    MovedSets(a, b, owned, moved, target);
    var d1 := OldNames(a, SettledIn(a, owned, target), target) + NewNames(a, Risky(st, failed), target);
    var d2 := OldNames(b, SettledIn(b, moved, target), target) + NewNames(b, Risky(st, {}), target);
    FrameThen(k0, k1, k2, d1, NewNames(a, pending, target), d2, NewNames(b, PendingIn(b, moved, target), target));
    FrameWider(k0, k2, d1 + d2, NewNames(a, pending, target) + NewNames(b, PendingIn(b, moved, target), target),
        MayDrop(a, owned, failed, Risky(st, failed), target), NewNames(a, pending, target));
  }

  /** A record moved: its new copies open to the same, and its new key stays. */
  lemma MovedMeaning<K>(st: Store, target: Kind, k0: Keys, k1: Keys, k2: Keys, a: map<K, Rec>, b: map<K, Rec>,
      owned: set<K>, moving: map<K, map<Slot, Sealed>>, i: K)
    requires Apart(a, owned) && moving.Keys <= PendingIn(a, owned, target) && i in moving
    requires FrameUpTo(st, target, k0, k1, a, owned, PendingIn(a, owned, target) - moving.Keys)
    requires FrameUpTo(st, target, k1, k2, b, moving.Keys, {})
    requires Ready(k1, a, target, moving) && b == Moved(a, target, moving)
    ensures RecMeaning(k0, a[i], k2, b[i])
  {
    hide Store.Reliable, ResealedSoFar, Pending, FrameUpTo, RecMeaning, Apart;
    ResealedMeaning(k1, a[i], target, moving[i]);
    NotYetMoved(st, target, k0, k1, a, owned, moving.Keys, i);
    NewKeyStays(st, target, k1, k2, b, moving.Keys, i);
    MovedKeeps(k1, k2, a[i], b[i], target, moving[i]);
    MeaningThen(k0, a[i], k1, a[i], k1, b[i]);
    MeaningThen(k0, a[i], k1, b[i], k2, b[i]);
  }

  lemma MeaningThen(ka: Keys, a: Rec, kb: Keys, b: Rec, kc: Keys, c: Rec)
    requires RecMeaning(ka, a, kb, b) && RecMeaning(kb, b, kc, c)
    ensures RecMeaning(ka, a, kc, c)
  {
  }

  /** Before the write a record to be moved has both its keys. */
  lemma NotYetMoved<K>(st: Store, target: Kind, ka: Keys, kb: Keys, m: map<K, Rec>, owned: set<K>, moved: set<K>, i: K)
    requires Apart(m, owned) && moved <= PendingIn(m, owned, target) && i in moved
    requires FrameUpTo(st, target, ka, kb, m, owned, PendingIn(m, owned, target) - moved)
    ensures RecMeaning(ka, m[i], kb, m[i])
  {
    hide Store.Reliable, Pending;
    var failed := PendingIn(m, owned, target) - moved;
    var dropped := OldNames(m, SettledIn(m, owned, target), target) + NewNames(m, Risky(st, failed), target);
    assert NewName(m[i], target) !in dropped;
    assert OldName(m[i], target) !in dropped;
  }

  /** All its entries are on the target kind, so its new key is all it needs. */
  lemma MovedKeeps(ka: Keys, kb: Keys, r: Rec, b: Rec, target: Kind, sealed: map<Slot, Sealed>)
    requires r.entries.Keys <= sealed.Keys && b == MovedRec(r, target, sealed)
    requires NewName(b, target) in ka ==> NewName(b, target) in kb && kb[NewName(b, target)] == ka[NewName(b, target)]
    ensures RecMeaning(ka, b, kb, b)
  {
  }

  lemma NewKeyStays<K>(st: Store, target: Kind, ka: Keys, kb: Keys, m: map<K, Rec>, moved: set<K>, i: K)
    requires FrameUpTo(st, target, ka, kb, m, moved, {}) && i in m
    ensures var n := NewName(m[i], target); n in ka ==> n in kb && kb[n] == ka[n]
  {
  }

  lemma DoneMeaning<K>(st: Store, target: Kind, k0: Keys, k1: Keys, k2: Keys, a: map<K, Rec>, b: map<K, Rec>,
      owned: set<K>, moving: map<K, map<Slot, Sealed>>)
    requires Apart(a, owned) && moving.Keys <= PendingIn(a, owned, target)
    requires FrameUpTo(st, target, k0, k1, a, owned, PendingIn(a, owned, target) - moving.Keys)
    requires FrameUpTo(st, target, k1, k2, b, moving.Keys, {})
    requires Ready(k1, a, target, moving) && b == Moved(a, target, moving)
    requires MovedFile(a, b, moving.Keys, target)
    ensures KeptMeaning(st, target, k0, a, k2, b, PendingIn(a, owned, target) - moving.Keys)
  {
    hide Pending, FrameUpTo, Ready, Apart, RecMeaning, OpensWith, Store.Reliable, Moved;
    var pending := PendingIn(a, owned, target);
    FrameDone(st, target, k0, k1, k2, a, b, owned, moving.Keys);
    forall i | i in a ensures RecMeaning(k0, a[i], k2, b[i])
        || (i in Risky(st, pending - moving.Keys) && OpensWith(k0, a[i], NewName(a[i], target))) {
      if i in moving {
        MovedMeaning(st, target, k0, k1, k2, a, b, owned, moving, i);
      } else {
        UnmovedMeaning(st, target, k0, k2, a, owned, pending - moving.Keys, NewNames(a, pending, target), i);
      }
    }
  }

  /** Written: each pending record moved but for those that failed. */
  lemma MoveDone<K>(st: Store, target: Kind, v0: Moment, v1: Moment, v2: Moment, v3: Moment, a: map<K, Rec>,
      b: map<K, Rec>, owned: set<K>, moving: map<K, map<Slot, Sealed>>)
    requires UpTo(st, target, v0, v1, a, owned, moving) && Apart(a, owned) && moving != map[]
    requires Written(v1, v2) && b == Moved(a, target, moving)
    requires UpTo(st, target, v2, v3, b, moving.Keys, map[])
    ensures Outcome(st, target, v0, v3, a, b, owned, PendingIn(a, owned, target) - moving.Keys)
    ensures Effect(v0, v3, KeysAmong(a, owned),
        Spared(v0.disk.keys, a, Risky(st, PendingIn(a, owned, target) - moving.Keys), target))
  {
    hide Pending, Stuck, OldNames, NewNames, KeysAmong, Spared, Moment.Lawful, Apart, Ready, Store.Reliable, Moved,
      FrameUpTo, Frame, FrameOf, OpensWith, RecMeaning, KeptMeaning, KeptKeys, TriesOutside, Made, StuckIn;
    var k0, k1, k3, pending := v0.disk.keys, v1.disk.keys, v3.disk.keys, PendingIn(a, owned, target);
    var failed := pending - moving.Keys;
    MovedFacts(k1, a, target, moving);
    assert pending - failed == moving.Keys;
    MovedSets(a, b, owned, moving.Keys, target);
    var none: map<K, map<Slot, Sealed>> := map[];
    assert PendingIn(b, moving.Keys, target) - none.Keys == {};
    FrameDone(st, target, k0, k1, k3, a, b, owned, moving.Keys);
    NamesOwned(a, owned, failed, Risky(st, failed), target);
    FrameSplit(a, owned, k0, k3, MayDrop(a, owned, failed, Risky(st, failed), target), NewNames(a, pending, target));
    DoneMeaning(st, target, k0, k1, k3, a, b, owned, moving);
    UnmovedKeys(st, target, k0, k3, a, owned, failed, pending);
    if st.Works() {
      StillStuck(st, target, k0, k3, a, b, pending, failed);
    }
    DoneEffect(st, target, v0, v1, v2, v3, a, b, owned, moving);
  }

  lemma DoneEffect<K>(st: Store, target: Kind, v0: Moment, v1: Moment, v2: Moment, v3: Moment, a: map<K, Rec>,
      b: map<K, Rec>, owned: set<K>, moving: map<K, map<Slot, Sealed>>)
    requires moving.Keys <= PendingIn(a, owned, target) && MovedFile(a, b, moving.Keys, target)
    requires KeysUpTo(st, target, v0, v1, a, owned, PendingIn(a, owned, target) - moving.Keys) && Written(v1, v2)
    requires KeysUpTo(st, target, v2, v3, b, moving.Keys, {})
    ensures Later(v0, v3) && TriesOutside(v0.tries, v3.tries, KeysAmong(a, owned))
    ensures Made(v3.log) <= Made(v0.log) + KeysAmong(a, owned)
    ensures v0.Lawful() && Spared(v0.disk.keys, a, Risky(st, PendingIn(a, owned, target) - moving.Keys), target)
      ==> v3.Lawful()
  {
    hide Pending, FrameUpTo, Moment.Lawful, Made, KeysAmong, OldNames, NewNames, Store.Reliable;
    MovedSets(a, b, owned, moving.Keys, target);
    AmongFewer(a, PendingIn(a, owned, target), owned);
    AmongFewer(a, moving.Keys, owned);
    AmongFewer(b, PendingIn(b, moving.Keys, target), moving.Keys);
    var none: set<K> := {};
    assert Risky(st, none) == {};
  }

  /** The same keys under each id of `m`. */
  ghost predicate SameUnder<K>(m: map<K, Rec>, a: Keys, b: Keys) {
    forall n: Name :: n.id in KeysAmong(m, m.Keys) ==> SameAt(a, b, n)
  }

  lemma OpensShift<K>(m: map<K, Rec>, a: Keys, b: Keys, i: K, r: Rec)
    requires SameUnder(m, a, b) && i in m && r.key == m[i].key
    ensures forall s :: s in r.entries ==> Opens(a, r, s) == Opens(b, r, s)
    ensures forall n :: OpensWith(a, r, n) <==> OpensWith(b, r, n)
    ensures forall target :: Stuck(a, r, target) <==> Stuck(b, r, target)
  {
    forall s | s in r.entries ensures Opens(a, r, s) == Opens(b, r, s) {
      assert Name(r.key, r.entries[s].wrap).id in KeysAmong(m, m.Keys);
    }
  }

  lemma MeaningShift<K>(st: Store, target: Kind, ka: Keys, kb: Keys, la: Keys, lb: Keys, a: map<K, Rec>,
      b: map<K, Rec>, failed: set<K>)
    requires KeptMeaning(st, target, ka, a, kb, b, failed) && SameUnder(a, ka, la) && SameUnder(a, kb, lb)
    requires forall i :: i in a && i in b ==> b[i].key == a[i].key
    ensures KeptMeaning(st, target, la, a, lb, b, failed)
  {
    hide SameUnder, Store.Reliable;
    forall i | i in a ensures RecMeaning(la, a[i], lb, b[i])
        || (i in Risky(st, failed) && OpensWith(la, a[i], NewName(a[i], target))) {
      OpensShift(a, ka, la, i, a[i]);
      OpensShift(a, kb, lb, i, b[i]);
    }
  }

  lemma KeysShift<K>(st: Store, target: Kind, ka: Keys, kb: Keys, la: Keys, lb: Keys, a: map<K, Rec>, failed: set<K>,
      dropped: set<Name>, added: set<Name>)
    requires SameUnder(a, ka, la) && SameUnder(a, kb, lb)
    ensures KeptKeys(st, target, ka, a, kb, failed) ==> KeptKeys(st, target, la, a, lb, failed)
    ensures FrameOf(KeysAmong(a, a.Keys), ka, kb, dropped, added) ==>
      FrameOf(KeysAmong(a, a.Keys), la, lb, dropped, added)
  {
    hide Store.Reliable;
  }

  lemma StuckShift<K>(target: Kind, a: Keys, b: Keys, m: map<K, Rec>, n: map<K, Rec>, pending: set<K>)
    requires SameUnder(m, a, b) && pending <= m.Keys && forall i :: i in pending && i in n ==> n[i].key == m[i].key
    ensures StuckIn(n, pending, a, target) == StuckIn(n, pending, b, target)
  {
    hide SameUnder, Stuck;
    forall i | i in pending && i in n ensures Stuck(a, n[i], target) <==> Stuck(b, n[i], target) {
      OpensShift(m, a, b, i, n[i]);
    }
  }

  /** An outcome is about the keys of its own records alone. */
  lemma OutcomeShift<K>(st: Store, target: Kind, v0: Moment, v: Moment, w0: Moment, w: Moment, a: map<K, Rec>,
      b: map<K, Rec>, owned: set<K>, failed: set<K>)
    requires Outcome(st, target, v0, v, a, b, owned, failed) && v.asked <= w.asked
    requires SameUnder(a, v0.disk.keys, w0.disk.keys) && SameUnder(a, v.disk.keys, w.disk.keys)
    requires Untried(w0.tries, a, target) ==> Untried(v0.tries, a, target)
    ensures Outcome(st, target, w0, w, a, b, owned, failed)
  {
    hide Pending, Stuck, OldNames, NewNames, Store.Reliable, FrameOf, KeptMeaning, KeptKeys, SameUnder, Store.Works,
      Hiccups, Untried;
    var k0, k1, l0, l1, pending := v0.disk.keys, v.disk.keys, w0.disk.keys, w.disk.keys, PendingIn(a, owned, target);
    SameButKeys(a, b, pending - failed, target);
    MeaningShift(st, target, k0, k1, l0, l1, a, b, failed);
    KeysShift(st, target, k0, k1, l0, l1, a, failed,
        OldNames(a, owned - failed, target) + NewNames(a, Risky(st, failed), target), NewNames(a, pending, target));
    StuckShift(target, k0, l0, a, a, pending);
    StuckShift(target, k1, l1, a, b, failed);
    LostShift(target, k1, l1, a, pending);
  }

  lemma SameButKeys<K>(a: map<K, Rec>, b: map<K, Rec>, moved: set<K>, target: Kind)
    requires MovedFile(a, b, moved, target)
    ensures forall i :: i in a && i in b ==> b[i].key == a[i].key
  {
  }

  lemma LostShift<K>(target: Kind, a: Keys, b: Keys, m: map<K, Rec>, ids: set<K>)
    requires SameUnder(m, a, b)
    ensures Lost(a, m, ids, target) ==> Lost(b, m, ids, target)
  {
    forall i | i in ids && i in m && Lost(a, m, ids, target) ensures NewName(m[i], target) !in b {
      assert NewName(m[i], target).id in KeysAmong(m, m.Keys);
    }
  }
}
