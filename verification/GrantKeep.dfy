/** What a start-up move may do to keys and records, said of one moment and a later one. */
module GrantKeep {
  import opened GrantKeys
  import opened Wrappers
  import opened GrantWorld

  type Keys = map<Name, KeyBytes>

  function Other(kind: Kind): Kind {
    if kind == Enclave then Keychain else Enclave
  }

  /** The key `r` is to move to, and the one it is to leave. */
  function NewName(r: Rec, target: Kind): Name {
    Name(r.key, target)
  }

  function OldName(r: Rec, target: Kind): Name {
    Name(r.key, Other(target))
  }

  /** `r` is not yet wholly on `target`. */
  predicate Pending(r: Rec, target: Kind) {
    exists s | s in r.entries :: r.entries[s].wrap != target
  }

  /** Some entry still to be moved does not open with the key it names: the record cannot be moved. */
  ghost predicate Stuck(keys: Keys, r: Rec, target: Kind) {
    exists s :: s in r.entries && r.entries[s].wrap != target && Opens(keys, r, s).None?
  }

  lemma StuckLocal(a: Keys, b: Keys, r: Rec, target: Kind)
    requires SameAt(a, b, OldName(r, target))
    ensures Stuck(a, r, target) <==> Stuck(b, r, target)
  {
    forall s | s in r.entries && r.entries[s].wrap != target ensures Opens(a, r, s) == Opens(b, r, s) {
      assert Name(r.key, r.entries[s].wrap) == OldName(r, target);
    }
  }

  // ---- keys ----

  ghost predicate SameAt(a: Keys, b: Keys, n: Name) {
    (n in a <==> n in b) && (n in a ==> b[n] == a[n])
  }

  /** No key is gone but those in `dropped`, and none is new but those in `added`. */
  ghost predicate Frame(a: Keys, b: Keys, dropped: set<Name>, added: set<Name>) {
    && (forall n :: n in a && n !in dropped ==> n in b && b[n] == a[n])
    && (forall n :: n in b && n !in added ==> n in a && a[n] == b[n])
  }

  /** The same of the keys filed under `ids`. */
  ghost predicate FrameOf(ids: set<Id>, a: Keys, b: Keys, dropped: set<Name>, added: set<Name>) {
    && (forall n: Name :: n.id in ids && n in a && n !in dropped ==> n in b && b[n] == a[n])
    && (forall n: Name :: n.id in ids && n in b && n !in added ==> n in a && a[n] == b[n])
  }

  /** Nothing filed under any other id is any different. */
  ghost predicate SameOutside(a: Keys, b: Keys, ids: set<Id>) {
    forall n: Name :: n.id !in ids ==> SameAt(a, b, n)
  }

  lemma FrameThen(a: Keys, b: Keys, c: Keys, d1: set<Name>, a1: set<Name>, d2: set<Name>, a2: set<Name>)
    requires Frame(a, b, d1, a1) && Frame(b, c, d2, a2)
    ensures Frame(a, c, d1 + d2, a1 + a2)
  {
  }

  lemma FrameWider(a: Keys, b: Keys, d1: set<Name>, a1: set<Name>, d2: set<Name>, a2: set<Name>)
    requires Frame(a, b, d1, a1) && d1 <= d2 && a1 <= a2
    ensures Frame(a, b, d2, a2)
  {
  }

  /** A key of the target kind is the only one a re-seal may cost, and only when its first load was
      refused though it was there, and the next was not. */
  ghost predicate Risk(st: Store, v: Moment, n: Name) {
    n in v.disk.keys && st.refuses(n, Count(v.tries, n)) && !st.refuses(n, Count(v.tries, n) + 1)
  }

  /** Every load of it is refused. */
  ghost predicate Deaf(st: Store, n: Name) {
    forall k :: st.refuses(n, k)
  }

  ghost predicate TriesOutside(a: map<Name, nat>, b: map<Name, nat>, ids: set<Id>) {
    forall n: Name :: n.id !in ids ==> Count(b, n) == Count(a, n)
  }

  // ---- one record ----

  /** `sealed` holds, for every entry of `r`, the copy a move files: the one it has when that is of the
      target kind already, else one that opens with the new key to what the old one opens to. */
  ghost predicate ResealedAll(keys: Keys, r: Rec, target: Kind, sealed: map<Slot, Sealed>) {
    r.entries.Keys == sealed.Keys && ResealedSoFar(keys, r, target, sealed)
  }

  ghost predicate ResealedSoFar(keys: Keys, r: Rec, target: Kind, sealed: map<Slot, Sealed>) {
    forall s :: s in sealed ==>
         s in r.entries && var e := r.entries[s];
         if e.wrap == target then sealed[s] == e.copy
         else
           && Opens(keys, r, s).Some? && NewName(r, target) in keys
           && Open(keys[NewName(r, target)], sealed[s], e.cls) == Opens(keys, r, s)
  }

  lemma ResealedLocal(a: Keys, b: Keys, r: Rec, target: Kind, sealed: map<Slot, Sealed>)
    requires ResealedAll(a, r, target, sealed)
    requires forall kind :: SameAt(a, b, Name(r.key, kind))
    ensures ResealedAll(b, r, target, sealed)
  {
    assert forall s :: s in r.entries ==> Opens(b, r, s) == Opens(a, r, s);
  }

  function MovedRec(r: Rec, target: Kind, sealed: map<Slot, Sealed>): Rec
    requires r.entries.Keys <= sealed.Keys
  {
    r.(entries := map s | s in r.entries :: Entry(r.entries[s].cls, sealed[s], target))
  }

  lemma ResealedMeaning(keys: Keys, r: Rec, target: Kind, sealed: map<Slot, Sealed>)
    requires ResealedAll(keys, r, target, sealed)
    ensures SameMeaning(keys, r, MovedRec(r, target, sealed)) && !Pending(MovedRec(r, target, sealed), target)
    ensures RecMeaning(keys, r, keys, MovedRec(r, target, sealed))
  {
  }

  /** What one re-seal does, whether it succeeds or not. */
  ghost predicate ResealedAs(st: Store, v0: Moment, v: Moment, r: Rec, target: Kind,
      out: Option<map<Slot, Sealed>>) {
    var n := NewName(r, target);
    && Later(v0, v) && SameFiles(v0.disk, v.disk) && TriesOutside(v0.tries, v.tries, {r.key})
    && Frame(v0.disk.keys, v.disk.keys, if out.None? && Risk(st, v0, n) then {n} else {},
        if n in v0.disk.keys then {} else {n})
    && Made(v.log) <= Made(v0.log) + {r.key}
    && (v.Lawful() <==> v0.Lawful() && (n in v0.disk.keys && n !in v.disk.keys ==> Idle(v0.disk, n)))
    && (out.Some? ==> ResealedAll(v.disk.keys, r, target, out.value))
    // No key made for a failure is left without having been asked to go.
    && (out.None? && n in v.disk.keys && n !in v0.disk.keys ==> n in v.asked)
    && (st.steady && st.Reaches(n) && out.None? && (n in v0.disk.keys ==> Risk(st, v0, n)) ==> n !in v.disk.keys)
    && (st.Works() ==> (out.None? <==> Stuck(v0.disk.keys, r, target)))
    && (Pending(r, target) && Deaf(st, OldName(r, target)) ==> out.None?)
  }

  /** Where no file changed and no key was made anew, nothing is lost exactly when what went opened nothing. */
  lemma FrameMeaningIff(a: Disk, b: Disk, n: Name, added: set<Name>)
    requires SameFiles(a, b) && Frame(a.keys, b.keys, {n}, added) && added !! a.keys.Keys
    ensures Meaning(a, b) <==> (n in a.keys && n !in b.keys ==> Idle(a, n))
  {
    if n in a.keys && n !in b.keys && !Idle(a, n) {
      if !Unneeded(a.keys, a.ledger, n) {
        NeededLoses(a.keys, a.ledger, n, b.keys);
      } else {
        NeededLoses(a.keys, a.jobs, n, b.keys);
      }
    } else {
      FileKeeps(a.keys, a.ledger, b.keys, n);
      FileKeeps(a.keys, a.jobs, b.keys, n);
    }
  }

  lemma FileKeeps<K>(a: Keys, m: map<K, Rec>, b: Keys, n: Name)
    requires forall x :: x in a && x != n ==> x in b && b[x] == a[x]
    requires n in a ==> (n in b && b[n] == a[n]) || Unneeded(a, m, n)
    ensures FileMeaning(a, m, b, m)
  {
    forall i | i in m ensures RecMeaning(a, m[i], b, m[i]) {
      forall s | s in m[i].entries && Opens(a, m[i], s).Some? ensures Opens(b, m[i], s) == Opens(a, m[i], s) {
        if Name(m[i].key, m[i].entries[s].wrap) == n {
          assert OpensWith(a, m[i], n);
        }
      }
    }
  }

  /** What dropping the key a settled record left does: nothing, if it has entries this build cannot read. */
  ghost predicate LeftBehind(v0: Moment, v: Moment, r: Rec, target: Kind) {
    var n := OldName(r, target);
    && Later(v0, v) && SameFiles(v0.disk, v.disk) && v.tries == v0.tries
    && Frame(v0.disk.keys, v.disk.keys, if r.unread > 0 then {} else {n}, {})
    && Made(v.log) == Made(v0.log)
    && (v0.Lawful() && Idle(v0.disk, n) ==> v.Lawful())
    && v.asked == v0.asked + if r.unread > 0 then {} else {n}
  }

  // ---- the records of one file ----

  function PendingIn<K>(m: map<K, Rec>, ids: set<K>, target: Kind): set<K> {
    set i | i in ids && i in m && Pending(m[i], target)
  }

  function SettledIn<K>(m: map<K, Rec>, ids: set<K>, target: Kind): set<K> {
    set i | i in ids && i in m && !Pending(m[i], target)
  }

  function KeysAmong<K>(m: map<K, Rec>, ids: set<K>): set<Id> {
    set i | i in ids && i in m :: m[i].key
  }

  function NewNames<K>(m: map<K, Rec>, ids: set<K>, target: Kind): set<Name> {
    set i | i in ids && i in m :: NewName(m[i], target)
  }

  /** The old keys a move may drop: none of a record with unread entries. */
  function OldNames<K>(m: map<K, Rec>, ids: set<K>, target: Kind): set<Name> {
    set i | i in ids && i in m && m[i].unread == 0 :: OldName(m[i], target)
  }

  /** Those of `failed` a move may cost a key of the target kind. */
  ghost function Risky<K>(st: Store, failed: set<K>): set<K> {
    if st.Reliable() then {} else failed
  }

  /** The records that cannot be moved. */
  ghost function StuckIn<K>(m: map<K, Rec>, pending: set<K>, keys: Keys, target: Kind): set<K> {
    set i | i in pending && i in m && Stuck(keys, m[i], target)
  }

  /** Every record in `moving` has its new copies ready, against the keys as they stand. */
  ghost predicate Ready<K>(keys: Keys, m: map<K, Rec>, target: Kind, moving: map<K, map<Slot, Sealed>>) {
    forall i :: i in moving ==> i in m && ResealedAll(keys, m[i], target, moving[i])
  }

  function Moved<K>(m: map<K, Rec>, target: Kind, moving: map<K, map<Slot, Sealed>>): map<K, Rec>
    requires forall i :: i in moving ==> i in m && m[i].entries.Keys <= moving[i].Keys
  {
    map i | i in m :: if i in moving then MovedRec(m[i], target, moving[i]) else m[i]
  }

  /** The old key of each one settled, and read in full, was asked to go. */
  ghost predicate Swept<K>(m: map<K, Rec>, ids: set<K>, target: Kind, asked: set<Name>) {
    OldNames(m, SettledIn(m, ids, target), target) <= asked
  }

  /** None of `ids` has an entry that opens with a key of the target kind already. */
  ghost predicate Spared<K>(keys: Keys, m: map<K, Rec>, ids: set<K>, target: Kind) {
    forall i :: i in ids && i in m ==> !OpensWith(keys, m[i], NewName(m[i], target))
  }

  /** No record of `ids` shares its key. */
  ghost predicate Apart<K>(m: map<K, Rec>, ids: set<K>) {
    forall i, j :: i in ids && j in m && i in m && i != j ==> m[i].key != m[j].key
  }

  /** The key of `r` is no other record's, so what it opens is said by `r` alone. */
  ghost predicate Alone(d: Disk, r: Rec) {
    forall kind :: Idle(d, Name(r.key, kind)) <==> !OpensWith(d.keys, r, Name(r.key, kind))
  }

  lemma GrantAlone(d: Disk, i: Id)
    requires Sane(d) && i in d.ledger
    ensures Alone(d, d.ledger[i])
  {
  }

  lemma JobAlone(d: Disk, n: JobName)
    requires Sane(d) && n in d.jobs && d.jobs[n].key.JobId?
    ensures Alone(d, d.jobs[n])
  {
  }

  /** The first load of each target key is refused and the next is not, no other key loads, and nothing
      else fails: the store that shows what a refused load can cost. */
  ghost predicate Hiccups(st: Store, target: Kind) {
    && st.steady && st.reach
    && forall n: Name, k :: st.refuses(n, k) <==> n.kind != target || k == 0
  }

  ghost predicate Untried<K>(tries: map<Name, nat>, m: map<K, Rec>, target: Kind) {
    forall i :: i in m ==> Count(tries, NewName(m[i], target)) == 0
  }

  /** No key of the target kind is left to any of `ids`. */
  ghost predicate Lost<K>(keys: Keys, m: map<K, Rec>, ids: set<K>, target: Kind) {
    forall i :: i in ids && i in m ==> NewName(m[i], target) !in keys
  }

  // ---- a loop under way ----

  /** Since the keys were `a` those in `done` were taken on: the settled ones' leftovers dropped, the pending
      ones re-sealed but for those in `failed`. */
  ghost predicate FrameUpTo<K>(st: Store, target: Kind, a: Keys, b: Keys, m: map<K, Rec>, done: set<K>,
      failed: set<K>) {
    Frame(a, b, OldNames(m, SettledIn(m, done, target), target) + NewNames(m, Risky(st, failed), target),
        NewNames(m, PendingIn(m, done, target), target))
  }

  ghost predicate KeysUpTo<K>(st: Store, target: Kind, v0: Moment, v: Moment, m: map<K, Rec>, done: set<K>,
      failed: set<K>) {
    && Later(v0, v) && SameFiles(v0.disk, v.disk) && TriesOutside(v0.tries, v.tries, KeysAmong(m, done))
    && FrameUpTo(st, target, v0.disk.keys, v.disk.keys, m, done, failed)
    && Made(v.log) <= Made(v0.log) + KeysAmong(m, PendingIn(m, done, target))
    && (v0.Lawful() && Spared(v0.disk.keys, m, Risky(st, failed), target) ==> v.Lawful())
  }

  ghost predicate Verdicts<K>(st: Store, target: Kind, v0: Moment, v: Moment, m: map<K, Rec>, done: set<K>,
      failed: set<K>) {
    && Swept(m, done, target, v.asked)
    && (st.Works() ==> failed == StuckIn(m, PendingIn(m, done, target), v0.disk.keys, target))
    && (Hiccups(st, target) && Untried(v0.tries, m, target) ==>
          && failed == PendingIn(m, done, target)
          && Lost(v.disk.keys, m, failed, target))
  }

  ghost predicate UpTo<K>(st: Store, target: Kind, v0: Moment, v: Moment, m: map<K, Rec>, done: set<K>,
      moving: map<K, map<Slot, Sealed>>) {
    var failed := PendingIn(m, done, target) - moving.Keys;
    && done <= m.Keys && moving.Keys <= PendingIn(m, done, target)
    && Ready(v.disk.keys, m, target, moving)
    && KeysUpTo(st, target, v0, v, m, done, failed)
    && Verdicts(st, target, v0, v, m, done, failed)
  }

  lemma UpToNone<K>(st: Store, target: Kind, v: Moment, m: map<K, Rec>)
    ensures UpTo(st, target, v, v, m, {}, map[])
  {
  }

  lemma SetsMore<K>(m: map<K, Rec>, done: set<K>, i: K, target: Kind)
    requires i in m
    ensures Pending(m[i], target) ==>
      && PendingIn(m, done + {i}, target) == PendingIn(m, done, target) + {i}
      && SettledIn(m, done + {i}, target) == SettledIn(m, done, target)
    ensures !Pending(m[i], target) ==>
      && PendingIn(m, done + {i}, target) == PendingIn(m, done, target)
      && SettledIn(m, done + {i}, target) == SettledIn(m, done, target) + {i}
    ensures KeysAmong(m, done + {i}) == KeysAmong(m, done) + {m[i].key}
  {
  }

  lemma NamesMore<K>(m: map<K, Rec>, ids: set<K>, i: K, target: Kind)
    requires i in m
    ensures NewNames(m, ids + {i}, target) == NewNames(m, ids, target) + {NewName(m[i], target)}
    ensures OldNames(m, ids + {i}, target) ==
            OldNames(m, ids, target) + if m[i].unread == 0 then {OldName(m[i], target)} else {}
    ensures KeysAmong(m, ids + {i}) == KeysAmong(m, ids) + {m[i].key}
  {
  }

  /** What is still to come is as it was. */
  lemma NotYetTouched<K>(st: Store, target: Kind, v0: Moment, v: Moment, m: map<K, Rec>, done: set<K>,
      failed: set<K>, r: Rec, kind: Kind)
    requires KeysUpTo(st, target, v0, v, m, done, failed) && failed <= done
    requires forall j :: j in done && j in m ==> m[j].key != r.key
    ensures SameAt(v0.disk.keys, v.disk.keys, Name(r.key, kind))
    ensures Count(v.tries, Name(r.key, kind)) == Count(v0.tries, Name(r.key, kind))
  {
    var n := Name(r.key, kind);
    assert n !in OldNames(m, SettledIn(m, done, target), target);
    assert n !in NewNames(m, Risky(st, failed), target);
    assert n !in NewNames(m, PendingIn(m, done, target), target);
    assert n.id !in KeysAmong(m, done);
  }

  function With<K>(moving: map<K, map<Slot, Sealed>>, i: K, out: Option<map<Slot, Sealed>>): map<K, map<Slot, Sealed>> {
    if out.Some? then moving[i := out.value] else moving
  }

  lemma ReadyStill<K>(a: Keys, b: Keys, m: map<K, Rec>, target: Kind, moving: map<K, map<Slot, Sealed>>,
      dropped: set<Name>, added: set<Name>)
    requires Ready(a, m, target, moving) && Frame(a, b, dropped, added)
    requires forall j, n: Name :: j in moving && n in dropped + added ==> n.id != m[j].key
    ensures Ready(b, m, target, moving)
  {
    forall j | j in moving ensures ResealedAll(b, m[j], target, moving[j]) {
      forall kind ensures SameAt(a, b, Name(m[j].key, kind)) {
        assert Name(m[j].key, kind) !in dropped + added;
      }
      ResealedLocal(a, b, m[j], target, moving[j]);
    }
  }

  lemma FramePending<K>(st: Store, target: Kind, a: Keys, b: Keys, c: Keys, m: map<K, Rec>, done: set<K>,
      failed: set<K>, i: K, lost: bool)
    requires FrameUpTo(st, target, a, b, m, done, failed) && i in m && Pending(m[i], target)
    requires Frame(b, c, if lost then {NewName(m[i], target)} else {}, {NewName(m[i], target)})
    requires lost ==> !st.Reliable()
    ensures lost ==> FrameUpTo(st, target, a, c, m, done + {i}, failed + {i})
    ensures !lost ==> FrameUpTo(st, target, a, c, m, done + {i}, failed)
    ensures !lost ==> FrameUpTo(st, target, a, c, m, done + {i}, failed + {i})
  {
    hide Pending, Frame, PendingIn, SettledIn, NewNames, OldNames;
    var n := NewName(m[i], target);
    var settled := OldNames(m, SettledIn(m, done, target), target);
    var d1 := settled + NewNames(m, Risky(st, failed), target);
    var a1 := NewNames(m, PendingIn(m, done, target), target);
    SetsMore(m, done, i, target);
    NamesMore(m, Risky(st, failed), i, target);
    NamesMore(m, PendingIn(m, done, target), i, target);
    FrameThen(a, b, c, d1, a1, if lost then {n} else {}, {n});
    if lost {
      FrameWider(a, c, d1 + {n}, a1 + {n}, d1 + {n}, a1 + {n});
      assert d1 + {n} == settled + (NewNames(m, Risky(st, failed), target) + {n});
    } else {
      assert d1 + {} == d1;
      FrameWider(a, c, d1, a1 + {n}, settled + NewNames(m, Risky(st, failed + {i}), target), a1 + {n});
    }
  }

  lemma MadePending<K>(target: Kind, v0: Moment, v1: Moment, v2: Moment, m: map<K, Rec>, done: set<K>, i: K)
    requires i in m && Pending(m[i], target)
    requires Made(v1.log) <= Made(v0.log) + KeysAmong(m, PendingIn(m, done, target))
    requires Made(v2.log) <= Made(v1.log) + {m[i].key}
    ensures Made(v2.log) <= Made(v0.log) + KeysAmong(m, PendingIn(m, done + {i}, target))
  {
    hide Pending;
    SetsMore(m, done, i, target);
    NamesMore(m, PendingIn(m, done, target), i, target);
  }

  lemma TriesMore<K>(a: map<Name, nat>, b: map<Name, nat>, c: map<Name, nat>, m: map<K, Rec>, done: set<K>, i: K)
    requires i in m && TriesOutside(a, b, KeysAmong(m, done)) && TriesOutside(b, c, {m[i].key})
    ensures TriesOutside(a, c, KeysAmong(m, done + {i}))
  {
  }

  /** One pending record taken on: what it did to keys. */
  lemma KeysPending<K>(st: Store, target: Kind, v0: Moment, v1: Moment, v2: Moment, m: map<K, Rec>, done: set<K>,
      failed: set<K>, i: K, out: Option<map<Slot, Sealed>>)
    requires KeysUpTo(st, target, v0, v1, m, done, failed) && failed <= done
    requires i in m && Pending(m[i], target) && forall j :: j in done && j in m ==> m[j].key != m[i].key
    requires Alone(v1.disk, m[i]) && ResealedAs(st, v1, v2, m[i], target, out)
    ensures KeysUpTo(st, target, v0, v2, m, done + {i}, if out.None? then failed + {i} else failed)
  {
    hide Pending, Alone, FrameUpTo, TriesOutside, Spared, ResealedAll, Stuck, Made, Idle, Moment.Lawful;
    var n := NewName(m[i], target);
    NotYetTouched(st, target, v0, v1, m, done, failed, m[i], target);
    assert Risk(st, v1, n) ==> !st.Reliable();
    var lost := out.None? && Risk(st, v1, n);
    FramePending(st, target, v0.disk.keys, v1.disk.keys, v2.disk.keys, m, done, failed, i, lost);
    MadePending(target, v0, v1, v2, m, done, i);
    TriesMore(v0.tries, v1.tries, v2.tries, m, done, i);
    LawfulPending(st, target, v0, v1, v2, m, failed, if out.None? then failed + {i} else failed, i, out);
  }

  lemma LawfulPending<K>(st: Store, target: Kind, v0: Moment, v1: Moment, v2: Moment, m: map<K, Rec>,
      failed: set<K>, next: set<K>, i: K, out: Option<map<Slot, Sealed>>)
    requires i in m && next == (if out.None? then failed + {i} else failed)
    requires v0.Lawful() && Spared(v0.disk.keys, m, Risky(st, failed), target) ==> v1.Lawful()
    requires Alone(v1.disk, m[i]) && ResealedAs(st, v1, v2, m[i], target, out)
    requires SameAt(v0.disk.keys, v1.disk.keys, NewName(m[i], target))
    ensures v0.Lawful() && Spared(v0.disk.keys, m, Risky(st, next), target) ==> v2.Lawful()
  {
    var n := NewName(m[i], target);
    if v0.Lawful() && Spared(v0.disk.keys, m, Risky(st, next), target) && n in v1.disk.keys && n !in v2.disk.keys {
      assert i in Risky(st, next);
      OpensWithLocal(v0.disk.keys, v1.disk.keys, m[i], n);
    }
  }

  lemma OpensWithLocal(a: Keys, b: Keys, r: Rec, n: Name)
    requires SameAt(a, b, n)
    ensures OpensWith(a, r, n) <==> OpensWith(b, r, n)
  {
    forall s | s in r.entries && r.entries[s].wrap == n.kind && r.key == n.id ensures Opens(a, r, s) == Opens(b, r, s) {
    }
  }

  lemma VerdictsPending<K>(st: Store, target: Kind, v0: Moment, v1: Moment, v2: Moment, m: map<K, Rec>,
      done: set<K>, failed: set<K>, i: K, out: Option<map<Slot, Sealed>>)
    requires KeysUpTo(st, target, v0, v1, m, done, failed) && Verdicts(st, target, v0, v1, m, done, failed)
    requires failed <= done <= m.Keys && i in m && i !in done && Pending(m[i], target)
    requires forall j :: j in done && j in m ==> m[j].key != m[i].key
    requires ResealedAs(st, v1, v2, m[i], target, out)
    ensures Verdicts(st, target, v0, v2, m, done + {i}, if out.None? then failed + {i} else failed)
  {
    hide Pending, FrameUpTo, TriesOutside, Spared, ResealedAll, Made, Idle, Moment.Lawful, Stuck, Store.Works;
    var next := if out.None? then failed + {i} else failed;
    SetsMore(m, done, i, target);
    NotYetTouched(st, target, v0, v1, m, done, failed, m[i], target);
    NotYetTouched(st, target, v0, v1, m, done, failed, m[i], Other(target));
    StuckLocal(v0.disk.keys, v1.disk.keys, m[i], target);
    assert SettledIn(m, done + {i}, target) == SettledIn(m, done, target);
    if Hiccups(st, target) && Untried(v0.tries, m, target) {
      LostPending(st, target, v1, v2, m, failed, i, out);
    }
  }

  /** In a store that hiccups none gets through, and the target key goes. */
  lemma LostPending<K>(st: Store, target: Kind, v1: Moment, v2: Moment, m: map<K, Rec>, failed: set<K>, i: K,
      out: Option<map<Slot, Sealed>>)
    requires Hiccups(st, target) && Lost(v1.disk.keys, m, failed, target) && i in m && Pending(m[i], target)
    requires Count(v1.tries, NewName(m[i], target)) == 0 && ResealedAs(st, v1, v2, m[i], target, out)
    requires forall j :: j in failed && j in m ==> m[j].key != m[i].key
    ensures out.None? && Lost(v2.disk.keys, m, failed + {i}, target)
  {
    hide Pending, Spared, ResealedAll, Made, Idle, Moment.Lawful, Stuck, Store.Works;
    assert Deaf(st, OldName(m[i], target));
    forall j | j in failed + {i} && j in m ensures NewName(m[j], target) !in v2.disk.keys {
      if j != i {
        assert NewName(m[j], target) != NewName(m[i], target);
      }
    }
  }

  /** One pending record more. */
  lemma TakePending<K>(st: Store, target: Kind, v0: Moment, v1: Moment, v2: Moment, m: map<K, Rec>, done: set<K>,
      moving: map<K, map<Slot, Sealed>>, i: K, out: Option<map<Slot, Sealed>>)
    requires UpTo(st, target, v0, v1, m, done, moving) && i in m && i !in done && Pending(m[i], target)
    requires forall j :: j in done && j in m ==> m[j].key != m[i].key
    requires Alone(v1.disk, m[i]) && ResealedAs(st, v1, v2, m[i], target, out)
    ensures UpTo(st, target, v0, v2, m, done + {i}, With(moving, i, out))
  {
    hide Pending, Alone, KeysUpTo, Verdicts, ResealedAll, Made, Idle, Moment.Lawful, Stuck, Store.Works, SettledIn;
    var failed := PendingIn(m, done, target) - moving.Keys;
    SetsMore(m, done, i, target);
    KeysPending(st, target, v0, v1, v2, m, done, failed, i, out);
    VerdictsPending(st, target, v0, v1, v2, m, done, failed, i, out);
    var n := NewName(m[i], target);
    ReadyStill(v1.disk.keys, v2.disk.keys, m, target, moving, if out.None? && Risk(st, v1, n) then {n} else {},
        if n in v1.disk.keys then {} else {n});
    assert PendingIn(m, done + {i}, target) - With(moving, i, out).Keys
        == if out.None? then failed + {i} else failed;
  }

  lemma KeysSettled<K>(st: Store, target: Kind, v0: Moment, v1: Moment, v2: Moment, m: map<K, Rec>, done: set<K>,
      failed: set<K>, i: K)
    requires KeysUpTo(st, target, v0, v1, m, done, failed)
    requires i in m && !Pending(m[i], target) && Alone(v1.disk, m[i]) && LeftBehind(v1, v2, m[i], target)
    ensures KeysUpTo(st, target, v0, v2, m, done + {i}, failed)
  {
    hide Alone, FrameUpTo, Spared, Made, Idle, Moment.Lawful;
    FrameSettled(st, target, v0.disk.keys, v1.disk.keys, v2.disk.keys, m, done, failed, i);
    SettledIsIdle(v1.disk, m[i], target);
    SetsMore(m, done, i, target);
  }

  /** Nothing still names the key a settled record left. */
  lemma SettledIsIdle(d: Disk, r: Rec, target: Kind)
    requires !Pending(r, target) && Alone(d, r)
    ensures Idle(d, OldName(r, target))
  {
    assert !OpensWith(d.keys, r, OldName(r, target));
  }

  lemma FrameSettled<K>(st: Store, target: Kind, a: Keys, b: Keys, c: Keys, m: map<K, Rec>, done: set<K>,
      failed: set<K>, i: K)
    requires FrameUpTo(st, target, a, b, m, done, failed) && i in m && !Pending(m[i], target)
    requires Frame(b, c, if m[i].unread > 0 then {} else {OldName(m[i], target)}, {})
    ensures FrameUpTo(st, target, a, c, m, done + {i}, failed)
  {
    hide Pending, Frame, PendingIn, SettledIn, NewNames, OldNames;
    var d2: set<Name> := if m[i].unread > 0 then {} else {OldName(m[i], target)};
    var settled := OldNames(m, SettledIn(m, done, target), target);
    var risked := NewNames(m, Risky(st, failed), target);
    var made := NewNames(m, PendingIn(m, done, target), target);
    SetsMore(m, done, i, target);
    NamesMore(m, SettledIn(m, done, target), i, target);
    FrameThen(a, b, c, settled + risked, made, d2, {});
    assert settled + risked + d2 == settled + d2 + risked;
    assert made + {} == made;
  }

  lemma VerdictsSettled<K>(st: Store, target: Kind, v0: Moment, v1: Moment, v2: Moment, m: map<K, Rec>,
      done: set<K>, failed: set<K>, i: K)
    requires Verdicts(st, target, v0, v1, m, done, failed) && i in m && !Pending(m[i], target)
    requires LeftBehind(v1, v2, m[i], target)
    ensures Verdicts(st, target, v0, v2, m, done + {i}, failed)
  {
    hide Pending, Stuck, Made, Idle, Moment.Lawful, PendingIn, SettledIn, OldNames, Store.Works;
    SetsMore(m, done, i, target);
    NamesMore(m, SettledIn(m, done, target), i, target);
  }

  /** One settled record more. */
  lemma TakeSettled<K>(st: Store, target: Kind, v0: Moment, v1: Moment, v2: Moment, m: map<K, Rec>, done: set<K>,
      moving: map<K, map<Slot, Sealed>>, i: K)
    requires UpTo(st, target, v0, v1, m, done, moving) && i in m && !Pending(m[i], target)
    requires forall j :: j in moving && j in m ==> m[j].key != m[i].key
    requires Alone(v1.disk, m[i]) && LeftBehind(v1, v2, m[i], target)
    ensures UpTo(st, target, v0, v2, m, done + {i}, moving)
  {
    hide Pending, Alone, KeysUpTo, Verdicts, ResealedAll, Made, Idle, Moment.Lawful, PendingIn, SettledIn;
    var failed := PendingIn(m, done, target) - moving.Keys;
    SetsMore(m, done, i, target);
    KeysSettled(st, target, v0, v1, v2, m, done, failed, i);
    VerdictsSettled(st, target, v0, v1, v2, m, done, failed, i);
    ReadyStill(v1.disk.keys, v2.disk.keys, m, target, moving,
        if m[i].unread > 0 then {} else {OldName(m[i], target)}, {});
  }
}
