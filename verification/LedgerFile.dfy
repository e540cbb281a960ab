/** The grant ledger as JSON values: what a load makes of each record, and what a save writes back,
    records and entries this build cannot read included. */
module LedgerFile {
  import opened Wrappers

  type Text = string

  const SECOND := 1_000_000_000

  datatype Wrap = Aead | Enclave | Newer(name: Text)

  /** One secret's entry as the file holds it: `sealed` is nothing when it is not hex, and `extra` is what
      a newer build added. */
  datatype Entry = Entry(path: Text, cls: Text, digest: Text, sealed: Option<seq<bv8>>, wrap: Wrap,
      extra: map<Text, Text>)

  /** One record. `malformed` says some field is not of the type this build reads. */
  datatype Record = Record(
    id: Text,
    created: int,
    anchorPath: Text,
    name: Text,
    details: Text,
    secrets: seq<Entry>,
    serves: int,
    lastServe: int,
    extra: map<Text, Text>,
    malformed: bool)

  datatype Secret = Secret(path: Text, cls: Text, digest: Text, sealed: seq<bv8>, wrap: Wrap)

  /** A grant in memory, its times to the nanosecond, zero for never served. */
  datatype Grant = Grant(
    id: Text,
    created: int,
    anchorPath: Text,
    name: Text,
    details: Text,
    secrets: map<Text, Secret>,
    unread: seq<Entry>,
    serves: int,
    lastServe: int,
    extra: map<Text, Text>)

  predicate Accepted(r: Record) {
    !r.malformed && r.id != "" && r.anchorPath != "" && r.name != ""
  }

  predicate Readable(e: Entry) {
    !e.wrap.Newer? && e.sealed.Some? && e.digest != "" && e.path != "" && e.extra == map[]
  }

  function SecretOf(e: Entry): Secret
    requires Readable(e)
  {
    Secret(e.path, e.cls, e.digest, e.sealed.value, e.wrap)
  }

  function EntryOf(s: Secret): Entry {
    Entry(s.path, s.cls, s.digest, Some(s.sealed), s.wrap, map[])
  }

  /** The entries a load serves, by digest: of two with one digest, the later. */
  function Served(es: seq<Entry>): map<Text, Secret> {
    if es == [] then map[] else
      var before, e := Served(es[..|es| - 1]), es[|es| - 1];
      if Readable(e) then before[e.digest := SecretOf(e)] else before
  }

  /** The entries it keeps as they are. */
  function Unread(es: seq<Entry>): seq<Entry> {
    if es == [] then [] else
      var e := es[|es| - 1];
      Unread(es[..|es| - 1]) + if Readable(e) then [] else [e]
  }

  function FromRecord(r: Record): Grant {
    Grant(r.id, r.created * SECOND, r.anchorPath, r.name, r.details, Served(r.secrets), Unread(r.secrets),
          r.serves, if r.lastServe > 0 then r.lastServe * SECOND else 0, r.extra)
  }

  function LoadGrants(file: seq<Record>): map<Text, Grant> {
    if file == [] then map[] else
      var before, r := LoadGrants(file[..|file| - 1]), file[|file| - 1];
      if Accepted(r) then before[r.id := FromRecord(r)] else before
  }

  function Skipped(file: seq<Record>): seq<Record> {
    if file == [] then [] else
      var r := file[|file| - 1];
      Skipped(file[..|file| - 1]) + if Accepted(r) then [] else [r]
  }

  /** The kept records no loaded grant has the id of. */
  function Unshadowed(kept: seq<Record>, standing: map<Text, Grant>): seq<Record> {
    if kept == [] then [] else
      var r := kept[|kept| - 1];
      Unshadowed(kept[..|kept| - 1], standing) + if r.id in standing then [] else [r]
  }

  ghost predicate WellFormed(g: Grant) {
    && g.id != "" && g.anchorPath != "" && g.name != "" && g.lastServe >= 0
    && (forall d :: d in g.secrets ==>
         g.secrets[d].digest == d != "" && g.secrets[d].path != "" && !g.secrets[d].wrap.Newer?)
    && (forall e :: e in g.unread ==> !Readable(e))
  }

  ghost predicate Loaded(standing: map<Text, Grant>, kept: seq<Record>) {
    && (forall i :: i in standing ==> standing[i].id == i && WellFormed(standing[i]))
    && (forall r :: r in kept ==> !Accepted(r))
  }

  /** `r` is `g` as a save writes it, its entries in any order. */
  ghost predicate IsRecordOf(g: Grant, r: Record) {
    && r.id == g.id && r.created == g.created / SECOND && r.anchorPath == g.anchorPath && r.name == g.name
    && r.details == g.details && r.serves == g.serves && r.lastServe == g.lastServe / SECOND
    && r.extra == g.extra && !r.malformed
    && Holds(g, r.secrets)
  }

  ghost predicate Holds(g: Grant, es: seq<Entry>) {
    && (forall d :: d in g.secrets ==> EntryOf(g.secrets[d]) in es)
    && (forall e :: e in es ==> if Readable(e) then e.digest in g.secrets
        && EntryOf(g.secrets[e.digest]) == e else e in g.unread)
    && forall e :: !Readable(e) ==> multiset(es)[e] == multiset(g.unread)[e]
  }

  /** `file` is what a save leaves: one record for each grant, in some order, then the kept records. */
  ghost predicate Written(standing: map<Text, Grant>, kept: seq<Record>, file: seq<Record>) {
    exists front: seq<Record> :: WrittenAs(standing, kept, front, file)
  }

  ghost predicate WrittenAs(standing: map<Text, Grant>, kept: seq<Record>, front: seq<Record>, file: seq<Record>) {
    && file == front + Unshadowed(kept, standing)
    && GrantsOnly(standing, front)
    && IdsOf(front) == standing.Keys
  }

  ghost predicate GrantsOnly(standing: map<Text, Grant>, front: seq<Record>) {
    && (forall k :: 0 <= k < |front| ==> front[k].id in standing && IsRecordOf(standing[front[k].id], front[k]))
    && (forall j, k :: 0 <= j < k < |front| ==> front[j].id != front[k].id)
  }

  /** `t` to the whole second. */
  function Whole(t: int): int {
    t / SECOND * SECOND
  }

  lemma WholeTwice(t: int)
    ensures Whole(Whole(t)) == Whole(t)
  {
  }

  /** The same grant to the second, its unread entries the same values in some order. */
  ghost predicate Same(g: Grant, h: Grant) {
    && h.id == g.id && h.anchorPath == g.anchorPath && h.name == g.name && h.details == g.details
    && h.created == Whole(g.created) && h.lastServe == Whole(g.lastServe)
    && h.serves == g.serves && h.extra == g.extra
    && h.secrets == g.secrets && multiset(h.unread) == multiset(g.unread)
  }

  lemma {:induction false} ServedIs(g: Grant, es: seq<Entry>)
    requires forall e :: e in es && Readable(e) ==> e.digest in g.secrets && EntryOf(g.secrets[e.digest]) == e
    ensures forall d :: d in Served(es) <==> exists e :: e in es && Readable(e) && e.digest == d
    ensures forall d :: d in Served(es) ==> d in g.secrets && Served(es)[d] == g.secrets[d]
  {
    if es != [] {
      var n := |es| - 1;
      assert es == es[..n] + [es[n]];
      ServedIs(g, es[..n]);
    }
  }

  lemma {:induction false} UnreadIs(es: seq<Entry>)
    ensures forall e :: multiset(Unread(es))[e] == if Readable(e) then 0 else multiset(es)[e]
  {
    if es != [] {
      var n := |es| - 1;
      assert es == es[..n] + [es[n]];
      UnreadIs(es[..n]);
    }
  }

  lemma RecordReadsBack(g: Grant, r: Record)
    requires WellFormed(g) && IsRecordOf(g, r)
    ensures Accepted(r) && Same(g, FromRecord(r)) && WellFormed(FromRecord(r))
  {
    ServedBack(g, r.secrets);
    UnreadBack(g, r.secrets);
  }

  lemma ServedBack(g: Grant, es: seq<Entry>)
    requires WellFormed(g) && Holds(g, es)
    ensures Served(es) == g.secrets
  {
    ServedIs(g, es);
    forall d | d in g.secrets ensures d in Served(es) {
      var e := EntryOf(g.secrets[d]);
      assert e in es && Readable(e) && e.digest == d;
    }
  }

  lemma UnreadBack(g: Grant, es: seq<Entry>)
    requires WellFormed(g) && Holds(g, es)
    ensures multiset(Unread(es)) == multiset(g.unread) && forall e :: e in Unread(es) ==> !Readable(e)
  {
    UnreadIs(es);
    forall e ensures multiset(Unread(es))[e] == multiset(g.unread)[e] {
      if Readable(e) {
        assert e !in g.unread;
      }
    }
    forall e | e in Unread(es) ensures !Readable(e) {
      assert e in multiset(Unread(es));
    }
  }

  function IdsOf(front: seq<Record>): set<Text> {
    set r | r in front :: r.id
  }

  lemma IdsGrow(front: seq<Record>, r: Record)
    ensures IdsOf(front + [r]) == IdsOf(front) + {r.id}
  {
    forall i | i in IdsOf(front) + {r.id} ensures i in IdsOf(front + [r]) {
      if i == r.id {
        assert r in front + [r];
      } else {
        var q :| q in front && q.id == i;
        assert q in front + [r];
      }
    }
  }

  ghost predicate AllReadBack(standing: map<Text, Grant>, loaded: map<Text, Grant>) {
    forall i :: i in loaded ==> ReadBack(standing, i, loaded[i])
  }

  lemma ReadBackMore(standing: map<Text, Grant>, loaded: map<Text, Grant>, i: Text, h: Grant)
    requires AllReadBack(standing, loaded) && ReadBack(standing, i, h)
    ensures AllReadBack(standing, loaded[i := h])
  {
    var more := loaded[i := h];
    forall j | j in more ensures ReadBack(standing, j, more[j]) {
      if j != i {
        assert ReadBack(standing, j, loaded[j]);
      }
    }
  }

  lemma FrontStep(standing: map<Text, Grant>, front: seq<Record>)
    requires Loaded(standing, []) && GrantsOnly(standing, front) && front != []
    ensures GrantsOnly(standing, front[..|front| - 1])
    ensures var r := front[|front| - 1]; Accepted(r) && ReadBack(standing, r.id, FromRecord(r))
  {
    var r := front[|front| - 1];
    RecordReadsBack(standing[r.id], r);
  }

  lemma NothingReadBack(standing: map<Text, Grant>)
    ensures AllReadBack(standing, map[]) && IdsOf([]) == {}
  {
  }

  lemma {:induction false} LoadFront(standing: map<Text, Grant>, front: seq<Record>)
    requires Loaded(standing, []) && GrantsOnly(standing, front)
    ensures Skipped(front) == [] && LoadGrants(front).Keys == IdsOf(front)
    ensures AllReadBack(standing, LoadGrants(front))
  {
    hide GrantsOnly, Loaded, AllReadBack, ReadBack, Accepted, FromRecord, IdsOf;
    if front == [] {
      NothingReadBack(standing);
    } else {
      var before, r := front[..|front| - 1], front[|front| - 1];
      FrontStep(standing, front);
      LoadFront(standing, before);
      ReadBackMore(standing, LoadGrants(before), r.id, FromRecord(r));
      IdsGrow(before, r);
      assert front == before + [r];
    }
  }

  ghost predicate ReadBack(standing: map<Text, Grant>, i: Text, h: Grant) {
    i in standing && Same(standing[i], h) && WellFormed(h)
  }

  /** Records nobody accepts after the grants change nothing that was loaded. */
  lemma {:induction false} LoadTail(front: seq<Record>, tail: seq<Record>)
    requires forall r :: r in tail ==> !Accepted(r)
    ensures LoadGrants(front + tail) == LoadGrants(front) && Skipped(front + tail) == Skipped(front) + tail
  {
    if tail == [] {
      assert front + tail == front;
    } else {
      var n := |tail| - 1;
      assert (front + tail)[..|front + tail| - 1] == front + tail[..n];
      LoadTail(front, tail[..n]);
      assert tail[..n] + [tail[n]] == tail;
      assert Skipped(front) + tail[..n] + [tail[n]] == Skipped(front) + tail;
    }
  }

  lemma {:induction false} UnshadowedIs(kept: seq<Record>, standing: map<Text, Grant>)
    ensures forall r :: r in Unshadowed(kept, standing) <==> r in kept && r.id !in standing
  {
    if kept != [] {
      UnshadowedIs(kept[..|kept| - 1], standing);
    }
  }

  lemma {:induction false} UnshadowedAll(kept: seq<Record>, standing: map<Text, Grant>)
    requires forall r :: r in kept ==> r.id !in standing
    ensures Unshadowed(kept, standing) == kept
  {
    if kept != [] {
      UnshadowedAll(kept[..|kept| - 1], standing);
    }
  }

  lemma UnshadowedTwice(kept: seq<Record>, a: map<Text, Grant>, b: map<Text, Grant>)
    requires a.Keys == b.Keys
    ensures Unshadowed(Unshadowed(kept, a), b) == Unshadowed(kept, a)
  {
    UnshadowedIs(kept, a);
    forall r | r in Unshadowed(kept, a) ensures r.id !in b {
      assert r.id !in a.Keys;
    }
    UnshadowedAll(Unshadowed(kept, a), b);
  }

  ghost predicate SameGrants(a: map<Text, Grant>, b: map<Text, Grant>) {
    a.Keys == b.Keys && forall i :: i in a ==> Same(a[i], b[i])
  }

  function KeptIn(file: seq<Record>): seq<Record> {
    Unshadowed(Skipped(file), LoadGrants(file))
  }

  /** Loading `file` gives the same grants, and every record this build could not accept. */
  ghost predicate Survives(standing: map<Text, Grant>, kept: seq<Record>, file: seq<Record>) {
    SameGrants(standing, LoadGrants(file)) && KeptIn(file) == Unshadowed(kept, standing)
  }

  /** Loading what a save wrote gives back what it wrote. */
  lemma SaveThenLoad(standing: map<Text, Grant>, kept: seq<Record>, file: seq<Record>)
    requires Loaded(standing, kept) && Written(standing, kept, file)
    ensures Survives(standing, kept, file) && Loaded(LoadGrants(file), KeptIn(file))
  {
    var front :| WrittenAs(standing, kept, front, file);
    UnshadowedIs(kept, standing);
    LoadFront(standing, front);
    LoadTail(front, Unshadowed(kept, standing));
    assert Skipped(file) == Unshadowed(kept, standing);
    UnshadowedTwice(kept, standing, LoadGrants(file));
  }

  lemma SameTransitive(a: map<Text, Grant>, b: map<Text, Grant>, c: map<Text, Grant>)
    requires SameGrants(a, b) && SameGrants(b, c)
    ensures SameGrants(a, c)
  {
    forall i | i in a ensures Same(a[i], c[i]) {
      assert i in b;
      WholeTwice(a[i].created);
      WholeTwice(a[i].lastServe);
    }
  }

  lemma SurvivesTransitive(standing: map<Text, Grant>, kept: seq<Record>, file: seq<Record>, last: seq<Record>)
    requires Survives(standing, kept, file) && Survives(LoadGrants(file), KeptIn(file), last)
    ensures Survives(standing, kept, last)
  {
    SameTransitive(standing, LoadGrants(file), LoadGrants(last));
    UnshadowedTwice(kept, standing, LoadGrants(file));
  }

  /** Each file of `files` saves what the one before it loaded to, starting from memory. */
  ghost predicate Cycles(standing: map<Text, Grant>, kept: seq<Record>, files: seq<seq<Record>>)
    decreases |files|
  {
    files != [] ==> Written(standing, kept, files[0]) && Cycles(LoadGrants(files[0]), KeptIn(files[0]), files[1..])
  }

  /** However many saves and loads follow one another, the last load has what memory had at first. */
  lemma {:induction false} ManyCycles(standing: map<Text, Grant>, kept: seq<Record>, files: seq<seq<Record>>)
    requires Loaded(standing, kept) && Cycles(standing, kept, files) && files != []
    ensures Survives(standing, kept, files[|files| - 1])
    decreases |files|
  {
    SaveThenLoad(standing, kept, files[0]);
    if |files| > 1 {
      ManyCycles(LoadGrants(files[0]), KeptIn(files[0]), files[1..]);
      SurvivesTransitive(standing, kept, files[0], files[|files| - 1]);
    }
  }

  /** A file a save wrote never holds two grants of one id, nor a kept record beside a grant of its id. */
  lemma OneOfEach(standing: map<Text, Grant>, kept: seq<Record>, file: seq<Record>, j: nat, k: nat)
    requires Loaded(standing, kept) && Written(standing, kept, file) && j < k < |file| && Accepted(file[j])
    ensures file[j].id != file[k].id
  {
    var front :| WrittenAs(standing, kept, front, file);
    UnshadowedIs(kept, standing);
    if j < |front| {
      assert file[j] == front[j];
      if k >= |front| {
        assert file[k] in Unshadowed(kept, standing);
      }
    } else {
      assert false;
    }
  }

  lemma FreshRecord(standing: map<Text, Grant>, front: seq<Record>, r: Record)
    requires GrantsOnly(standing, front) && r.id in standing && IsRecordOf(standing[r.id], r) && r.id !in IdsOf(front)
    ensures GrantsOnly(standing, front + [r])
  {
    forall k | 0 <= k < |front| ensures front[k].id != r.id {
      assert front[k] in front;
    }
  }

  lemma {:induction false} EntriesWellFormed(es: seq<Entry>)
    ensures forall d :: d in Served(es) ==>
      Served(es)[d].digest == d != "" && Served(es)[d].path != "" && !Served(es)[d].wrap.Newer?
    ensures forall e :: e in Unread(es) ==> !Readable(e)
  {
    if es != [] {
      EntriesWellFormed(es[..|es| - 1]);
    }
  }

  lemma {:induction false} AnyFileLoads(file: seq<Record>)
    ensures Loaded(LoadGrants(file), Skipped(file))
  {
    if file != [] {
      AnyFileLoads(file[..|file| - 1]);
      EntriesWellFormed(file[|file| - 1].secrets);
    }
  }

  lemma AnyFileKept(file: seq<Record>)
    ensures Loaded(LoadGrants(file), KeptIn(file))
  {
    AnyFileLoads(file);
    UnshadowedIs(Skipped(file), LoadGrants(file));
  }

  /** Whatever the file held, a load and a save of it lose nothing the load took in or kept. */
  lemma AnyFileSurvives(file: seq<Record>, saved: seq<Record>)
    requires Written(LoadGrants(file), KeptIn(file), saved)
    ensures Loaded(LoadGrants(file), KeptIn(file)) && Survives(LoadGrants(file), KeptIn(file), saved)
  {
    AnyFileKept(file);
    SaveThenLoad(LoadGrants(file), KeptIn(file), saved);
  }

  // ---- from one file to the next ----

  /** An entry this build uses: one of a known wrap, sealed bytes that read, both names, and nothing more. */
  predicate Plain(e: Entry) {
    !e.wrap.Newer? && e.sealed != None && e.digest != "" && e.path != "" && e.extra == map[]
  }

  /** A record that names a grant. */
  predicate NamesGrant(r: Record) {
    !r.malformed && r.id != "" && r.anchorPath != "" && r.name != ""
  }

  /** `s` is `r` written again: each field it had, fields of a newer build too; every entry this build cannot use
      as often as it was there, and of those it can, of each digest the last. */
  ghost predicate Carried(r: Record, s: Record) {
    && s.id == r.id && s.created == r.created && s.anchorPath == r.anchorPath && s.name == r.name
    && s.details == r.details && s.serves == r.serves && s.extra == r.extra && !s.malformed
    && s.lastServe == (if r.lastServe > 0 then r.lastServe else 0)
    && CarriedEntries(r.secrets, s.secrets)
  }

  ghost predicate LastOf(es: seq<Entry>, i: int) {
    0 <= i < |es| && Plain(es[i]) && forall j :: i < j < |es| && Plain(es[j]) ==> es[j].digest != es[i].digest
  }

  ghost predicate CarriedEntries(es: seq<Entry>, out: seq<Entry>) {
    && (forall e :: !Plain(e) ==> multiset(out)[e] == multiset(es)[e])
    && (forall i :: LastOf(es, i) ==> es[i] in out)
    && (forall e :: e in out && Plain(e) ==> exists i :: LastOf(es, i) && es[i] == e)
  }

  lemma LastOfMore(es: seq<Entry>, i: int)
    requires es != []
    ensures var n := |es| - 1;
      LastOf(es, i) <==>
        || (i == n && Plain(es[n]))
        || (LastOf(es[..n], i) && !(Plain(es[n]) && es[n].digest == es[i].digest))
  {
  }

  /** What `served` holds is, of each digest, the last entry this build can use. */
  ghost predicate ServesLast(es: seq<Entry>, served: map<Text, Secret>) {
    && (forall i :: LastOf(es, i) ==> es[i].digest in served && EntryOf(served[es[i].digest]) == es[i])
    && forall d :: d in served ==> exists i :: 0 <= i < |es| && LastOf(es, i) && es[i].digest == d
  }

  lemma ServedMore(es: seq<Entry>, before: map<Text, Secret>)
    requires es != [] && ServesLast(es[..|es| - 1], before)
    ensures var e := es[|es| - 1]; ServesLast(es, if Readable(e) then before[e.digest := SecretOf(e)] else before)
  {
    hide LastOf;
    var n := |es| - 1;
    var e := es[n];
    var after := if Readable(e) then before[e.digest := SecretOf(e)] else before;
    forall i | LastOf(es, i) ensures 0 <= i <= n && es[i].digest in after && EntryOf(after[es[i].digest]) == es[i] {
      LastOfMore(es, i);
      LastOfRange(es, i);
      assert i < n ==> es[..n][i] == es[i];
    }
    forall d | d in after ensures exists i :: 0 <= i < |es| && LastOf(es, i) && es[i].digest == d {
      if Plain(e) && e.digest == d {
        LastOfMore(es, n);
      } else {
        var i :| 0 <= i < n && LastOf(es[..n], i) && es[..n][i].digest == d;
        LastOfMore(es, i);
      }
    }
  }

  lemma LastOfRange(es: seq<Entry>, i: int)
    requires LastOf(es, i)
    ensures 0 <= i < |es| && Plain(es[i])
  {
  }

  lemma {:induction false} ServedIsLast(es: seq<Entry>)
    ensures ServesLast(es, Served(es))
  {
    hide ServesLast;
    if es == [] {
      NoneServed();
    } else {
      ServedIsLast(es[..|es| - 1]);
      ServedMore(es, Served(es[..|es| - 1]));
    }
  }

  lemma NoneServed()
    ensures ServesLast([], map[])
  {
  }

  lemma EntriesCarried(r: Record, out: seq<Entry>)
    requires Holds(FromRecord(r), out)
    ensures CarriedEntries(r.secrets, out)
  {
    var g := FromRecord(r);
    ServedIsLast(r.secrets);
    UnreadIs(r.secrets);
    forall e | e in out && Plain(e) ensures exists i :: LastOf(r.secrets, i) && r.secrets[i] == e {
      assert EntryOf(g.secrets[e.digest]) == e;
    }
  }

  lemma RecordCarried(r: Record, s: Record)
    requires IsRecordOf(FromRecord(r), s)
    ensures Carried(r, s)
  {
    EntriesCarried(r, s.secrets);
  }

  ghost predicate LastRecord(file: seq<Record>, i: int) {
    && 0 <= i < |file| && NamesGrant(file[i])
    && forall j :: i < j < |file| && NamesGrant(file[j]) ==> file[j].id != file[i].id
  }

  lemma LastRecordMore(file: seq<Record>, i: int)
    requires file != []
    ensures var n := |file| - 1;
      LastRecord(file, i) <==>
        || (i == n && NamesGrant(file[n]))
        || (LastRecord(file[..n], i) && !(NamesGrant(file[n]) && file[n].id == file[i].id))
  {
  }

  lemma LastRecordRange(file: seq<Record>, i: int)
    requires LastRecord(file, i)
    ensures 0 <= i < |file| && NamesGrant(file[i])
  {
  }

  /** What `loaded` holds is, of each id, the last record that names a grant. */
  ghost predicate LoadsLast(file: seq<Record>, loaded: map<Text, Grant>) {
    && (forall i :: LastRecord(file, i) ==> file[i].id in loaded && loaded[file[i].id] == FromRecord(file[i]))
    && forall d :: d in loaded ==> exists i :: 0 <= i < |file| && LastRecord(file, i) && file[i].id == d
  }

  lemma LoadedMore(file: seq<Record>, before: map<Text, Grant>)
    requires file != [] && LoadsLast(file[..|file| - 1], before)
    ensures var r := file[|file| - 1]; LoadsLast(file, if NamesGrant(r) then before[r.id := FromRecord(r)] else before)
  {
    hide LastRecord, FromRecord, NamesGrant;
    var n := |file| - 1;
    var r := file[n];
    var after := if NamesGrant(r) then before[r.id := FromRecord(r)] else before;
    forall i | LastRecord(file, i)
      ensures 0 <= i <= n && file[i].id in after && after[file[i].id] == FromRecord(file[i]) {
      LastRecordMore(file, i);
      LastRecordRange(file, i);
      assert i < n ==> file[..n][i] == file[i];
    }
    forall d | d in after ensures exists i :: 0 <= i < |file| && LastRecord(file, i) && file[i].id == d {
      if NamesGrant(r) && r.id == d {
        LastRecordMore(file, n);
      } else {
        var i :| 0 <= i < n && LastRecord(file[..n], i) && file[..n][i].id == d;
        LastRecordMore(file, i);
      }
    }
  }

  lemma {:induction false} LoadedIsLast(file: seq<Record>)
    ensures LoadsLast(file, LoadGrants(file))
  {
    hide LoadsLast, FromRecord;
    if file == [] {
      NoneLoaded();
    } else {
      LoadedIsLast(file[..|file| - 1]);
      LoadedMore(file, LoadGrants(file[..|file| - 1]));
    }
  }

  lemma NoneLoaded()
    ensures LoadsLast([], map[])
  {
  }

  lemma {:induction false} SkippedIs(file: seq<Record>)
    ensures forall r :: r in Skipped(file) <==> r in file && !NamesGrant(r)
  {
    if file != [] {
      SkippedIs(file[..|file| - 1]);
    }
  }

  ghost predicate KeptRecord(file: seq<Record>, r: Record) {
    r in file && !NamesGrant(r) && forall q :: q in file && NamesGrant(q) ==> q.id != r.id
  }

  /** A grant's last record is written again. */
  lemma GrantCarried(file: seq<Record>, grants: map<Text, Grant>, front: seq<Record>, i: int) returns (s: Record)
    requires LoadsLast(file, grants) && GrantsOnly(grants, front) && IdsOf(front) == grants.Keys && LastRecord(file, i)
    ensures s in front && Carried(file[i], s)
  {
    hide FromRecord, IsRecordOf, Carried, NamesGrant;
    assert file[i].id in IdsOf(front);
    s :| s in front && s.id == file[i].id;
    RecordCarried(file[i], s);
  }

  /** And every record of a grant written is one of these. */
  lemma CarriedFrom(file: seq<Record>, grants: map<Text, Grant>, front: seq<Record>, s: Record) returns (i: int)
    requires LoadsLast(file, grants) && GrantsOnly(grants, front) && s in front
    ensures LastRecord(file, i) && Carried(file[i], s)
  {
    hide FromRecord, IsRecordOf, Carried, NamesGrant;
    i :| 0 <= i < |file| && LastRecord(file, i) && file[i].id == s.id;
    RecordCarried(file[i], s);
  }

  /** Some record of a grant, so a last one. */
  lemma {:induction false} SomeLast(file: seq<Record>, q: Record)
    requires q in file && NamesGrant(q)
    ensures exists i :: 0 <= i < |file| && LastRecord(file, i) && file[i].id == q.id
  {
    hide LastRecord, NamesGrant;
    var n := |file| - 1;
    if NamesGrant(file[n]) && file[n].id == q.id {
      LastRecordMore(file, n);
    } else {
      assert file == file[..n] + [file[n]];
      SomeLast(file[..n], q);
      var i :| 0 <= i < n && LastRecord(file[..n], i) && file[..n][i].id == q.id;
      LastRecordMore(file, i);
    }
  }

  /** What is written after the grants is each record no grant was loaded from and none has the id of. */
  lemma KeptAre(file: seq<Record>)
    ensures forall r :: r in Unshadowed(KeptIn(file), LoadGrants(file)) <==> KeptRecord(file, r)
  {
    hide LastRecord, LoadGrants, Unshadowed, Skipped, FromRecord;
    var grants := LoadGrants(file);
    LoadedIsLast(file);
    SkippedIs(file);
    UnshadowedIs(Skipped(file), grants);
    UnshadowedIs(KeptIn(file), grants);
    forall r | r in file && !NamesGrant(r) ensures r.id in grants <==> !KeptRecord(file, r) {
      if r.id in grants {
        var i :| 0 <= i < |file| && LastRecord(file, i) && file[i].id == r.id;
        LastRecordRange(file, i);
        assert file[i] in file;
      } else if q :| q in file && NamesGrant(q) && q.id == r.id {
        SomeLast(file, q);
      }
    }
  }

  /** A load and a save give back the file they began with: of each grant's records the last, every field and
      entry of it carried over, and each record this build cannot load just as it was, unless a grant has its id.
      Nothing is in the new file besides. */
  lemma FileCarriesOver(file: seq<Record>, saved: seq<Record>)
    requires Written(LoadGrants(file), KeptIn(file), saved)
    ensures forall i :: LastRecord(file, i) ==> exists s :: s in saved && Carried(file[i], s)
    ensures forall r :: KeptRecord(file, r) ==> r in saved
    ensures forall s :: s in saved ==> KeptRecord(file, s) || exists i :: LastRecord(file, i) && Carried(file[i], s)
  {
    hide Carried, KeptRecord, GrantsOnly, NamesGrant, Unshadowed, Skipped, LoadGrants, LoadsLast, IdsOf;
    var front :| WrittenAs(LoadGrants(file), KeptIn(file), front, saved);
    LoadedIsLast(file);
    KeptAre(file);
    forall i | LastRecord(file, i) ensures exists s :: s in saved && Carried(file[i], s) {
      var s := GrantCarried(file, LoadGrants(file), front, i);
    }
    forall s | s in saved && !KeptRecord(file, s) ensures exists i :: LastRecord(file, i) && Carried(file[i], s) {
      var i := CarriedFrom(file, LoadGrants(file), front, s);
    }
  }

  /** What is found under the ledger's path; a file too new for this build counts as unreadable. */
  datatype OnDisk = Missing | Unreadable | Records(records: seq<Record>)

  class Ledger {
    var standing: map<Text, Grant>
    var kept: seq<Record>
    /** Whether there is a path to save to. */
    var ready: bool

    ghost predicate Valid()
      reads this
    {
      Loaded(standing, kept)
    }

    constructor ()
      ensures Valid() && standing == map[] && kept == [] && !ready
    {
      standing, kept, ready := map[], [], false;
    }

    /** Loads the file at start-up. One that cannot be read loads nothing, and is never saved over. */
    method SetGrantLedger(disk: OnDisk)
      requires Valid() && standing == map[]
      modifies this
      ensures Valid() && (ready <==> !disk.Unreadable?)
      ensures disk.Records? ==> standing == LoadGrants(disk.records) && kept == KeptIn(disk.records)
      ensures !disk.Records? ==> standing == map[] && kept == []
      // Just the grants named in full are loaded, and of the other records those no grant has the id of are kept.
      ensures disk.Records? ==>
        && (forall d :: d in standing <==> exists i :: LastRecord(disk.records, i) && disk.records[i].id == d)
        && forall r :: r in kept <==> r in disk.records && !NamesGrant(r) && r.id !in standing
    {
      kept, ready := [], false;
      match disk
      case Missing => ready := true;
      case Unreadable =>
      case Records(file) =>
        LoadRecords(file);
        LoadedIsLast(file);
        SkippedIs(file);
        UnshadowedIs(Skipped(file), LoadGrants(file));
        ready := true;
    }

    /** Reads the file's records one by one: a grant this build accepts is loaded, any other is kept. */
    method LoadRecords(file: seq<Record>)
      modifies this`standing, this`kept
      ensures Valid() && standing == LoadGrants(file) && kept == KeptIn(file)
    {
      hide FromRecord, LastOf, Plain, EntryOf, Accepted, WellFormed, Loaded;
      var loaded: map<Text, Grant> := map[];
      var skipped: seq<Record> := [];
      var i := 0;
      while i < |file|
        invariant 0 <= i <= |file| && loaded == LoadGrants(file[..i]) && skipped == Skipped(file[..i])
      {
        assert file[..i + 1][..i] == file[..i];
        if Accepted(file[i]) {
          var g := GrantFromLedger(file[i]);
          loaded := loaded[file[i].id := g];
        } else {
          skipped := skipped + [file[i]];
        }
        i := i + 1;
      }
      assert file[..i] == file;
      standing := loaded;
      kept := UnshadowedGrants(skipped, loaded);
      AnyFileKept(file);
    }

    /** A record's entries, one by one: served, or kept as they are. */
    static method GrantFromLedger(r: Record) returns (g: Grant)
      ensures g == FromRecord(r)
      ensures forall i :: LastOf(r.secrets, i) ==>
        r.secrets[i].digest in g.secrets && EntryOf(g.secrets[r.secrets[i].digest]) == r.secrets[i]
      ensures forall d :: d in g.secrets ==> exists i :: LastOf(r.secrets, i) && r.secrets[i].digest == d
      ensures forall e :: multiset(g.unread)[e] == if Plain(e) then 0 else multiset(r.secrets)[e]
    {
      var secrets: map<Text, Secret> := map[];
      var unread: seq<Entry> := [];
      var i := 0;
      while i < |r.secrets|
        invariant 0 <= i <= |r.secrets| && secrets == Served(r.secrets[..i]) && unread == Unread(r.secrets[..i])
      {
        var e := r.secrets[i];
        assert r.secrets[..i + 1][..i] == r.secrets[..i];
        if e.wrap.Newer? || e.sealed.None? || e.digest == "" || e.path == "" || e.extra != map[] {
          unread := unread + [e];
        } else {
          secrets := secrets[e.digest := Secret(e.path, e.cls, e.digest, e.sealed.value, e.wrap)];
        }
        i := i + 1;
      }
      assert r.secrets[..i] == r.secrets;
      g := Grant(r.id, r.created * SECOND, r.anchorPath, r.name, r.details, secrets, unread, r.serves,
                 if r.lastServe > 0 then r.lastServe * SECOND else 0, r.extra);
      ServedIsLast(r.secrets);
      UnreadIs(r.secrets);
    }

    static method UnshadowedGrants(kept: seq<Record>, standing: map<Text, Grant>) returns (out: seq<Record>)
      ensures out == Unshadowed(kept, standing)
    {
      out := [];
      var i := 0;
      while i < |kept|
        invariant 0 <= i <= |kept| && out == Unshadowed(kept[..i], standing)
      {
        assert kept[..i + 1][..i] == kept[..i];
        if kept[i].id !in standing {
          out := out + [kept[i]];
        }
        i := i + 1;
      }
      assert kept[..i] == kept;
    }

    /** What a save writes, if it may write: every grant, then the kept records, changing nothing in memory. */
    method SaveLedger() returns (out: Option<seq<Record>>)
      requires Valid()
      ensures out.Some? <==> ready
      ensures out.Some? ==> Written(standing, kept, out.value)
    {
      if !ready {
        return None;
      }
      var file := RecordsToWrite();
      return Some(file);
    }

    method RecordsToWrite() returns (file: seq<Record>)
      requires Valid()
      ensures Written(standing, kept, file)
    {
      var front: seq<Record> := [];
      var todo := standing.Keys;
      while todo != {}
        invariant todo <= standing.Keys && GrantsOnly(standing, front) && IdsOf(front) == standing.Keys - todo
      {
        var i :| i in todo;
        var r := RecordFor(standing[i]);
        IdsGrow(front, r);
        FreshRecord(standing, front, r);
        front := front + [r];
        todo := todo - {i};
      }
      var back := UnshadowedGrants(kept, standing);
      file := front + back;
      assert WrittenAs(standing, kept, front, file);
    }

    static method RecordFor(g: Grant) returns (r: Record)
      requires WellFormed(g)
      ensures IsRecordOf(g, r)
    {
      var entries: seq<Entry> := [];
      var todo := g.secrets.Keys;
      while todo != {}
        invariant todo <= g.secrets.Keys
        invariant forall d :: d in g.secrets && d !in todo ==> EntryOf(g.secrets[d]) in entries
        invariant forall e :: e in entries ==> Readable(e) && e.digest in g.secrets && EntryOf(g.secrets[e.digest]) == e
      {
        var d :| d in todo;
        entries := entries + [EntryOf(g.secrets[d])];
        todo := todo - {d};
      }
      forall e | !Readable(e) ensures multiset(entries + g.unread)[e] == multiset(g.unread)[e] {
        assert e !in entries;
      }
      r := Record(g.id, g.created / SECOND, g.anchorPath, g.name, g.details, entries + g.unread,
                  g.serves, g.lastServe / SECOND, g.extra, false);
    }
  }
}
