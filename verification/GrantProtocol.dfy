/** Grants and never-ask jobs over two stores, as a step system: the files and the key store
    survive a crash, everything else does not, and a crash may come between any two steps. Each
    step is one section under a lock, one key-store call or one file write. */
module GrantProtocol {
  import opened GrantKeys
  import opened Wrappers

  type Approved = map<Id, map<Slot, Dek>>

  /** History no code can see: the ids minted, what was approved, whose ending has begun, every key
      ever destroyed, and the revoked grants whose key, or whose ledger record, is known gone. */
  datatype Hist = Hist(
    approved: Approved,
    grantIds: set<Id>,
    jobIds: set<Id>,
    ended: set<Id>,
    shredded: set<KeyBytes>,
    destroyed: set<Id>,
    erased: set<Id>)

  datatype Served = Served(id: Id, slot: Slot, dek: Dek)

  datatype Owner = ByServe | ByCreate(id: Id) | ByRevoke(id: Id)

  /** ledgerMu: nobody's, or one save's from its snapshot to the end of its write. */
  datatype Saver = Free | Saving(snapshot: map<Id, Rec>, version: int, owner: Owner)

  datatype CStage = Minted(kind: Kind) | Ready(rec: Rec, key: KeyBytes) | Recording | Failed | Withdrawn | Gone
  datatype RStage = Begun | Retired | Dropped
  datatype Phase = Down | Boot | Serving

  /** One process. `objs` is every grant object it has made or loaded, published or not; `log` every
      value its published grants have had, and `written` which of them the ledger file holds. */
  datatype Proc = Proc(
    phase: Phase,
    ledgerOk: bool,
    jobsOk: bool,
    objs: map<Id, Rec>,
    standing: set<Id>,
    dead: set<Id>,
    cached: map<Id, KeyBytes>,
    saver: Saver,
    creates: map<Id, CStage>,
    revokes: map<Id, RStage>,
    jobs: map<JobName, Rec>,
    jobMade: map<Id, Kind>,
    jobDrops: set<Id>,
    log: seq<map<Id, Rec>>,
    written: int)

  /** `served` is every DEK a serve has handed out, across all processes. */
  datatype State = State(disk: Disk, hist: Hist, proc: Proc, served: seq<Served>)

  const NO_PROC := Proc(Down, false, false, map[], {}, {}, map[], Free, map[], map[], map[], map[], {}, [map[]], 0)

  const INIT := State(Disk(map[], 0, map[], map[]), Hist(map[], {}, {}, {}, {}, {}, {}), NO_PROC, [])

  /** Every id minted so far: a grant's begins with g-, a job's with j-, and none is minted twice. */
  function Ids(h: Hist): set<Id> {
    h.grantIds + h.jobIds
  }

  function Published(objs: map<Id, Rec>, standing: set<Id>): map<Id, Rec> {
    map id | id in objs && id in standing :: objs[id]
  }

  function Mem(p: Proc): map<Id, Rec> {
    Published(p.objs, p.standing)
  }

  datatype Secret = Secret(dek: Dek, cls: Class)

  function SealAll(key: KeyBytes, id: Id, secrets: map<Slot, Secret>): Rec {
    Rec(id, map s | s in secrets :: Entry(secrets[s].cls, Seal(key, secrets[s].dek, secrets[s].cls), key.kind), 0)
  }

  function DeksOf(secrets: map<Slot, Secret>): map<Slot, Dek> {
    map s | s in secrets :: secrets[s].dek
  }

  function Names(id: Id, kinds: set<Kind>): set<Name> {
    set k | k in kinds :: Name(id, k)
  }

  /** The bytes filed under `names`. */
  function BytesOf(keys: map<Name, KeyBytes>, names: set<Name>): set<KeyBytes> {
    set n | n in names && n in keys :: keys[n]
  }

  /** No kind of key `r` is sealed for is left in the store. */
  ghost predicate KeyGone(keys: map<Name, KeyBytes>, r: Rec) {
    forall s :: s in r.entries ==> Name(r.key, r.entries[s].wrap) !in keys
  }

  datatype Label =
    | Crash
    | Load(ledgerOk: bool, jobsOk: bool)
    | AtBoot(step: BootStep)
    | Listen
    | Mint(id: Id, kind: Kind)
    | SealGrant(id: Id, secrets: map<Slot, Secret>)
    | Abort(id: Id)
    | Publish(id: Id)
    | SaveBegin(owner: Owner)
    | SaveEnd(ok: bool)
    | Unpublish(id: Id)
    | RetireCreate(id: Id)
    | DropCreate(id: Id, kinds: set<Kind>)
    | RevokeBegin(id: Id)
    | RetireRevoke(id: Id)
    | DropRevoke(id: Id, kinds: set<Kind>)
    | Serve(id: Id, slot: Slot)
    | MintJob(id: Id, kind: Kind)
    | AbandonJob(id: Id)
    | ApproveJob(id: Id, name: JobName, secrets: map<Slot, Secret>, ok: bool)
    | ApproveEachTime(name: JobName, ok: bool)
    | RemoveJob(name: JobName, ok: bool)
    | DropJob(id: Id, kinds: set<Kind>)
    | SaveJobs(ok: bool)

  predicate Has<T(==)>(m: map<Id, T>, id: Id, stage: T) {
    id in m && m[id] == stage
  }

  ghost predicate Can(s: State, l: Label) {
    var p := s.proc;
    match l
    case Crash => true
    case Load(_, _) => p.phase == Down
    case AtBoot(b) =>
      && p.phase == Boot && Legal(s.disk, b)
      && (b.WriteLedger? ==> p.ledgerOk)
      && (b.WriteJobs? ==> p.jobsOk)
      && (b.AddKey? ==> b.name.id in Ids(s.hist))
    case Listen => p.phase == Boot
    case Mint(id, kind) => p.phase == Serving && p.ledgerOk && id.GrantId? && id !in Ids(s.hist)
    case SealGrant(id, _) => id in p.creates && p.creates[id].Minted? && Name(id, p.creates[id].kind) in s.disk.keys
    case Abort(id) => id in p.creates && p.creates[id].Minted?
    case Publish(id) => id in p.creates && p.creates[id].Ready?
    case SaveBegin(owner) =>
      && p.phase == Serving && p.saver.Free?
      && (owner.ByCreate? ==> Has(p.creates, owner.id, Recording))
      && (owner.ByRevoke? ==> Has(p.revokes, owner.id, Dropped))
    case SaveEnd(_) => p.saver.Saving?
    case Unpublish(id) => Has(p.creates, id, Failed)
    case RetireCreate(id) => Has(p.creates, id, Withdrawn)
    case DropCreate(id, _) => Has(p.creates, id, Gone)
    case RevokeBegin(id) => p.phase == Serving && id in p.standing
    case RetireRevoke(id) => Has(p.revokes, id, Begun)
    case DropRevoke(id, _) => Has(p.revokes, id, Retired)
    // Whether it is still published was looked up in an earlier section, and is not looked up again.
    case Serve(id, slot) =>
      && p.phase == Serving && id in p.objs && id !in p.dead && slot in p.objs[id].entries
      && (var e := p.objs[id].entries[slot];
          (id in p.cached && p.cached[id].kind == e.wrap) || Name(id, e.wrap) in s.disk.keys)
    case MintJob(id, kind) => p.phase == Serving && id.JobId? && id !in Ids(s.hist)
    case AbandonJob(id) => id in p.jobMade
    case ApproveJob(id, _, _, ok) => id in p.jobMade && Name(id, p.jobMade[id]) in s.disk.keys && (ok ==> p.jobsOk)
    case ApproveEachTime(_, ok) => p.phase == Serving && (ok ==> p.jobsOk)
    case RemoveJob(name, ok) => p.phase == Serving && name in p.jobs && (ok ==> p.jobsOk)
    case DropJob(id, _) => id in p.jobDrops
    case SaveJobs(ok) => p.phase == Serving && (ok ==> p.jobsOk)
  }

  function AddBytes(s: State, id: Id, kind: Kind): State {
    var b := KeyBytes(id, kind, s.disk.serial);
    s.(disk := s.disk.(keys := s.disk.keys[Name(id, kind) := b], serial := s.disk.serial + 1))
  }

  function DropBytes(s: State, id: Id, kinds: set<Kind>): State {
    s.(disk := s.disk.(keys := s.disk.keys - Names(id, kinds)),
       hist := s.hist.(shredded := s.hist.shredded + BytesOf(s.disk.keys, Names(id, kinds))))
  }

  function Ending(s: State, id: Id): State {
    s.(hist := s.hist.(ended := s.hist.ended + {id}))
  }

  function Logged(p: Proc): Proc {
    p.(log := p.log + [Mem(p)])
  }

  /** An approved record takes its name's place, and the old one's key is on its way out. */
  function FileJob(s: State, name: JobName, r: Rec): State {
    var jobs := s.proc.jobs[name := r];
    var t := s.(disk := s.disk.(jobs := jobs), proc := s.proc.(jobs := jobs));
    if name in s.proc.jobs && s.proc.jobs[name].key != NoKey
        && s.proc.jobs[name].key != r.key then EndJobKey(t, s.proc.jobs[name].key) else t
  }

  function EndJobKey(s: State, id: Id): State {
    Ending(s.(proc := s.proc.(jobDrops := s.proc.jobDrops + {id})), id)
  }

  /** ledgerMu is let go, and what it held is in the file when the write took effect. */
  function Released(s: State, wrote: bool): State {
    var p := s.proc;
    if wrote && p.saver.Saving? then
      s.(disk := s.disk.(ledger := p.saver.snapshot), proc := p.(saver := Free, written := p.saver.version))
    else s.(proc := p.(saver := Free))
  }

  /** The key bytes a serve of `e` uses: the cached key if it is of that kind, else the store's. */
  function KeyFor(s: State, id: Id, e: Entry): (b: KeyBytes)
    requires (id in s.proc.cached && s.proc.cached[id].kind == e.wrap) || Name(id, e.wrap) in s.disk.keys
  {
    if id in s.proc.cached && s.proc.cached[id].kind == e.wrap then s.proc.cached[id] else s.disk.keys[Name(id, e.wrap)]
  }

  ghost function Do(s: State, l: Label): State
    requires Can(s, l)
  {
    var p := s.proc;
    match l
    case Crash => s.(proc := NO_PROC)
    case Load(lok, jok) =>
      var objs := if lok then s.disk.ledger else map[];
      s.(proc := NO_PROC.(phase := Boot, ledgerOk := lok, jobsOk := jok, objs := objs, standing := objs.Keys,
                          jobs := if jok then s.disk.jobs else map[], log := [objs], written := 0))
    case AtBoot(AddKey(n)) => AddBytes(s, n.id, n.kind)
    case AtBoot(DropKey(n)) => DropBytes(s, n.id, {n.kind})
    case AtBoot(WriteLedger(m)) =>
      s.(disk := s.disk.(ledger := m),
         proc := p.(objs := m, standing := m.Keys, log := p.log + [m], written := |p.log|))
    case AtBoot(WriteJobs(m)) => s.(disk := s.disk.(jobs := m), proc := p.(jobs := m))
    case Listen => s.(proc := p.(phase := Serving))
    case Mint(id, kind) =>
      var t := AddBytes(s, id, kind);
      t.(hist := t.hist.(grantIds := t.hist.grantIds + {id}), proc := p.(creates := p.creates[id := Minted(kind)]))
    case SealGrant(id, secrets) =>
      var key := s.disk.keys[Name(id, p.creates[id].kind)];
      s.(hist := s.hist.(approved := s.hist.approved[id := DeksOf(secrets)]),
         proc := p.(creates := p.creates[id := Ready(SealAll(key, id, secrets), key)]))
    case Abort(id) => Ending(s.(proc := p.(creates := p.creates[id := Gone])), id)
    case Publish(id) =>
      var r := p.creates[id].rec;
      s.(proc := Logged(p.(objs := p.objs[id := r], standing := p.standing + {id},
                           cached := p.cached[id := p.creates[id].key],
                           creates := p.creates[id := Recording])))
    case SaveBegin(owner) => s.(proc := p.(saver := Saving(Mem(p), |p.log| - 1, owner)))
    case SaveEnd(ok) =>
      var wrote := ok && p.ledgerOk;
      var t := Released(s, wrote);
      (match p.saver.owner
       case ByServe => t
       case ByCreate(id) => t.(proc := t.proc.(creates := if ok then p.creates - {id} else p.creates[id := Failed]))
       case ByRevoke(id) =>
         var u := t.(proc := t.proc.(revokes := p.revokes - {id}));
         if wrote then u.(hist := u.hist.(erased := u.hist.erased + {id})) else u)
    case Unpublish(id) =>
      Ending(s.(proc := Logged(p.(standing := p.standing - {id}, creates := p.creates[id := Withdrawn]))), id)
    case RetireCreate(id) =>
      s.(proc := p.(dead := p.dead + {id}, cached := p.cached - {id}, creates := p.creates[id := Gone]))
    case DropCreate(id, kinds) =>
      var t := DropBytes(s, id, kinds);
      t.(proc := p.(creates := p.creates - {id}))
    case RevokeBegin(id) =>
      Ending(s.(proc := Logged(p.(standing := p.standing - {id}, revokes := p.revokes[id := Begun]))), id)
    case RetireRevoke(id) =>
      s.(proc := p.(dead := p.dead + {id}, cached := p.cached - {id}, revokes := p.revokes[id := Retired]))
    case DropRevoke(id, kinds) =>
      var t := DropBytes(s, id, kinds);
      t.(proc := p.(revokes := p.revokes[id := Dropped]),
         hist := if id in p.objs && KeyGone(t.disk.keys, p.objs[id])
                 then t.hist.(destroyed := t.hist.destroyed + {id}) else t.hist)
    case Serve(id, slot) =>
      var e := p.objs[id].entries[slot];
      var b := KeyFor(s, id, e);
      var dek := Open(b, e.copy, e.cls);
      s.(proc := p.(cached := p.cached[id := b]),
         served := if dek.Some? then s.served + [Served(id, slot, dek.value)] else s.served)
    case MintJob(id, kind) =>
      var t := AddBytes(s, id, kind);
      t.(hist := t.hist.(jobIds := t.hist.jobIds + {id}), proc := p.(jobMade := p.jobMade[id := kind]))
    case AbandonJob(id) => EndJobKey(s.(proc := p.(jobMade := p.jobMade - {id})), id)
    case ApproveJob(id, name, secrets, ok) =>
      var key := s.disk.keys[Name(id, p.jobMade[id])];
      var t := s.(hist := s.hist.(approved := s.hist.approved[id := DeksOf(secrets)]),
                  proc := p.(jobMade := p.jobMade - {id}));
      if ok then FileJob(t, name, SealAll(key, id, secrets)) else EndJobKey(t, id)
    case ApproveEachTime(name, ok) => if ok then FileJob(s, name, Rec(NoKey, map[], 0)) else s
    case RemoveJob(name, ok) =>
      if !ok then s else
        var jobs := p.jobs - {name};
        var t := s.(disk := s.disk.(jobs := jobs), proc := p.(jobs := jobs));
        if p.jobs[name].key != NoKey then EndJobKey(t, p.jobs[name].key) else t
    case DropJob(id, kinds) =>
      var t := DropBytes(s, id, kinds);
      t.(proc := p.(jobDrops := p.jobDrops - {id}))
    case SaveJobs(ok) => if ok then s.(disk := s.disk.(jobs := p.jobs)) else s
  }
}
