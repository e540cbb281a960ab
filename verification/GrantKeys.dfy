/** What the grant ledger and the job list hold, the key store beside them, and what a copy of
    either opens to. Sealing is abstract: a copy opens under the key and the class it was sealed
    for, and under nothing else. */
module GrantKeys {
  import opened Wrappers

  datatype Kind = Keychain | Enclave

  /** A key id: one minted here is g- or j- and random hex, and any other text is foreign. A job that
      asks each time has no key. */
  datatype Id = NoKey | GrantId(hex: nat) | JobId(hex: nat) | Foreign(text: nat)

  predicate Minted(id: Id) {
    id.GrantId? || id.JobId?
  }

  // Digests, classes, job names and DEKs are only ever compared, so a number stands for each.
  type Slot = nat
  type Class = nat
  type JobName = nat
  type Dek = nat

  /** The bytes of one key. `serial` stands for the randomness: no two creates draw the same one. */
  datatype KeyBytes = KeyBytes(owner: Id, kind: Kind, serial: nat)

  /** Where the store files a key. */
  datatype Name = Name(id: Id, kind: Kind)

  datatype Sealed = Sealed(under: KeyBytes, cls: Class, dek: Dek)

  function Seal(key: KeyBytes, dek: Dek, cls: Class): Sealed {
    Sealed(key, cls, dek)
  }

  function Open(key: KeyBytes, copy: Sealed, cls: Class): Option<Dek> {
    if copy.under == key && copy.cls == cls then Some(copy.dek) else None
  }

  /** One covered secret: its class, its sealed copy, and the kind of key it is sealed for. */
  datatype Entry = Entry(cls: Class, copy: Sealed, wrap: Kind)

  /** One standing grant or never-ask job as its file holds it. `unread` counts the entries this
      build cannot read, which are kept verbatim. */
  datatype Rec = Rec(key: Id, entries: map<Slot, Entry>, unread: nat)

  /** Everything that survives a crash. */
  datatype Disk = Disk(keys: map<Name, KeyBytes>, serial: nat, ledger: map<Id, Rec>, jobs: map<JobName, Rec>)

  /** What entry `s` of `r` opens to with the stored key of the kind it names. */
  function Opens(keys: map<Name, KeyBytes>, r: Rec, s: Slot): Option<Dek>
    requires s in r.entries
  {
    var e := r.entries[s];
    if Name(r.key, e.wrap) in keys then Open(keys[Name(r.key, e.wrap)], e.copy, e.cls) else None
  }

  /** Every entry is sealed for the same kind of key. */
  ghost predicate Uniform(r: Rec) {
    forall s, t :: s in r.entries && t in r.entries ==> r.entries[s].wrap == r.entries[t].wrap
  }

  /** Some entry of `r` opens with the key filed under `n`. */
  ghost predicate OpensWith(keys: map<Name, KeyBytes>, r: Rec, n: Name) {
    r.key == n.id && exists s :: s in r.entries && r.entries[s].wrap == n.kind && Opens(keys, r, s).Some?
  }

  ghost predicate Unneeded<K>(keys: map<Name, KeyBytes>, m: map<K, Rec>, n: Name) {
    forall i :: i in m ==> !OpensWith(keys, m[i], n)
  }

  /** `b` is `a` itself, or `a` with every entry on one kind of key, each one untouched or re-sealed so
      that it opens to the DEK it opened to before. */
  ghost predicate SameMeaning(keys: map<Name, KeyBytes>, a: Rec, b: Rec) {
    || a == b
    || (&& b.key == a.key && b.unread == a.unread && b.entries.Keys == a.entries.Keys && Uniform(b)
        && forall s :: s in a.entries ==>
             || b.entries[s] == a.entries[s]
             || (&& b.entries[s].cls == a.entries[s].cls
                 && Opens(keys, a, s).Some? && Opens(keys, b, s) == Opens(keys, a, s)))
  }

  ghost predicate Resealed<K>(keys: map<Name, KeyBytes>, a: map<K, Rec>, b: map<K, Rec>) {
    a.Keys == b.Keys && forall i :: i in a ==> SameMeaning(keys, a[i], b[i])
  }

  /** The durable changes the start-up move and the orphan cleanup may make, each of them safe to
      crash straight after. */
  datatype BootStep =
    | AddKey(name: Name)
    | DropKey(name: Name)
    | WriteLedger(ledger: map<Id, Rec>)
    | WriteJobs(jobs: map<JobName, Rec>)

  ghost predicate Legal(d: Disk, b: BootStep) {
    match b
    case AddKey(n) => n !in d.keys
    case DropKey(n) => Unneeded(d.keys, d.ledger, n) && Unneeded(d.keys, d.jobs, n)
    case WriteLedger(m) => Resealed(d.keys, d.ledger, m)
    case WriteJobs(m) => Resealed(d.keys, d.jobs, m)
  }

  function Apply(d: Disk, b: BootStep): Disk {
    match b
    case AddKey(n) => d.(keys := d.keys[n := KeyBytes(n.id, n.kind, d.serial)], serial := d.serial + 1)
    case DropKey(n) => d.(keys := d.keys - {n})
    case WriteLedger(m) => d.(ledger := m)
    case WriteJobs(m) => d.(jobs := m)
  }

  function Replay(d: Disk, log: seq<BootStep>): Disk {
    if log == [] then d else Apply(Replay(d, log[..|log| - 1]), log[|log| - 1])
  }

  /** The ids some step of `log` made a key for. */
  function Made(log: seq<BootStep>): set<Id> {
    set k | 0 <= k < |log| && log[k].AddKey? :: log[k].name.id
  }

  ghost predicate AllLegal(d: Disk, log: seq<BootStep>) {
    log != [] ==>
      && AllLegal(d, log[..|log| - 1])
      && Legal(Replay(d, log[..|log| - 1]), log[|log| - 1])
  }
}
