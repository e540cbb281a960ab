/** Who closes a grant's key handle. Every section below runs under the grant's keyMu, so what holds
    between any two calls holds in every interleaving of serves, revokes, failed creates and close. */
module GrantHandle {
  import opened GrantKeys
  import opened Wrappers

  /** A loaded key. Its memory is freed by Close, so neither Open nor Close may follow one. */
  class GrantKey {
    const bytes: KeyBytes
    var open: bool

    constructor (bytes: KeyBytes)
      ensures this.bytes == bytes && open
    {
      this.bytes, open := bytes, true;
    }

    method Close()
      requires open
      modifies this
      ensures !open
    {
      open := false;
    }

    method Decrypt(copy: Sealed, cls: Class) returns (dek: Option<Dek>)
      requires open
      ensures dek == Open(bytes, copy, cls)
    {
      dek := Open(bytes, copy, cls);
    }
  }

  datatype Act = Loads(key: GrantKey) | Uses(key: GrantKey) | Closes(key: GrantKey)

  ghost function After(live: set<GrantKey>, a: Act): set<GrantKey> {
    match a
    case Loads(k) => live + {k}
    case Uses(_) => live
    case Closes(k) => live - {k}
  }

  /** The handles loaded and not closed. */
  ghost function Live(trace: seq<Act>): set<GrantKey> {
    if trace == [] then {} else After(Live(trace[..|trace| - 1]), trace[|trace| - 1])
  }

  /** Only a live handle is used or closed, and no handle is loaded twice. */
  ghost predicate Clean(trace: seq<Act>) {
    forall i :: 0 <= i < |trace| ==>
      if trace[i].Loads? then Loads(trace[i].key) !in trace[..i] else trace[i].key in Live(trace[..i])
  }

  lemma CleanAt(trace: seq<Act>, i: nat)
    requires Clean(trace) && i < |trace|
    ensures if trace[i].Loads? then Loads(trace[i].key) !in trace[..i] else trace[i].key in Live(trace[..i])
    ensures trace[..i + 1][..i] == trace[..i]
    ensures Live(trace[..i + 1]) == After(Live(trace[..i]), trace[i])
  {
    assert trace[..i + 1][..i] == trace[..i];
  }

  lemma {:induction false} StaysClosed(trace: seq<Act>, i: nat, n: nat)
    requires Clean(trace) && i < n <= |trace| && trace[i].Closes?
    ensures trace[i].key !in Live(trace[..n]) && Loads(trace[i].key) in trace[..i]
    decreases n
  {
    hide Clean, Live;
    CleanAt(trace, n - 1);
    if n == i + 1 {
      LiveWasLoaded(trace, i, trace[i].key);
    } else {
      StaysClosed(trace, i, n - 1);
      assert trace[..i] <= trace[..n - 1];
      assert Loads(trace[i].key) in trace[..n - 1];
    }
  }

  lemma {:induction false} LiveWasLoaded(trace: seq<Act>, n: nat, k: GrantKey)
    requires n <= |trace| && k in Live(trace[..n])
    ensures Loads(k) in trace[..n]
  {
    assert n > 0 && trace[..n][..n - 1] == trace[..n - 1];
    if trace[n - 1] != Loads(k) {
      LiveWasLoaded(trace, n - 1, k);
    }
  }

  /** In a clean trace nothing happens to a handle after it is closed. */
  lemma NothingAfterClose(trace: seq<Act>, i: nat, j: nat)
    requires Clean(trace) && i < j < |trace| && trace[i].Closes?
    ensures trace[j].key != trace[i].key
  {
    StaysClosed(trace, i, j);
  }

  lemma Grows(trace: seq<Act>, a: Act)
    requires Clean(trace) && if a.Loads? then Loads(a.key) !in trace else a.key in Live(trace)
    ensures Clean(trace + [a])
    ensures Live(trace + [a]) == After(Live(trace), a)
  {
    var next := trace + [a];
    assert next[..|trace|] == trace;
    forall i | 0 <= i < |trace| ensures next[..i] == trace[..i] {
    }
  }

  ghost function Replaced(trace: seq<Act>, was: GrantKey?, loaded: GrantKey): seq<Act> {
    if was == null then trace + [Loads(loaded)] else trace + [Loads(loaded), Closes(was)]
  }

  /** Loading a new handle before closing the old one leaves the new one live, and it alone. */
  lemma ReplacedIsClean(trace: seq<Act>, was: GrantKey?, loaded: GrantKey)
    requires Clean(trace) && Loads(loaded) !in trace && loaded != was
    requires Live(trace) == if was == null then {} else {was}
    ensures Clean(Replaced(trace, was, loaded)) && Live(Replaced(trace, was, loaded)) == {loaded}
  {
    hide Clean, Live;
    Grows(trace, Loads(loaded));
    if was != null {
      var more := trace + [Loads(loaded)];
      Grows(more, Closes(was));
      assert more + [Closes(was)] == trace + [Loads(loaded), Closes(was)];
    }
  }

  class StandingGrant {
    var key: GrantKey?
    var dead: bool
    ghost var trace: seq<Act>

    /** The one live handle is the cached one, and a dead grant has none. */
    ghost predicate Valid()
      reads this, key
    {
      && Clean(trace)
      && Live(trace) == (if key == null then {} else {key})
      && (key != null ==> key.open)
      && (dead ==> key == null)
    }

    /** A grant being created, with the key just minted for it. */
    constructor Create(minted: GrantKey)
      requires minted.open
      ensures Valid() && key == minted && !dead && trace == [Loads(minted)]
    {
      key, dead, trace := minted, false, [Loads(minted)];
      new;
      Grows([], Loads(minted));
      assert [] + [Loads(minted)] == [Loads(minted)];
    }

    constructor FromLedger()
      ensures Valid() && key == null && !dead && trace == []
    {
      key, dead, trace := null, false, [];
    }

    ghost method Note(a: Act)
      requires Clean(trace) && if a.Loads? then Loads(a.key) !in trace else a.key in Live(trace)
      modifies this`trace
      ensures trace == old(trace) + [a] && Clean(trace)
      ensures Live(trace) == After(Live(old(trace)), a)
    {
      Grows(trace, a);
      trace := trace + [a];
    }

    /** A create that fails before publishing the grant closes the key it minted and drops the grant. */
    method FailCreate()
      requires Valid() && key != null
      modifies key, this`trace
      ensures Clean(trace) && Live(trace) == {}
    {
      hide Clean, Live;
      Note(Closes(key));
      key.Close();
    }

    /** The end of a grant, by revoke, failed save or service close; once dead it stays dead. */
    method Retire()
      requires Valid()
      modifies this, key
      ensures Valid() && dead && Live(trace) == {}
      ensures trace == if old(key) == null then old(trace) else old(trace) + [Closes(old(key))]
    {
      hide Clean, Live;
      if key != null {
        Note(Closes(key));
        key.Close();
        key := null;
      }
      dead := true;
    }

    /** Caches a key just loaded, closing the one it takes the place of. */
    method Replace(loaded: GrantKey)
      requires Valid() && !dead && loaded.open && Loads(loaded) !in trace && loaded != key
      modifies this`key, this`trace, key
      ensures Valid() && key == loaded && trace == Replaced(old(trace), old(key), loaded)
    {
      hide Clean, Live;
      ReplacedIsClean(trace, key, loaded);
      trace := Replaced(trace, key, loaded);
      if key != null {
        key.Close();
      }
      key := loaded;
    }

    /** Opens `e` with a key of the kind it names. `loaded` is what the store would hand back if asked:
        nothing when it fails, and perhaps a key of another kind. */
    method OpenStanding(e: Entry, loaded: Option<GrantKey>) returns (dek: Option<Dek>)
      requires Valid()
      requires loaded.Some? ==> loaded.value.open && Loads(loaded.value) !in trace && loaded.value != key
      modifies this, key
      ensures Valid() && dead == old(dead) && old(trace) <= trace
      ensures dead ==> dek.None? && trace == old(trace) && key == null
      // The store is asked only when no key of the kind is cached, and what it hands back is kept.
      ensures !dead ==> key == (if old(key) != null && old(key).bytes.kind == e.wrap then old(key)
                                else if loaded.Some? then loaded.value else old(key))
      ensures dek == if dead || key == null || key.bytes.kind != e.wrap then None else Open(key.bytes, e.copy, e.cls)
    {
      hide Clean, Live;
      if dead {
        return None;
      }
      if key == null || key.bytes.kind != e.wrap {
        if loaded.None? {
          return None;
        }
        Replace(loaded.value);
      }
      if key.bytes.kind != e.wrap {
        return None;
      }
      Note(Uses(key));
      dek := key.Decrypt(e.copy, e.cls);
    }
  }
}
