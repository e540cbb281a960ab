/** Timed grants: the unwrapped DEKs they cache, who gets a copy, and what an end leaves behind. Each method is
    one section under grantMu but for TimedUnwrap and PruneGrants, which let go of it between sections. */
module TimedGrants {
  import opened GrantKeys
  import opened KeyBuffers

  type Digest = nat

  class TimedGrant {
    var deks: map<Digest, array<Byte>>
    var expires: int
    /** The arrays the DEKs are in, one for each. */
    ghost var buffers: set<array<Byte>>

    ghost predicate Valid()
      reads this
    {
      && buffers == deks.Values
      && forall d, e :: d in deks && e in deks && d != e ==> deks[d] != deks[e]
    }

    constructor (deks: map<Digest, array<Byte>>, expires: int)
      requires forall d, e :: d in deks && e in deks && d != e ==> deks[d] != deks[e]
      ensures Valid() && this.deks == deks && this.expires == expires
    {
      this.deks, this.expires, this.buffers := deks, expires, deks.Values;
    }

    method WipeDek(d: Digest)
      requires Valid() && d in deks
      modifies this`deks, this`buffers, deks[d]
      ensures Valid() && deks == old(deks) - {d} && buffers == old(buffers) - {old(deks[d])}
      ensures Wiped(old(deks[d])) && old(deks[d]) in old(buffers)
    {
      hide Wiped;
      var a := deks[d];
      Wipe(a);
      OneLess(d);
      deks := deks - {d};
      buffers := buffers - {a};
    }

    /** Zeroes every cached DEK and forgets it. */
    method WipeDeks()
      requires Valid()
      modifies this`deks, this`buffers, buffers
      ensures Valid() && deks == map[]
      ensures forall a :: a in old(buffers) ==> Wiped(a)
    {
      hide Wiped, Valid;
      while deks != map[]
        invariant Valid() && buffers <= old(buffers)
        invariant forall a :: a in old(buffers) && a !in buffers ==> Wiped(a)
        decreases |deks.Keys|
      {
        var d :| d in deks;
        Smaller(deks, d);
        OneLess(d);
        WipeDek(d);
      }
      Bare();
    }

    /** Each DEK has a buffer of its own. */
    lemma OneLess(d: Digest)
      requires Valid() && d in deks
      ensures deks[d] in buffers && (deks - {d}).Values == buffers - {deks[d]}
    {
      var rest := deks - {d};
      forall x | x in buffers - {deks[d]} ensures x in rest.Values {
        var e :| e in deks && deks[e] == x;
        assert e in rest;
      }
    }

    lemma Bare()
      requires Valid() && deks == map[]
      ensures buffers == {}
    {
    }

    static lemma Smaller(m: map<Digest, array<Byte>>, d: Digest)
      requires d in m
      ensures |(m - {d}).Keys| < |m.Keys|
    {
      assert (m - {d}).Keys == m.Keys - {d};
    }
  }

  /** What a grant gives, said without its buffers. */
  datatype Lease = Lease(deks: map<Digest, seq<Byte>>, expires: int)

  type Leases = map<Id, Lease>

  ghost function LeaseOf(g: TimedGrant): Lease
    requires g.Valid()
    reads g, g.buffers
  {
    Lease(map d | d in g.deks :: g.deks[d][..], g.expires)
  }

  /** What the caller's ancestry says of a grant's root, read outside grantMu. */
  datatype Lineage = Lineage(alive: Id -> bool, descends: Id -> bool)

  /** Grant `id` serves the caller. */
  ghost predicate Serves(v: Leases, id: Id, digest: Digest, from: Lineage, now: int) {
    id in v && digest in v[id].deks && from.alive(id) && from.descends(id) && now <= v[id].expires
  }

  /** Its root is gone, or it is past its deadline. */
  ghost predicate Done(v: Leases, id: Id, from: Lineage, now: int) {
    id in v && (!from.alive(id) || now > v[id].expires)
  }

  /** A candidate that does not serve ends: its root is gone, or the caller comes from it and it is past its
      deadline. */
  ghost predicate Ended(v: Leases, id: Id, from: Lineage, now: int) {
    id in v && (!from.alive(id) || (from.descends(id) && now > v[id].expires))
  }

  /** Some of `v`, what is not there any more being done. */
  ghost predicate Pruned(v: Leases, w: Leases, from: Lineage, now: int) {
    && (forall id :: id in w ==> id in v && w[id] == v[id])
    && forall id :: id in v && id !in w ==> Done(v, id, from, now)
  }

  /** No two grants share an object or a buffer, and all lie in `repr`. */
  ghost predicate EachItsOwn(grants: map<Id, TimedGrant>, repr: set<object>)
    reads set i | i in grants :: grants[i]
  {
    && (forall i :: i in grants ==> grants[i] in repr && grants[i].buffers <= repr && grants[i].Valid())
    && forall i, j :: i in grants && j in grants && i != j ==>
         grants[i] != grants[j] && grants[i].buffers !! grants[j].buffers
  }

  lemma OneMore(grants: map<Id, TimedGrant>, repr: set<object>, id: Id, g: TimedGrant)
    requires EachItsOwn(grants, repr) && g.Valid() && g !in repr && g.buffers !! repr
    ensures EachItsOwn(grants[id := g], repr + {g} + g.buffers)
  {
    hide TimedGrant.Valid;
  }

  lemma OneFewer(grants: map<Id, TimedGrant>, repr: set<object>, id: Id)
    requires EachItsOwn(grants, repr) && id in grants
    ensures EachItsOwn(grants - {id}, repr - {grants[id]} - grants[id].buffers)
  {
    hide TimedGrant.Valid;
  }

  class GrantStore {
    var grants: map<Id, TimedGrant>
    /** Every copy a caller was given, and every buffer of a grant that has ended. */
    ghost var handed: set<array<Byte>>
    ghost var retired: set<array<Byte>>
    ghost var Repr: set<object>
    /** Whether no other thread comes between two sections. */
    const alone: bool

    /** No two grants share an object or a buffer, no caller has either, and what ended is all zero. */
    ghost predicate Valid()
      reads this, Repr, retired
    {
      Apart() && retired !! Repr && handed !! Repr && handed !! retired && forall a :: a in retired ==> Wiped(a)
    }

    ghost predicate Apart()
      reads this`grants, this`Repr, Repr
    {
      this !in Repr && (forall i :: i in grants ==> grants[i] in Repr) && EachItsOwn(grants, Repr)
    }

    ghost function View(): Leases
      requires Apart()
      reads this`grants, this`Repr, Repr
    {
      map i | i in grants :: LeaseOf(grants[i])
    }

    constructor (alone: bool)
      ensures Valid() && View() == map[] && handed == {} && retired == {} && Repr == {} && this.alone == alone
    {
      grants, handed, retired, Repr := map[], {}, {}, {};
      this.alone := alone;
    }

    method AddGrant(id: Id, g: TimedGrant)
      requires Valid() && id !in grants && g.Valid()
      requires g !in Repr && g.buffers !! Repr && g.buffers !! handed && g.buffers !! retired
      modifies this`grants, this`Repr
      ensures Valid() && Repr == old(Repr) + {g} + g.buffers
      ensures View() == old(View())[id := LeaseOf(g)]
    {
      hide Wiped, LeaseOf, TimedGrant.Valid;
      OneMore(grants, Repr, id, g);
      grants := grants[id := g];
      Repr := Repr + {g} + g.buffers;
    }

    method ExtendGrant(id: Id, expires: int)
      requires Valid()
      modifies Repr
      ensures Valid() && grants == old(grants) && Repr == old(Repr) && retired == old(retired) && handed == old(handed)
      ensures var v := old(View()); View() == if id in v then v[id := v[id].(expires := expires)] else v
    {
      hide Wiped, LeaseOf, TimedGrant.Valid;
      if id !in grants {
        return;
      }
      SetExpires(grants[id], expires);
      forall i | i in grants && i != id ensures LeaseOf(grants[i]) == old(LeaseOf(grants[i])) {
      }
    }

    static method SetExpires(g: TimedGrant, expires: int)
      requires g.Valid()
      modifies g`expires
      ensures g.Valid() && g.expires == expires && LeaseOf(g) == old(LeaseOf(g)).(expires := expires)
    {
      g.expires := expires;
    }

    /** Takes a grant out of the store, buffers and all. */
    method Take(id: Id) returns (g: TimedGrant)
      requires Valid() && id in grants
      modifies this`grants, this`Repr
      ensures Valid() && View() == old(View()) - {id} && g == old(grants[id])
      ensures g.Valid() && g in old(Repr) && g.buffers == old(grants[id].buffers)
      ensures g.buffers <= old(Repr) && Repr == old(Repr) - {g} - g.buffers
    {
      hide Wiped, LeaseOf, TimedGrant.Valid;
      g := grants[id];
      OneFewer(grants, Repr, id);
      grants := grants - {id};
      Repr := Repr - {g} - g.buffers;
    }

    /** Zeroes what a grant taken out has cached. */
    method Zero(g: TimedGrant)
      requires Valid() && g.Valid()
      requires g !in Repr && g.buffers !! Repr && g.buffers !! handed && g.buffers !! retired
      modifies this`retired, g, g.buffers
      ensures Valid() && View() == old(View()) && retired == old(retired) + old(g.buffers)
    {
      hide Wiped, LeaseOf, TimedGrant.Valid;
      ghost var buffers := g.buffers;
      g.WipeDeks();
      retired := retired + buffers;
    }

    /** Ends one grant, if it is still there: its buffers are zero from then on, and no other grant's buffer and
        no caller's copy is any different. */
    method EndGrant(id: Id)
      requires Valid()
      modifies this`grants, this`retired, this`Repr, Repr
      ensures Valid() && View() == old(View()) - {id} && Repr <= old(Repr) && handed == old(handed)
      ensures retired == old(retired) + if id in old(grants) then old(grants[id].buffers) else {}
    {
      hide Wiped, LeaseOf, TimedGrant.Valid, Apart, GrantStore.View;
      if id !in grants {
        NotThere(id);
        return;
      }
      var g := Take(id);
      Zero(g);
    }

    lemma NotThere(id: Id)
      requires Apart() && id !in grants
      ensures View() == View() - {id}
    {
    }

    /** Other threads' sections: grants end, are extended and added. */
    method Others()
      requires Valid()
      modifies this`grants, this`retired, this`Repr, Repr
      ensures Valid() && fresh(Repr - old(Repr)) && old(retired) <= retired && handed == old(handed)
      ensures alone ==> View() == old(View())
    {
      if alone {
        return;
      }
      var n: nat := *;
      while n > 0
        invariant Valid() && fresh(Repr - old(Repr)) && old(retired) <= retired && handed == old(handed)
      {
        OneOther();
        n := n - 1;
      }
    }

    method OneOther()
      requires Valid()
      modifies this`grants, this`retired, this`Repr, Repr
      ensures Valid() && fresh(Repr - old(Repr)) && old(retired) <= retired && handed == old(handed)
    {
      var id: Id := *;
      if * {
        EndGrant(id);
      } else if * {
        var expires: int := *;
        ExtendGrant(id, expires);
      } else if id !in grants {
        var g := NewGrant();
        AddGrant(id, g);
      }
    }

    /** A grant of whatever secrets, each under its own buffer. */
    static method NewGrant() returns (g: TimedGrant)
      ensures fresh(g) && g.Valid() && forall a :: a in g.buffers ==> fresh(a)
    {
      var deks: map<Digest, array<Byte>> := map[];
      var n: nat := *;
      while n > 0
        invariant forall d :: d in deks ==> fresh(deks[d])
        invariant forall d, e :: d in deks && e in deks && d != e ==> deks[d] != deks[e]
      {
        var d: Digest := *;
        var size :| size >= 0;
        var buffer := new Byte[size];
        deks := deks[d := buffer];
        n := n - 1;
      }
      var expires: int := *;
      g := new TimedGrant(deks, expires);
    }

    /** Ends every grant found past its deadline, or whose root is gone. */
    method PruneGrants(from: Lineage, now: int)
      requires Valid()
      modifies this`grants, this`retired, this`Repr, Repr
      ensures Valid() && fresh(Repr - old(Repr)) && old(retired) <= retired && handed == old(handed)
      ensures alone ==> Pruned(old(View()), View(), from, now)
      ensures alone ==> forall i :: i in View() ==> !Done(old(View()), i, from, now)
    {
      hide Wiped, Apart, GrantStore.View;
      ghost var v := View();
      var checks, expired := FindExpired(now);
      Others();
      var todo := checks;
      while todo != {}
        invariant todo <= checks && Valid() && fresh(Repr - old(Repr)) && old(retired) <= retired
        invariant handed == old(handed)
        invariant alone ==> Pruned(v, View(), from, now)
        invariant alone ==> forall i :: i in View() && i !in todo ==> !Done(v, i, from, now)
      {
        var i :| i in todo;
        todo := todo - {i};
        if i in expired || !from.alive(i) {
          EndGrant(i);
        }
        Others();
      }
    }

    method FindExpired(now: int) returns (checks: set<Id>, expired: set<Id>)
      requires Valid()
      ensures checks == View().Keys && expired == set i | i in View() && now > View()[i].expires
    {
      checks := grants.Keys;
      expired := set i | i in grants && now > grants[i].expires;
    }

    /** The first section: the grants that cover these bytes. */
    method Candidates(digest: Digest) returns (cands: set<Id>)
      requires Valid()
      ensures cands == set id | id in View() && digest in View()[id].deks
    {
      cands := set id | id in grants && digest in grants[id].deks;
    }

    /** The section that serves: the grant may have ended, expired or changed since it was a candidate. */
    method ServeCopy(id: Id, digest: Digest, now: int) returns (out: array?<Byte>, expired: bool)
      requires Valid()
      modifies this`handed
      ensures Valid() && View() == old(View()) && Repr == old(Repr) && retired == old(retired)
      ensures expired <==> id in View() && now > View()[id].expires
      ensures out != null <==> id in View() && !expired && digest in View()[id].deks
      ensures out != null ==> fresh(out) && handed == old(handed) + {out} && out[..] == View()[id].deks[digest]
      ensures out == null ==> handed == old(handed)
    {
      hide Wiped;
      if id !in grants {
        return null, false;
      }
      if now > grants[id].expires {
        return null, true;
      }
      if digest !in grants[id].deks {
        return null, false;
      }
      out := CopyOf(grants[id].deks[digest]);
      handed := handed + {out};
      expired := false;
    }

    /** One candidate, verified with grantMu let go. */
    method Attempt(id: Id, digest: Digest, from: Lineage, now: int) returns (out: array?<Byte>)
      requires Valid()
      modifies this`grants, this`retired, this`Repr, this`handed, Repr
      ensures Valid() && fresh(Repr - old(Repr)) && old(retired) <= retired
      ensures out != null ==> fresh(out) && handed == old(handed) + {out}
      ensures out != null ==> Serves(View(), id, digest, from, now) && out[..] == View()[id].deks[digest]
      ensures out == null ==> handed == old(handed)
      ensures alone ==> (out != null <==> Serves(old(View()), id, digest, from, now))
      ensures alone ==> View() == if Ended(old(View()), id, from, now) then old(View()) - {id} else old(View())
    {
      hide Wiped, Apart, GrantStore.View;
      if !from.alive(id) {
        EndGrant(id);
        return null;
      }
      if !from.descends(id) {
        return null;
      }
      Others();
      var expired;
      out, expired := ServeCopy(id, digest, now);
      if out != null || !expired {
        return;
      }
      Others();
      EndGrant(id);
    }

    /** A caller's own copy of the DEK of one covered secret, from the first grant found that covers it and
        whose root, still running, the caller comes from. Between its sections other threads may end, extend
        or add grants. */
    method TimedUnwrap(digest: Digest, from: Lineage, now: int) returns (out: array?<Byte>)
      requires Valid()
      modifies this`grants, this`retired, this`Repr, this`handed, Repr
      ensures Valid() && fresh(Repr - old(Repr)) && old(retired) <= retired
      // The grant is there, and not past its deadline, when the copy is made.
      ensures out != null ==>
        && fresh(out) && handed == old(handed) + {out}
        && exists id :: Serves(View(), id, digest, from, now) && out[..] == View()[id].deks[digest]
      ensures out == null ==> handed == old(handed)
      // With no other thread about: served exactly when some grant would, and only what was done has ended.
      ensures alone ==> (out != null <==> exists id :: Serves(old(View()), id, digest, from, now))
      ensures alone ==> Pruned(old(View()), View(), from, now)
    {
      hide Wiped, Apart, GrantStore.View;
      ghost var v := View();
      var cands := Candidates(digest);
      assert forall id :: Serves(v, id, digest, from, now) ==> id in cands;
      Others();
      if cands == {} {
        PruneGrants(from, now);
        return null;
      }
      var todo := cands;
      while todo != {}
        invariant todo <= cands && Valid() && fresh(Repr - old(Repr)) && old(retired) <= retired
        invariant handed == old(handed)
        invariant alone ==> Pruned(v, View(), from, now) && todo <= View().Keys
        invariant alone ==> forall id :: id in cands - todo ==> !Serves(v, id, digest, from, now)
      {
        var id :| id in todo;
        todo := todo - {id};
        out := Attempt(id, digest, from, now);
        if out != null {
          assert Serves(View(), id, digest, from, now);
          assert alone ==> Serves(v, id, digest, from, now);
          return;
        }
        Others();
      }
      return null;
    }
  }
}
