/** One pass over a file for many fixed strings, against looking for each on its own. */
module SubstrSearch {
  import opened Wrappers
  import opened NeedleBuckets
  import opened Utf8

  type Name = nat

  /** At how many places before `upto` the needle stands, overlapping places and all. */
  function Tally(data: Text, lit: Text, upto: nat): nat {
    if upto == 0 then 0 else Tally(data, lit, upto - 1) + if Occurs(data, lit, upto - 1) then 1 else 0
  }

  /** A place of the needle with none before it. */
  predicate IsFirst(data: Text, lit: Text, at: nat) {
    Occurs(data, lit, at) && Tally(data, lit, at) == 0
  }

  lemma {:induction false} TallyNone(data: Text, lit: Text, upto: nat)
    ensures Tally(data, lit, upto) == 0 <==> forall at: nat :: at < upto ==> !Occurs(data, lit, at)
  {
    if upto > 0 {
      TallyNone(data, lit, upto - 1);
    }
  }

  /** The places before `upto` where the needle stands. */
  function Places(data: Text, lit: Text, upto: nat): set<nat> {
    set at: nat | at < upto && Occurs(data, lit, at)
  }

  lemma {:induction false} TallyIsPlaces(data: Text, lit: Text, upto: nat)
    ensures Tally(data, lit, upto) == |Places(data, lit, upto)|
  {
    hide Occurs;
    if upto > 0 {
      TallyIsPlaces(data, lit, upto - 1);
      var before := Places(data, lit, upto - 1);
      assert Places(data, lit, upto) == if Occurs(data, lit, upto - 1) then before + {upto - 1} else before;
    }
  }

  /** Which needle's which variable name is kept: that of the first place that offers one. */
  ghost predicate IsName(data: Text, lit: Text, upto: nat, nameAt: (Text, nat) -> Option<Name>, name: Option<Name>) {
    if name.None? then forall at: nat :: at < upto && Occurs(data, lit, at) ==> nameAt(data, at).None?
    else exists at: nat :: at < upto && Occurs(data, lit, at) && nameAt(data, at) == name
           && forall b: nat :: b < at && Occurs(data, lit, b) ==> nameAt(data, b).None?
  }

  function Lookup<V>(m: map<nat, V>, k: nat): Option<V> {
    if k in m then Some(m[k]) else None
  }

  datatype Seen = Seen(first: map<nat, nat>, count: map<nat, nat>, name: map<nat, Name>)

  /** What is known of needle `k` once every place before `upto` has been tried. */
  ghost predicate Knows(data: Text, lit: Text, upto: nat, nameAt: (Text, nat) -> Option<Name>, s: Seen, k: nat) {
    var n := Tally(data, lit, upto);
    && (k in s.first <==> n > 0) && (k in s.count <==> n > 0)
    && (n > 0 ==> s.count[k] == n && s.first[k] < upto && IsFirst(data, lit, s.first[k]))
    && IsName(data, lit, upto, nameAt, Lookup(s.name, k))
  }

  /** The same is known of needle `k`. */
  predicate SameOf(s: Seen, t: Seen, k: nat) {
    && Lookup(t.first, k) == Lookup(s.first, k)
    && Lookup(t.count, k) == Lookup(s.count, k)
    && Lookup(t.name, k) == Lookup(s.name, k)
  }

  /** One more place, where the needle does or does not stand. */
  lemma KnowsMore(data: Text, lit: Text, at: nat, nameAt: (Text, nat) -> Option<Name>, s: Seen, t: Seen, k: nat)
    requires Knows(data, lit, at, nameAt, s, k)
    requires !Occurs(data, lit, at) ==> SameOf(s, t, k)
    requires Occurs(data, lit, at) ==>
      && Lookup(t.first, k) == (if k in s.first then Some(s.first[k]) else Some(at))
      && Lookup(t.count, k) == Some((if k in s.count then s.count[k] else 0) + 1)
      && Lookup(t.name, k) == (if k in s.name then Some(s.name[k]) else nameAt(data, at))
    ensures Knows(data, lit, at + 1, nameAt, t, k)
  {
    if Occurs(data, lit, at) && k !in s.name {
      NameMore(data, lit, at, nameAt);
    }
  }

  lemma NameMore(data: Text, lit: Text, at: nat, nameAt: (Text, nat) -> Option<Name>)
    requires IsName(data, lit, at, nameAt, None) && Occurs(data, lit, at)
    ensures IsName(data, lit, at + 1, nameAt, nameAt(data, at))
  {
  }

  class SubstrIndex {
    const needles: seq<Text>
    const buckets: Buckets

    ghost predicate Valid()
      reads buckets, buckets.byFirst
    {
      buckets.Valid() && buckets.lits == needles
    }

    constructor (needles: seq<Text>)
      ensures Valid() && this.needles == needles
    {
      this.needles := needles;
      buckets := new Buckets();
      new;
      var i := 0;
      while i < |needles|
        invariant 0 <= i <= |needles| && buckets.Valid() && buckets.lits == needles[..i]
        invariant fresh(buckets) && fresh(buckets.byFirst)
      {
        buckets.File(needles[i], i);
        assert needles[..i + 1] == needles[..i] + [needles[i]];
        i := i + 1;
      }
      assert needles[..i] == needles;
    }

    /** For each needle that stands in `data` the first place, how many there are, and the first name
        offered; for any other, and for an empty one, nothing. */
    method FindAll(data: Text, nameAt: (Text, nat) -> Option<Name>) returns (s: Seen)
      requires Valid()
      ensures forall k :: 0 <= k < |needles| ==> Knows(data, needles[k], |data|, nameAt, s, k)
      ensures s.first.Keys == s.count.Keys && forall k :: k in s.first ==> k < |needles|
    {
      s := Seen(map[], map[], map[]);
      var i := 0;
      while i < |data|
        invariant 0 <= i <= |data|
        invariant forall k :: 0 <= k < |needles| ==> Knows(data, needles[k], i, nameAt, s, k)
        invariant s.first.Keys == s.count.Keys && forall k :: k in s.first ==> k < |needles|
      {
        s := TryAll(data, i, nameAt, s);
        i := i + 1;
      }
    }

    method TryAll(data: Text, i: nat, nameAt: (Text, nat) -> Option<Name>, s: Seen) returns (t: Seen)
      requires Valid() && i < |data|
      requires forall k :: 0 <= k < |needles| ==> Knows(data, needles[k], i, nameAt, s, k)
      requires s.first.Keys == s.count.Keys && forall k :: k in s.first ==> k < |needles|
      ensures forall k :: 0 <= k < |needles| ==> Knows(data, needles[k], i + 1, nameAt, t, k)
      ensures t.first.Keys == t.count.Keys && forall k :: k in t.first ==> k < |needles|
    {
      hide Knows, Occurs;
      var bucket := buckets.byFirst[data[i] as int];
      assert bucket == Bucket(needles, data[i]);
      BucketIsExact(needles, data[i]);
      t := s;
      var j := 0;
      while j < |bucket|
        invariant 0 <= j <= |bucket|
        invariant forall k :: 0 <= k < |needles| ==> Knows(data, needles[k], if k in bucket[..j] then i + 1 else i,
            nameAt, t, k)
        invariant t.first.Keys == t.count.Keys && forall k :: k in t.first ==> k < |needles|
      {
        var n := bucket[j];
        assert n in bucket && n !in bucket[..j];
        assert bucket[..j + 1] == bucket[..j] + [n];
        ghost var before := t;
        t := TryOne(data, i, nameAt, t, n);
        forall k | 0 <= k < |needles| ensures Knows(data, needles[k], if k in bucket[..j + 1] then i + 1 else i,
            nameAt, t, k) {
          if k != n {
            SameKnown(data, needles[k], if k in bucket[..j] then i + 1 else i, nameAt, before, t, k);
          }
        }
        j := j + 1;
      }
      assert bucket[..j] == bucket;
      forall k | 0 <= k < |needles| ensures Knows(data, needles[k], i + 1, nameAt, t, k) {
        if k !in bucket {
          if Occurs(data, needles[k], i) {
            OccursInBucket(data, needles, k, i);
          }
          KnowsMore(data, needles[k], i, nameAt, t, t, k);
        }
      }
    }

    method TryOne(data: Text, i: nat, nameAt: (Text, nat) -> Option<Name>, s: Seen, n: nat) returns (t: Seen)
      requires n < |needles| && i < |data| && needles[n] != [] && Knows(data, needles[n], i, nameAt, s, n)
      requires s.first.Keys == s.count.Keys
      ensures Knows(data, needles[n], i + 1, nameAt, t, n)
      ensures forall k :: k != n ==> SameOf(s, t, k)
      ensures t.first.Keys == t.count.Keys && t.first.Keys <= s.first.Keys + {n}
    {
      t := s;
      var lit := needles[n];
      if |data| - i >= |lit| && data[i..i + |lit|] == lit {
        if n !in t.first {
          t := t.(first := t.first[n := i]);
        }
        if n !in t.name && nameAt(data, i).Some? {
          t := t.(name := t.name[n := nameAt(data, i).value]);
        }
        t := t.(count := t.count[n := (if n in t.count then t.count[n] else 0) + 1]);
      }
      KnowsMore(data, lit, i, nameAt, s, t, n);
    }
  }

  lemma SameKnown(data: Text, lit: Text, upto: nat, nameAt: (Text, nat) -> Option<Name>, s: Seen, t: Seen, k: nat)
    requires Knows(data, lit, upto, nameAt, s, k)
    requires SameOf(s, t, k)
    ensures Knows(data, lit, upto, nameAt, t, k)
  {
  }

  /** What is known at the end of the file is what looking for each needle at every place would find. */
  lemma NaiveSearch(data: Text, lit: Text, nameAt: (Text, nat) -> Option<Name>, s: Seen, k: nat)
    requires Knows(data, lit, |data|, nameAt, s, k)
    ensures k in s.first <==> exists at: nat :: Occurs(data, lit, at)
    ensures k in s.first ==>
      Occurs(data, lit, s.first[k]) && forall at: nat :: Occurs(data, lit, at) ==> s.first[k] <= at
    ensures k in s.count <==> k in s.first
    ensures k in s.count ==> s.count[k] == |Places(data, lit, |data|)|
    ensures lit == [] ==> k !in s.first && k !in s.count && k !in s.name
  {
    TallyIsPlaces(data, lit, |data|);
    TallyNone(data, lit, |data|);
    if k in s.first {
      TallyNone(data, lit, s.first[k]);
    }
  }
}
