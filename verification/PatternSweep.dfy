/** The needles the whole pattern table asks for, filed by first byte, and the one pass that finds every
    place one of them begins. */
module PatternSweep {
  import opened Utf8
  import opened PatternLeads
  import opened NeedleBuckets

  datatype Needle = Needle(lit: Text, pattern: nat)
  datatype Cand = Cand(at: nat, needle: nat)

  ghost predicate ParsedTable(table: seq<Regex>) {
    forall p :: 0 <= p < |table| ==> Parsed(table[p])
  }

  /** One needle for each lead of each pattern, in table order. */
  function NeedlesOf(table: seq<Regex>): seq<Needle> {
    if table == [] then [] else NeedlesOf(table[..|table| - 1]) + Filed(LeadsOf(table[|table| - 1]), |table| - 1)
  }

  function Filed(leads: seq<Text>, p: nat): seq<Needle> {
    seq(|leads|, k requires 0 <= k < |leads| => Needle(leads[k], p))
  }

  ghost predicate Usable(needles: seq<Needle>) {
    forall n :: 0 <= n < |needles| ==> needles[n].lit != []
  }

  function Lits(needles: seq<Needle>): seq<Text> {
    seq(|needles|, n requires 0 <= n < |needles| => needles[n].lit)
  }

  lemma {:induction false} NeedlesUsable(table: seq<Regex>)
    requires ParsedTable(table)
    ensures Usable(NeedlesOf(table))
  {
    if table != [] {
      var p := |table| - 1;
      NeedlesUsable(table[..p]);
      LeadsHaveBytes(table[p]);
      forall k | 0 <= k < |LeadsOf(table[p])| ensures LeadsOf(table[p])[k] != [] {
        assert LeadsOf(table[p])[k] in LeadsOf(table[p]);
      }
    }
  }

  /** Pattern by pattern: a needle further on is never of an earlier pattern. */
  lemma {:induction false} NeedlesOrdered(table: seq<Regex>)
    ensures forall n :: 0 <= n < |NeedlesOf(table)| ==> NeedlesOf(table)[n].pattern < |table|
    ensures forall m, n :: 0 <= m < n < |NeedlesOf(table)| ==>
        NeedlesOf(table)[m].pattern <= NeedlesOf(table)[n].pattern
  {
    if table != [] {
      NeedlesOrdered(table[..|table| - 1]);
    }
  }

  lemma FiledIs(leads: seq<Text>, p: nat)
    ensures forall n :: n in Filed(leads, p) <==> n.pattern == p && n.lit in leads
  {
    forall n ensures n in Filed(leads, p) <==> n.pattern == p && n.lit in leads {
      if n.pattern == p && n.lit in leads {
        var k :| 0 <= k < |leads| && leads[k] == n.lit;
        assert Filed(leads, p)[k] == n;
      }
    }
  }

  /** The needles are, of each pattern with fixed first bytes, just what its matches may begin with. */
  lemma {:induction false} NeedlesAreStarts(table: seq<Regex>)
    requires ParsedTable(table)
    ensures forall n :: n in NeedlesOf(table) <==>
      n.pattern < |table| && Fixed(table[n.pattern]) && Starts(table[n.pattern], n.lit)
  {
    if table != [] {
      var q := |table| - 1;
      NeedlesAreStarts(table[..q]);
      LeadsAreStarts(table[q]);
      FiledIs(LeadsOf(table[q]), q);
    }
  }

  predicate Found(data: Text, needles: seq<Needle>, c: Cand) {
    c.needle < |needles| && Occurs(data, needles[c.needle].lit, c.at)
  }

  predicate Before(c: Cand, d: Cand) {
    c.at < d.at || (c.at == d.at && c.needle < d.needle)
  }

  ghost predicate InOrder(cands: seq<Cand>) {
    forall i, j :: 0 <= i < j < |cands| ==> Before(cands[i], cands[j])
  }

  class LeadIndex {
    var needles: seq<Needle>
    const buckets: Buckets

    ghost predicate Valid()
      reads this, buckets, buckets.byFirst
    {
      Usable(needles) && buckets.Valid() && buckets.lits == Lits(needles)
    }

    constructor (table: seq<Regex>)
      requires ParsedTable(table)
      ensures Valid() && needles == NeedlesOf(table)
    {
      needles := [];
      buckets := new Buckets();
      new;
      var p := 0;
      while p < |table|
        invariant 0 <= p <= |table| && Valid() && needles == NeedlesOf(table[..p])
        invariant fresh(buckets) && fresh(buckets.byFirst)
      {
        assert table[..p + 1][..p] == table[..p];
        LeadsHaveBytes(table[p]);
        FileLeads(LeadsOf(table[p]), p);
        p := p + 1;
      }
      assert table[..p] == table;
    }

    method FileLeads(leads: seq<Text>, p: nat)
      requires Valid() && NoneEmpty(leads)
      modifies this, buckets, buckets.byFirst
      ensures Valid() && needles == old(needles) + Filed(leads, p)
    {
      var k := 0;
      while k < |leads|
        invariant 0 <= k <= |leads| && Valid() && needles == old(needles) + Filed(leads, p)[..k]
      {
        assert leads[k] in leads;
        var n := Needle(leads[k], p);
        assert Lits(needles + [n]) == Lits(needles) + [n.lit];
        buckets.File(n.lit, |needles|);
        needles := needles + [n];
        assert Filed(leads, p)[..k + 1] == Filed(leads, p)[..k] + [n];
        k := k + 1;
      }
      assert Filed(leads, p)[..k] == Filed(leads, p);
    }

    /** Every place a needle begins, in file order and, at one place, in table order, so that the stable
        sort by position and pattern that follows finds them sorted. */
    method Candidates(data: Text) returns (cands: seq<Cand>)
      requires Valid()
      ensures forall c :: c in cands <==> Found(data, needles, c)
      ensures InOrder(cands)
    {
      cands := [];
      var i := 0;
      while i < |data|
        invariant 0 <= i <= |data| && InOrder(cands)
        invariant forall c: Cand :: c in cands <==> c.at < i && Found(data, needles, c)
      {
        var here := CandidatesAt(data, i);
        cands := cands + here;
        i := i + 1;
      }
    }

    method CandidatesAt(data: Text, i: nat) returns (here: seq<Cand>)
      requires Valid() && i < |data|
      ensures forall c: Cand :: c in here <==> c.at == i && Found(data, needles, c)
      ensures InOrder(here)
    {
      var bucket := buckets.byFirst[data[i] as int];
      assert bucket == Bucket(Lits(needles), data[i]);
      BucketIsExact(Lits(needles), data[i]);
      here := [];
      var k := 0;
      while k < |bucket|
        invariant 0 <= k <= |bucket| && InOrder(here)
        invariant forall c: Cand :: c in here <==> c.at == i && c.needle in bucket[..k] && Found(data, needles, c)
      {
        var n := bucket[k];
        assert n in bucket;
        var lit := needles[n].lit;
        if |data| - i >= |lit| && data[i..i + |lit|] == lit {
          here := here + [Cand(i, n)];
        }
        assert bucket[..k + 1] == bucket[..k] + [n];
        k := k + 1;
      }
      assert bucket[..k] == bucket;
      forall c: Cand | c.at == i && Found(data, needles, c) ensures c.needle in bucket {
        OccursInBucket(data, Lits(needles), c.needle, i);
      }
    }
  }

  /** No match is dropped: wherever a pattern with fixed first bytes matches, one of its own needles is a
      candidate. */
  lemma MatchStartIsCandidate(e: Engine, table: seq<Regex>, p: nat, data: Text, i: nat, j: nat)
    requires ParsedTable(table) && p < |table| && i <= |data| && Match(e, table[p], data, i, j)
    requires Fixed(table[p]) && Doubtless(table[p])
    ensures var needles := NeedlesOf(table);
      exists n :: 0 <= n < |needles| && needles[n].pattern == p && Found(data, needles, Cand(i, n))
  {
    LeadsSound(e, table[p], data, i, j);
    var l :| l in LeadsOf(table[p]) && Starts(table[p], l) && l <= data[i..];
    NeedlesAreStarts(table);
    assert Needle(l, p) in NeedlesOf(table);
    var n :| 0 <= n < |NeedlesOf(table)| && NeedlesOf(table)[n] == Needle(l, p);
    assert data[i..i + |l|] == data[i..][..|l|] == l;
    LeadsHaveBytes(table[p]);
    assert Found(data, NeedlesOf(table), Cand(i, n));
  }
}
