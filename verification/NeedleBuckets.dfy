/** Fixed strings filed by their first byte, so that each place in a file is tried against few of them. */
module NeedleBuckets {
  import opened Utf8

  /** `lit` stands in `data` at `at`. The empty string stands nowhere. */
  predicate Occurs(data: Text, lit: Text, at: nat) {
    lit != [] && at + |lit| <= |data| && data[at..at + |lit|] == lit
  }

  /** The strings beginning with `b`, by number, in order. */
  function Bucket(lits: seq<Text>, b: Byte): seq<nat> {
    if lits == [] then [] else
      var n := |lits| - 1;
      Bucket(lits[..n], b) + if lits[n] != [] && lits[n][0] == b then [n] else []
  }

  lemma {:induction false} BucketIsExact(lits: seq<Text>, b: Byte)
    ensures forall n: nat :: n in Bucket(lits, b) <==> n < |lits| && lits[n] != [] && lits[n][0] == b
    ensures forall i, j :: 0 <= i < j < |Bucket(lits, b)| ==> Bucket(lits, b)[i] < Bucket(lits, b)[j]
  {
    if lits != [] {
      var n := |lits| - 1;
      BucketIsExact(lits[..n], b);
      var before := Bucket(lits[..n], b);
      forall i | 0 <= i < |before| ensures before[i] < n {
        assert before[i] in before;
      }
    }
  }

  /** Only a string filed under the byte at a place can stand there. */
  lemma OccursInBucket(data: Text, lits: seq<Text>, n: nat, at: nat)
    requires n < |lits| && Occurs(data, lits[n], at)
    ensures at < |data| && n in Bucket(lits, data[at])
  {
    BucketIsExact(lits, data[at]);
    assert data[at] == data[at..at + |lits[n]|][0];
  }

  class Buckets {
    const byFirst: array<seq<nat>>
    ghost var lits: seq<Text>

    ghost predicate Valid()
      reads this, byFirst
    {
      byFirst.Length == 256 && forall b: Byte :: byFirst[b as int] == Bucket(lits, b)
    }

    constructor ()
      ensures Valid() && fresh(byFirst) && lits == []
    {
      byFirst := new seq<nat>[256](_ => []);
      lits := [];
    }

    /** Files string number `n`. An empty one is never looked for. */
    method File(lit: Text, n: nat)
      requires Valid() && n == |lits|
      modifies this`lits, byFirst
      ensures Valid() && lits == old(lits) + [lit]
    {
      if lit != [] {
        byFirst[lit[0] as int] := byFirst[lit[0] as int] + [n];
      }
      assert (lits + [lit])[..n] == lits;
      lits := lits + [lit];
    }
  }
}
