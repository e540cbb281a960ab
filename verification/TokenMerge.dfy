/** Joining two readings of one file, each without overlaps: the line scanner's and the sweep's. */
module TokenMerge {
  import opened Utf8

  /** A stretch of the file, which reading found it, and what it holds. */
  datatype Token = Token(lo: nat, hi: nat, swept: bool, value: Text)

  predicate Overlap(a: Token, b: Token) {
    a.lo < b.hi && b.lo < a.hi
  }

  predicate Covers(a: Token, b: Token) {
    a.lo <= b.lo && b.hi <= a.hi
  }

  ghost predicate Disjoint(s: seq<Token>) {
    && (forall t :: t in s ==> t.lo < t.hi)
    && forall i, j :: 0 <= i < j < |s| ==> !Overlap(s[i], s[j])
  }

  ghost predicate CoversAll(p: Token, text: seq<Token>) {
    forall t :: t in text && Overlap(p, t) ==> Covers(p, t)
  }

  /** Which tokens a merge keeps, said without an order: a swept one that covers every line token it
      overlaps, and a line token that no such one overlaps. */
  ghost predicate Kept(text: seq<Token>, pattern: seq<Token>, t: Token) {
    || (t in pattern && CoversAll(t, text))
    || (t in text && forall p :: p in pattern && CoversAll(p, text) ==> !Overlap(p, t))
  }

  ghost predicate KeepsJust(text: seq<Token>, pattern: seq<Token>, s: seq<Token>) {
    forall t :: t in s <==> Kept(text, pattern, t)
  }

  ghost predicate Inputs(text: seq<Token>, pattern: seq<Token>) {
    && Disjoint(text) && Disjoint(pattern)
    && (forall t :: t in text ==> !t.swept) && (forall p :: p in pattern ==> p.swept)
  }

  /** `s` without what overlaps `p`. */
  function Clear(s: seq<Token>, p: Token): seq<Token> {
    if s == [] then [] else (if Overlap(p, s[0]) then [] else [s[0]]) + Clear(s[1..], p)
  }

  lemma {:induction false} ClearIs(s: seq<Token>, p: Token)
    ensures forall t :: t in Clear(s, p) <==> t in s && !Overlap(p, t)
    ensures Disjoint(s) ==> Disjoint(Clear(s, p))
  {
    if s != [] {
      ClearIs(s[1..], p);
      if Disjoint(s) {
        assert Disjoint(s[1..]);
        forall t | t in Clear(s[1..], p) ensures !Overlap(s[0], t) {
          var i :| 0 <= i < |s[1..]| && s[1..][i] == t;
          assert s[i + 1] == t;
        }
      }
    }
  }

  lemma {:induction false} ClearNone(s: seq<Token>, p: Token)
    requires forall i :: 0 <= i < |s| ==> !Overlap(p, s[i])
    ensures Clear(s, p) == s
  {
    if s != [] {
      ClearNone(s[1..], p);
    }
  }

  lemma {:induction false} ClearSplit(a: seq<Token>, b: seq<Token>, p: Token)
    ensures Clear(a + b, p) == Clear(a, p) + Clear(b, p)
  {
    if a == [] {
      assert a + b == b;
    } else {
      var head: seq<Token> := if Overlap(p, a[0]) then [] else [a[0]];
      ClearSplit(a[1..], b, p);
      assert (a + b)[1..] == a[1..] + b;
      assert Clear(a + b, p) == head + Clear(a[1..] + b, p);
      assert head + (Clear(a[1..], p) + Clear(b, p)) == (head + Clear(a[1..], p)) + Clear(b, p);
    }
  }

  /** Which of the first `n` tokens `p` overlaps, in order. */
  ghost predicate HitsUpTo(s: seq<Token>, n: nat, p: Token, hit: seq<nat>)
    requires n <= |s|
  {
    && (forall k :: 0 <= k < |hit| ==> hit[k] < n && Overlap(p, s[hit[k]]))
    && (forall j, k :: 0 <= j < k < |hit| ==> hit[j] < hit[k])
    && forall i :: 0 <= i < n && Overlap(p, s[i]) ==> i in hit
  }

  ghost predicate Hits(s: seq<Token>, p: Token, hit: seq<nat>) {
    HitsUpTo(s, |s|, p, hit)
  }

  ghost predicate CoversUpTo(s: seq<Token>, n: nat, p: Token)
    requires n <= |s|
  {
    forall i :: 0 <= i < n && Overlap(p, s[i]) ==> Covers(p, s[i])
  }

  /** One token more looked at. */
  lemma HitsMore(s: seq<Token>, n: nat, p: Token, hit: seq<nat>)
    requires n < |s| && HitsUpTo(s, n, p, hit)
    ensures HitsUpTo(s, n + 1, p, if Overlap(p, s[n]) then hit + [n] else hit)
  {
    hide Overlap;
    var next := if Overlap(p, s[n]) then hit + [n] else hit;
    forall i | 0 <= i < n + 1 && Overlap(p, s[i]) ensures i in next {
      if i == n {
        assert next[|hit|] == n;
      }
    }
  }

  lemma CoversMore(s: seq<Token>, n: nat, p: Token)
    requires n < |s|
    ensures CoversUpTo(s, n + 1, p) <==> CoversUpTo(s, n, p) && (Overlap(p, s[n]) ==> Covers(p, s[n]))
  {
    hide Overlap, Covers;
  }

  lemma NoneSeen(s: seq<Token>, p: Token)
    ensures HitsUpTo(s, 0, p, []) && CoversUpTo(s, 0, p)
  {
  }

  lemma AllCovered(s: seq<Token>, p: Token)
    ensures CoversUpTo(s, |s|, p) <==> CoversAll(p, s)
  {
    hide Overlap, Covers;
    if CoversUpTo(s, |s|, p) {
      forall t | t in s && Overlap(p, t) ensures Covers(p, t) {
        var i :| 0 <= i < |s| && s[i] == t;
      }
    }
  }

  method FindHits(s: seq<Token>, p: Token) returns (hit: seq<nat>, covers: bool)
    ensures Hits(s, p, hit) && (covers <==> CoversAll(p, s))
  {
    hide Overlap, Covers, CoversAll, HitsUpTo, CoversUpTo;
    NoneSeen(s, p);
    hit, covers := [], true;
    var i := 0;
    while i < |s|
      invariant 0 <= i <= |s| && HitsUpTo(s, i, p, hit) && (covers <==> CoversUpTo(s, i, p))
    {
      HitsMore(s, i, p, hit);
      CoversMore(s, i, p);
      if Overlap(p, s[i]) {
        hit := hit + [i];
        covers := covers && Covers(p, s[i]);
      }
      i := i + 1;
    }
    AllCovered(s, p);
  }

  /** Where the k-th hit is, or the end. */
  function Cut(s: seq<Token>, hit: seq<nat>, k: nat): nat {
    if k < |hit| then hit[k] else |s|
  }

  lemma CutStep(s: seq<Token>, p: Token, hit: seq<nat>, k: nat)
    requires Hits(s, p, hit) && k < |hit|
    ensures hit[k] < Cut(s, hit, k + 1) <= |s|
    ensures Clear(s[hit[k]..], p) == s[hit[k] + 1..Cut(s, hit, k + 1)] + Clear(s[Cut(s, hit, k + 1)..], p)
  {
    var h, c := hit[k], Cut(s, hit, k + 1);
    var between := s[h + 1..c];
    forall i | 0 <= i < |between| ensures !Overlap(p, between[i]) {
      assert between[i] == s[h + 1 + i] && h + 1 + i !in hit;
    }
    ClearNone(between, p);
    assert s[h..][1..] == s[h + 1..c] + s[c..];
    ClearSplit(s[h + 1..c], s[c..], p);
  }

  lemma CutFirst(s: seq<Token>, p: Token, hit: seq<nat>)
    requires Hits(s, p, hit)
    ensures Cut(s, hit, 0) <= |s| && s[..Cut(s, hit, 0)] + Clear(s[Cut(s, hit, 0)..], p) == Clear(s, p)
  {
    var c := Cut(s, hit, 0);
    forall i | 0 <= i < c ensures !Overlap(p, s[..c][i]) {
      assert i !in hit;
    }
    ClearNone(s[..c], p);
    assert s == s[..c] + s[c..];
    ClearSplit(s[..c], s[c..], p);
  }

  /** Takes the hits out, the last first, so that those before stay where they are. */
  method RemoveHits(s: seq<Token>, p: Token, hit: seq<nat>) returns (tokens: seq<Token>)
    requires Hits(s, p, hit)
    ensures tokens == Clear(s, p)
  {
    tokens := s;
    var k := |hit|;
    assert s[|s|..] == [];
    while k > 0
      invariant 0 <= k <= |hit| && Cut(s, hit, k) <= |s|
      invariant tokens == s[..Cut(s, hit, k)] + Clear(s[Cut(s, hit, k)..], p)
    {
      k := k - 1;
      ghost var c := Cut(s, hit, k + 1);
      CutStep(s, p, hit, k);
      tokens := tokens[..hit[k]] + tokens[hit[k] + 1..];
      assert tokens == s[..hit[k]] + (s[hit[k] + 1..c] + Clear(s[c..], p));
    }
    CutFirst(s, p, hit);
  }

  /** One swept token: what it settles does not hang on those before it. */
  lemma MergeStep(text: seq<Token>, done: seq<Token>, p: Token, s: seq<Token>, next: seq<Token>)
    requires Inputs(text, done + [p]) && KeepsJust(text, done, s) && Disjoint(s)
    requires next == if CoversAll(p, s) then Clear(s, p) + [p] else s
    ensures KeepsJust(text, done + [p], next) && Disjoint(next)
  {
    hide Inputs, Disjoint, Kept, CoversAll, Overlap;
    ClearIs(s, p);
    OthersApart(text, done, p);
    SameCover(text, done, p, s);
    forall t ensures t in next <==> Kept(text, done + [p], t) {
      KeptStep(text, done, p, t);
    }
    OneApart(Clear(s, p), p);
  }

  lemma OneApart(s: seq<Token>, p: Token)
    requires Disjoint(s) && p.lo < p.hi && forall t :: t in s ==> !Overlap(p, t)
    ensures Disjoint(s + [p])
  {
    forall i | 0 <= i < |s| ensures !Overlap(s[i], p) {
      assert s[i] in s;
    }
  }

  lemma OthersApart(text: seq<Token>, done: seq<Token>, p: Token)
    requires Inputs(text, done + [p])
    ensures p.swept && p.lo < p.hi && (forall q :: q in done ==> q.swept && !Overlap(q, p))
    ensures forall t :: t in text ==> !t.swept
  {
    assert (done + [p])[|done|] == p && p in done + [p];
    forall q | q in done ensures q.swept && !Overlap(q, p) {
      var i :| 0 <= i < |done| && done[i] == q;
      assert (done + [p])[i] == q && q in done + [p];
    }
  }

  lemma KeptStep(text: seq<Token>, done: seq<Token>, p: Token, t: Token)
    requires p.swept && (forall q :: q in done ==> q.swept && !Overlap(q, p)) && forall x :: x in text ==> !x.swept
    ensures CoversAll(p, text) ==> (Kept(text, done + [p], t) <==> t == p || (Kept(text, done, t) && !Overlap(p, t)))
    ensures !CoversAll(p, text) ==> (Kept(text, done + [p], t) <==> Kept(text, done, t))
  {
    assert forall q :: q in done + [p] <==> q in done || q == p;
  }

  /** What a swept token covers of the tokens left it covers of all: one taken out before was covered by
      another swept token, which this one does not overlap. */
  lemma SameCover(text: seq<Token>, done: seq<Token>, p: Token, s: seq<Token>)
    requires Inputs(text, done + [p]) && KeepsJust(text, done, s)
    ensures CoversAll(p, s) <==> CoversAll(p, text)
  {
    OthersApart(text, done, p);
    forall t | t in text && Overlap(p, t) ensures t in s {
      forall q | q in done && CoversAll(q, text) ensures !Overlap(q, t) {
        assert !Overlap(q, p);
      }
    }
  }

  ghost predicate Sorted(s: seq<Token>) {
    forall i, j :: 0 <= i < j < |s| ==> s[i].hi <= s[j].lo
  }

  method InsertByStart(s: seq<Token>, t: Token) returns (out: seq<Token>)
    requires Sorted(s) && t.lo < t.hi && forall x :: x in s ==> x.lo < x.hi && !Overlap(x, t)
    ensures Sorted(out) && forall x :: x in out <==> x in s || x == t
    ensures |out| == |s| + 1
  {
    hide Sorted, Overlap;
    var i := |s|;
    while i > 0 && s[i - 1].lo > t.lo
      invariant 0 <= i <= |s| && forall j :: i <= j < |s| ==> s[j].lo > t.lo
    {
      i := i - 1;
    }
    out := s[..i] + [t] + s[i..];
    Inserted(s, i, t);
    InsertSorted(s, i, t);
  }

  lemma Inserted(s: seq<Token>, i: nat, t: Token)
    requires i <= |s|
    ensures forall x :: x in s[..i] + [t] + s[i..] <==> x in s || x == t
  {
    assert s == s[..i] + s[i..];
  }

  lemma InsertSorted(s: seq<Token>, i: nat, t: Token)
    requires i <= |s| && Sorted(s) && t.lo < t.hi && forall x :: x in s ==> x.lo < x.hi && !Overlap(x, t)
    requires (forall j :: i <= j < |s| ==> s[j].lo > t.lo) && (i > 0 ==> s[i - 1].lo <= t.lo)
    ensures Sorted(s[..i] + [t] + s[i..])
  {
    hide Sorted;
    var a, b := s[..i], s[i..];
    assert s == a + b;
    forall j | 0 <= j < |a| ensures a[j].hi <= t.lo {
      StaysLeft(s, i, j, t);
    }
    forall j | 0 <= j < |b| ensures t.hi <= b[j].lo {
      assert b[j] == s[i + j] && s[i + j] in s;
    }
    SortedAround(a, t, b);
  }

  lemma StaysLeft(s: seq<Token>, i: nat, j: nat, t: Token)
    requires j < i <= |s| && Sorted(s) && s[i - 1].lo <= t.lo && forall x :: x in s ==> x.lo < x.hi && !Overlap(x, t)
    requires t.lo < t.hi
    ensures s[j].hi <= t.lo
  {
    assert s[j] in s && s[i - 1] in s;
  }

  lemma SortedAround(a: seq<Token>, t: Token, b: seq<Token>)
    requires Sorted(a + b)
    requires forall j :: 0 <= j < |a| ==> a[j].hi <= t.lo
    requires forall j :: 0 <= j < |b| ==> t.hi <= b[j].lo
    ensures Sorted(a + [t] + b)
  {
    var s, out := a + b, a + [t] + b;
    forall i, j | 0 <= i < j < |out| ensures out[i].hi <= out[j].lo {
      if i < |a| {
        assert out[i] == a[i] == s[i];
      } else if i > |a| {
        assert out[i] == b[i - |a| - 1] == s[i - 1];
      }
      if j < |a| {
        assert out[j] == a[j] == s[j];
      } else if j > |a| {
        assert out[j] == b[j - |a| - 1] == s[j - 1];
      }
    }
  }

  method SortByStart(s: seq<Token>) returns (out: seq<Token>)
    requires Disjoint(s)
    ensures Sorted(out) && |out| == |s| && forall x :: x in out <==> x in s
  {
    out := [];
    var i := 0;
    while i < |s|
      invariant 0 <= i <= |s| == |s| && |out| == i && Sorted(out) && forall x :: x in out <==> x in s[..i]
    {
      forall x | x in out ensures x.lo < x.hi && !Overlap(x, s[i]) {
        var j :| 0 <= j < i && s[j] == x;
        assert s[j] in s;
      }
      assert s[i] in s;
      out := InsertByStart(out, s[i]);
      assert s[..i + 1] == s[..i] + [s[i]];
      i := i + 1;
    }
    assert s[..i] == s;
  }

  /** Starts from the line tokens. A swept one takes the place of those it overlaps when it covers them
      all, and is left out when it does not. */
  method MergeTokens(text: seq<Token>, pattern: seq<Token>) returns (tokens: seq<Token>)
    requires Inputs(text, pattern)
    ensures KeepsJust(text, pattern, tokens) && Sorted(tokens)
    // A swept token stays exactly when each line token that shares a byte with it lies inside it; a line token
    // exactly when it shares none with one that stays.
    ensures forall p :: p in pattern ==>
      (p in tokens <==> forall t :: t in text && t.lo < p.hi && p.lo < t.hi ==> p.lo <= t.lo && t.hi <= p.hi)
    ensures forall t :: t in text ==>
      (t in tokens <==> forall p :: p in pattern && p in tokens ==> p.hi <= t.lo || t.hi <= p.lo)
    ensures forall t :: t in tokens ==> t in text || t in pattern
  {
    tokens := text;
    var i := 0;
    while i < |pattern|
      invariant 0 <= i <= |pattern| && KeepsJust(text, pattern[..i], tokens) && Disjoint(tokens)
    {
      var p := pattern[i];
      assert pattern[..i + 1] == pattern[..i] + [p];
      InputsPrefix(text, pattern, i + 1);
      ghost var before := tokens;
      var hit, covers := FindHits(tokens, p);
      if covers {
        tokens := RemoveHits(tokens, p, hit);
        tokens := tokens + [p];
      }
      MergeStep(text, pattern[..i], p, before, tokens);
      i := i + 1;
    }
    assert pattern[..i] == pattern;
    tokens := SortByStart(tokens);
    KeptOutright(text, pattern, tokens);
  }

  lemma KeptOutright(text: seq<Token>, pattern: seq<Token>, s: seq<Token>)
    requires Inputs(text, pattern) && KeepsJust(text, pattern, s)
    ensures forall p :: p in pattern ==>
      (p in s <==> forall t :: t in text && t.lo < p.hi && p.lo < t.hi ==> p.lo <= t.lo && t.hi <= p.hi)
    ensures forall t :: t in text ==>
      (t in s <==> forall p :: p in pattern && p in s ==> p.hi <= t.lo || t.hi <= p.lo)
    ensures forall t :: t in s ==> t in text || t in pattern
  {
    forall p | p in pattern ensures p in s <==> CoversAll(p, text) {
      assert p.swept && p !in text;
    }
  }

  lemma InputsPrefix(text: seq<Token>, pattern: seq<Token>, n: nat)
    requires Inputs(text, pattern) && n <= |pattern|
    ensures Inputs(text, pattern[..n])
  {
  }

  /** Every byte a line token covered, a kept token covers. */
  lemma NoByteLost(text: seq<Token>, pattern: seq<Token>, s: seq<Token>, t: Token, b: nat)
    requires KeepsJust(text, pattern, s) && t in text && t.lo <= b < t.hi
    ensures exists k :: k in s && k.lo <= b < k.hi
  {
    if t !in s {
      var p :| p in pattern && CoversAll(p, text) && Overlap(p, t);
      assert Covers(p, t) && Kept(text, pattern, p);
      assert p in s && p.lo <= b < p.hi;
    }
  }
}
