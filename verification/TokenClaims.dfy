/** Two ways to settle which of many overlapping matches are reported: the sweep takes them by place in
    the file, the line scanner by place in the pattern table. */
module TokenClaims {
  /** One pattern's match. `ok` says neither the pattern's exclusions nor the placeholder check reject it. */
  datatype Span = Span(lo: nat, hi: nat, pat: nat, ok: bool)

  datatype Order = ByPlace | ByTable

  predicate Overlap(a: Span, b: Span) {
    a.lo < b.hi && b.lo < a.hi
  }

  function Major(o: Order, s: Span): nat {
    if o == ByPlace then s.lo else s.pat
  }

  function Minor(o: Order, s: Span): nat {
    if o == ByPlace then s.pat else s.lo
  }

  predicate Before(o: Order, a: Span, b: Span) {
    Major(o, a) < Major(o, b) || (Major(o, a) == Major(o, b) && Minor(o, a) < Minor(o, b))
  }

  ghost predicate Disjoint(k: set<Span>) {
    forall x, y :: x in k && y in k && x != y ==> !Overlap(x, y)
  }

  /** The choice an order makes: acceptable spans, none overlapping another, and each acceptable span left
      out overlaps a chosen one that comes first. */
  ghost predicate Chosen(o: Order, c: set<Span>, k: set<Span>) {
    && k <= c && Disjoint(k)
    && (forall x :: x in k ==> x.ok)
    && forall x :: x in c && x.ok && x !in k ==> exists y :: y in k && Overlap(x, y) && Before(o, y, x)
  }

  lemma {:induction false} SameChoice(o: Order, c: set<Span>, k: set<Span>, l: set<Span>, x: Span)
    requires Chosen(o, c, k) && Chosen(o, c, l) && x in k
    ensures x in l
    decreases Major(o, x), Minor(o, x)
  {
    if x !in l {
      var y :| y in l && Overlap(x, y) && Before(o, y, x);
      SameChoice(o, c, l, k, y);
      assert false;
    }
  }

  /** An order makes one choice. */
  lemma ChosenIsUnique(o: Order, c: set<Span>, k: set<Span>, l: set<Span>)
    requires Chosen(o, c, k) && Chosen(o, c, l)
    ensures k == l
  {
    forall x | x in k ensures x in l {
      SameChoice(o, c, k, l, x);
    }
    forall x | x in l ensures x in k {
      SameChoice(o, c, l, k, x);
    }
  }

  /** Whenever two acceptable matches overlap, the one earlier in the table starts no later. */
  ghost predicate Aligned(c: set<Span>) {
    forall x, y :: x in c && y in c && x.ok && y.ok && Overlap(x, y) && x.pat < y.pat ==> x.lo <= y.lo
  }

  /** Then both orders make the same choice. */
  lemma OrdersAgree(c: set<Span>, k: set<Span>)
    requires Aligned(c)
    ensures Chosen(ByPlace, c, k) <==> Chosen(ByTable, c, k)
  {
  }

  /** Not aligned, they need not: a specific pattern listed first but starting later loses its match to
      the sweep's order and keeps it in the table's. */
  lemma UnalignedDiffer()
    ensures var wide, narrow := Span(0, 10, 1, true), Span(5, 8, 0, true);
      !Aligned({wide, narrow}) && Chosen(ByPlace, {wide, narrow}, {wide}) && Chosen(ByTable, {wide, narrow}, {narrow})
  {
    var wide, narrow := Span(0, 10, 1, true), Span(5, 8, 0, true);
    assert Overlap(narrow, wide) && narrow.pat < wide.pat && narrow.lo > wide.lo;
    assert Overlap(narrow, wide) && Before(ByPlace, wide, narrow);
    assert Overlap(wide, narrow) && Before(ByTable, narrow, wide);
  }

  lemma ChosenOfFewer(o: Order, c: set<Span>, f: set<Span>, k: set<Span>)
    requires Chosen(o, c, k) && k <= f <= c
    ensures Chosen(o, f, k)
  {
  }

  function SetOf(s: seq<Span>): set<Span> {
    set x | x in s
  }

  ghost predicate InOrder(o: Order, s: seq<Span>) {
    forall i, j :: 0 <= i < j < |s| ==> s[i] == s[j] || Before(o, s[i], s[j])
  }

  /** One more candidate, after all those settled. */
  lemma ChosenStep(o: Order, c: set<Span>, k: set<Span>, x: Span, clash: bool)
    requires Chosen(o, c, k) && x.lo < x.hi
    requires forall y :: y in c ==> y == x || Before(o, y, x)
    requires clash <==> exists y :: y in k && Overlap(x, y)
    ensures Chosen(o, c + {x}, if clash || !x.ok then k else k + {x})
  {
    if clash {
      var y :| y in k && Overlap(x, y);
      assert y == x || Before(o, y, x);
    }
  }

  method Overlaps(claimed: seq<Span>, lo: nat, hi: nat) returns (clash: bool)
    ensures clash <==> exists c :: c in claimed && lo < c.hi && c.lo < hi
  {
    var i := 0;
    while i < |claimed|
      invariant 0 <= i <= |claimed| && forall j :: 0 <= j < i ==> !(lo < claimed[j].hi && claimed[j].lo < hi)
    {
      if lo < claimed[i].hi && claimed[i].lo < hi {
        return true;
      }
      i := i + 1;
    }
    return false;
  }

  /** A place some needle begins: the needle's length and pattern, and the match found there, if any. */
  datatype Hit = Hit(at: nat, needle: nat, pat: nat, found: seq<Span>)

  ghost predicate WellFound(h: Hit) {
    && h.needle > 0 && |h.found| <= 1
    && (h.found != [] ==> h.found[0].lo == h.at < h.found[0].hi && h.found[0].pat == h.pat)
  }

  /** Hits as the sweep sorts them; one pattern finds one match at one place. */
  ghost predicate Sorted(hits: seq<Hit>) {
    && (forall i :: 0 <= i < |hits| ==> WellFound(hits[i]))
    && (forall i, j :: 0 <= i < j < |hits| ==>
         hits[i].at < hits[j].at || (hits[i].at == hits[j].at && hits[i].pat <= hits[j].pat))
    && (forall i, j :: 0 <= i < |hits| && 0 <= j < |hits| && hits[i].at == hits[j].at && hits[i].pat == hits[j].pat ==>
         hits[i].found == hits[j].found)
  }

  function Spans(hits: seq<Hit>): set<Span> {
    set h, s | h in hits && s in h.found :: s
  }

  ghost predicate StartBy(out: seq<Span>, at: nat) {
    forall c :: c in out ==> c.lo <= at && c.lo < c.hi
  }

  ghost predicate Ascending(out: seq<Span>) {
    forall i, j :: 0 <= i < j < |out| ==> out[i].hi <= out[j].lo
  }

  /** The hits settled so far, and what they claimed. */
  ghost predicate Settled(hits: seq<Hit>, i: nat, out: seq<Span>) {
    && i <= |hits| && Chosen(ByPlace, Spans(hits[..i]), SetOf(out)) && Ascending(out)
    && (i < |hits| ==> StartBy(out, hits[i].at))
  }

  /** Claims by place in the file. The check on the needle alone, before the regex runs, turns away only
      what the check on the match would. */
  method Sweep(hits: seq<Hit>) returns (out: seq<Span>)
    requires Sorted(hits)
    ensures Chosen(ByPlace, Spans(hits), SetOf(out)) && Ascending(out)
  {
    out := [];
    var i := 0;
    while i < |hits|
      invariant Settled(hits, i, out)
    {
      HitSpans(hits, i);
      ghost var was := out;
      out := ClaimHit(out, Spans(hits[..i]), hits[i]);
      SettledStep(hits, i, was, out);
      i := i + 1;
    }
    assert hits[..i] == hits;
  }

  lemma SettledStep(hits: seq<Hit>, i: nat, was: seq<Span>, out: seq<Span>)
    requires i < |hits| && WellFound(hits[i]) && (i + 1 < |hits| ==> hits[i].at <= hits[i + 1].at) && Ascending(was)
    requires Chosen(ByPlace, Spans(hits[..i + 1]), SetOf(out)) && StartBy(out, hits[i].at)
    requires out == was || (hits[i].found != [] && out == was + hits[i].found
        && forall c :: c in was ==> c.hi <= hits[i].at)
    ensures Settled(hits, i + 1, out)
  {
    if out != was {
      AscendingMore(was, hits[i].found[0]);
      assert hits[i].found == [hits[i].found[0]];
    }
  }

  lemma AscendingMore(was: seq<Span>, x: Span)
    requires Ascending(was) && forall c :: c in was ==> c.hi <= x.lo
    ensures Ascending(was + [x])
  {
    forall i | 0 <= i < |was| ensures was[i].hi <= x.lo {
      assert was[i] in was;
    }
  }

  method ClaimHit(out: seq<Span>, ghost settled: set<Span>, h: Hit) returns (next: seq<Span>)
    requires Chosen(ByPlace, settled, SetOf(out)) && WellFound(h) && StartBy(out, h.at)
    requires forall x, y :: x in h.found && y in settled ==> y == x || Before(ByPlace, y, x)
    ensures Chosen(ByPlace, settled + SetOf(h.found), SetOf(next)) && StartBy(next, h.at)
    ensures next == out || (h.found != [] && next == out + h.found && forall c :: c in out ==> c.hi <= h.at)
  {
    next := out;
    assert settled + SetOf([]) == settled;
    var early := Overlaps(out, h.at, h.at + h.needle);
    if h.found == [] {
      return;
    }
    var x := h.found[0];
    assert h.found == [x] && SetOf(h.found) == {x};
    var clash := Overlaps(out, x.lo, x.hi);
    // Whatever is claimed starts no later than this hit, so either check asks only whether it ends after.
    assert early == clash;
    assert clash <==> exists y :: y in SetOf(out) && Overlap(x, y);
    ChosenStep(ByPlace, settled, SetOf(out), x, clash);
    if early {
      return;
    }
    if clash {
      return;
    }
    if !x.ok {
      return;
    }
    next := out + [x];
    assert SetOf(next) == SetOf(out) + {x};
  }

  lemma HitSpans(hits: seq<Hit>, i: nat)
    requires Sorted(hits) && i < |hits|
    ensures Spans(hits[..i + 1]) == Spans(hits[..i]) + SetOf(hits[i].found)
    ensures forall x, y :: x in hits[i].found && y in Spans(hits[..i]) ==> y == x || Before(ByPlace, y, x)
  {
    assert hits[..i + 1] == hits[..i] + [hits[i]];
    forall x, y | x in hits[i].found && y in Spans(hits[..i]) ensures y == x || Before(ByPlace, y, x) {
      var h :| h in hits[..i] && y in h.found;
      var j :| 0 <= j < i && hits[j] == h;
    }
  }

  /** The matches of one pattern that a scan left to right reports: each one past the end of the last. */
  function FindAll(s: seq<Span>, from: nat): (f: seq<Span>)
    ensures forall x :: x in f ==> x in s
    ensures (forall i :: 0 <= i < |s| ==> s[i].lo < s[i].hi) ==> forall x :: x in f ==> from <= x.lo
  {
    if s == [] then []
    else if s[0].lo < from then FindAll(s[1..], from)
    else [s[0]] + FindAll(s[1..], s[0].hi)
  }

  /** What the scan passes over starts inside a match it reported. */
  lemma {:induction false} FindAllSkips(s: seq<Span>, from: nat, x: Span)
    requires forall i :: 0 <= i < |s| ==> s[i].lo < s[i].hi
    requires x in s && x !in FindAll(s, from) && from <= x.lo
    requires forall i, j :: 0 <= i < j < |s| ==> s[i].lo <= s[j].lo
    ensures exists y :: y in FindAll(s, from) && y.lo <= x.lo < y.hi
  {
    if s[0].lo < from {
      FindAllSkips(s[1..], from, x);
    } else {
      assert s[0] in FindAll(s, from) && s[0].lo <= x.lo;
      if s[0].hi <= x.lo {
        FindAllSkips(s[1..], s[0].hi, x);
        var y :| y in FindAll(s[1..], s[0].hi) && y.lo <= x.lo < y.hi;
        assert y in FindAll(s, from);
      }
    }
  }

  /** The candidates of each pattern of the table, left to right. */
  ghost predicate Table(t: seq<seq<Span>>) {
    && (forall p, i :: 0 <= p < |t| && 0 <= i < |t[p]| ==> t[p][i].pat == p && t[p][i].lo < t[p][i].hi)
    && (forall p, i, j :: 0 <= p < |t| && 0 <= i < j < |t[p]| ==> t[p][i].lo < t[p][j].lo)
  }

  ghost function All(t: seq<seq<Span>>): set<Span> {
    set p, x | 0 <= p < |t| && x in t[p] :: x
  }

  /** What FindAll reports, pattern by pattern. */
  ghost function Reported(t: seq<seq<Span>>): set<Span>
    requires Table(t)
  {
    if t == [] then {} else Reported(t[..|t| - 1]) + SetOf(FindAll(t[|t| - 1], 0))
  }

  lemma {:induction false} ReportedIsFindAll(t: seq<seq<Span>>, x: Span)
    requires Table(t)
    ensures x in Reported(t) <==> x.pat < |t| && x in FindAll(t[x.pat], 0)
  {
    if t != [] {
      var n := |t| - 1;
      ReportedIsFindAll(t[..n], x);
      if x in FindAll(t[n], 0) {
        assert x in t[n] && x.pat == n;
      }
    }
  }

  lemma FindAllPast(s: seq<Span>, from: nat)
    requires forall i :: 0 <= i < |s| ==> s[i].lo < s[i].hi
    ensures forall x :: x in FindAll(s, from) ==> from <= x.lo
  {
  }

  lemma OneBefore(x: Span, rest: seq<Span>)
    requires Ascending(rest) && forall y :: y in rest ==> x.hi <= y.lo
    ensures Ascending([x] + rest)
  {
    forall j | 0 <= j < |rest| ensures x.hi <= rest[j].lo {
      assert rest[j] in rest;
    }
  }

  /** Each match it reports begins past the end of those before. */
  lemma {:induction false} FindAllApart(s: seq<Span>, from: nat)
    requires forall i :: 0 <= i < |s| ==> s[i].lo < s[i].hi
    ensures Ascending(FindAll(s, from))
  {
    if s == [] {
    } else if s[0].lo < from {
      FindAllApart(s[1..], from);
    } else {
      FindAllApart(s[1..], s[0].hi);
      FindAllPast(s[1..], s[0].hi);
      OneBefore(s[0], FindAll(s[1..], s[0].hi));
    }
  }

  lemma {:induction false} FindAllOrdered(s: seq<Span>, from: nat)
    requires forall i :: 0 <= i < |s| ==> s[i].lo < s[i].hi
    requires forall i, j :: 0 <= i < j < |s| ==> s[i].lo < s[j].lo
    ensures forall i, j :: 0 <= i < j < |FindAll(s, from)| ==> FindAll(s, from)[i].lo < FindAll(s, from)[j].lo
  {
    if s != [] {
      if s[0].lo < from {
        FindAllOrdered(s[1..], from);
      } else {
        FindAllOrdered(s[1..], s[0].hi);
        forall x | x in FindAll(s[1..], s[0].hi) ensures s[0].lo < x.lo {
        }
      }
    }
  }

  lemma TablePrefix(t: seq<seq<Span>>, p: nat)
    requires Table(t) && p <= |t|
    ensures Table(t[..p])
  {
  }

  /** What one more pattern adds, all of it after what came before. */
  lemma ReportedMore(t: seq<seq<Span>>, p: nat)
    requires Table(t) && p < |t|
    ensures Table(t[..p]) && Table(t[..p + 1])
    ensures Reported(t[..p + 1]) == Reported(t[..p]) + SetOf(FindAll(t[p], 0))
    ensures forall x :: x in Reported(t[..p]) ==> x.pat < p
    ensures forall x :: x in FindAll(t[p], 0) ==> x.pat == p && x.lo < x.hi
    ensures forall i, j :: 0 <= i < j < |FindAll(t[p], 0)| ==> FindAll(t[p], 0)[i].lo < FindAll(t[p], 0)[j].lo
  {
    TablePrefix(t, p);
    TablePrefix(t, p + 1);
    assert t[..p + 1][..p] == t[..p];
    forall x | x in Reported(t[..p]) ensures x.pat < p {
      ReportedIsFindAll(t[..p], x);
    }
    FindAllOrdered(t[p], 0);
  }

  predicate Clashes(claimed: seq<Span>, x: Span) {
    exists c :: c in claimed && Overlap(x, c)
  }

  /** Each of `locs` in turn claims its stretch, unless it is rejected or some of it is claimed. */
  function ClaimLocs(claimed: seq<Span>, locs: seq<Span>): seq<Span> {
    if locs == [] then claimed else
      var before, x := ClaimLocs(claimed, locs[..|locs| - 1]), locs[|locs| - 1];
      if Clashes(before, x) || !x.ok then before else before + [x]
  }

  /** Pattern after pattern of the table. */
  function ClaimTable(t: seq<seq<Span>>): seq<Span> {
    if t == [] then [] else ClaimLocs(ClaimTable(t[..|t| - 1]), FindAll(t[|t| - 1], 0))
  }

  ghost predicate Apart(s: seq<Span>) {
    forall i, j :: 0 <= i < j < |s| ==> !Overlap(s[i], s[j])
  }

  /** What the locations of one pattern add to the choice. */
  lemma {:induction false} LocsChosen(claimed: seq<Span>, settled: set<Span>, locs: seq<Span>, p: nat)
    requires Chosen(ByTable, settled, SetOf(claimed)) && Apart(claimed)
    requires forall x :: x in settled ==> x.pat < p
    requires forall x :: x in locs ==> x.pat == p && x.lo < x.hi
    requires forall i, j :: 0 <= i < j < |locs| ==> locs[i].lo < locs[j].lo
    ensures Chosen(ByTable, settled + SetOf(locs), SetOf(ClaimLocs(claimed, locs))) && Apart(ClaimLocs(claimed, locs))
  {
    hide Chosen, Apart, Clashes, Before;
    if locs == [] {
      assert settled + SetOf([]) == settled;
    } else {
      var n := |locs| - 1;
      var before, x := ClaimLocs(claimed, locs[..n]), locs[n];
      LocsChosen(claimed, settled, locs[..n], p);
      LocsBefore(settled, locs, n, p);
      assert locs[..n + 1] == locs;
      LocsMore(settled, locs, n);
      LocChosen(before, settled + SetOf(locs[..n]), x);
    }
  }

  lemma LocChosen(before: seq<Span>, settled: set<Span>, x: Span)
    requires Chosen(ByTable, settled, SetOf(before)) && Apart(before) && x.lo < x.hi
    requires forall y :: y in settled ==> Before(ByTable, y, x)
    ensures var after := if Clashes(before, x) || !x.ok then before else before + [x];
      Chosen(ByTable, settled + {x}, SetOf(after)) && Apart(after)
  {
    assert Clashes(before, x) <==> exists y :: y in SetOf(before) && Overlap(x, y);
    ChosenStep(ByTable, settled, SetOf(before), x, Clashes(before, x));
    assert SetOf(before + [x]) == SetOf(before) + {x};
  }

  /** The table-ordered claims are the choice of that order over what FindAll reports. */
  lemma {:induction false} ClaimsChosen(t: seq<seq<Span>>)
    requires Table(t)
    ensures Chosen(ByTable, Reported(t), SetOf(ClaimTable(t))) && Apart(ClaimTable(t))
  {
    if t != [] {
      var n := |t| - 1;
      ClaimsChosen(t[..n]);
      ReportedMore(t, n);
      assert t[..n + 1] == t;
      LocsChosen(ClaimTable(t[..n]), Reported(t[..n]), FindAll(t[n], 0), n);
    }
  }

  /** Claims by place in the table, and within one pattern by place in the line. */
  method LineClaims(t: seq<seq<Span>>) returns (out: seq<Span>)
    requires Table(t)
    ensures out == ClaimTable(t) && Chosen(ByTable, Reported(t), SetOf(out)) && Apart(out)
  {
    out := [];
    var p := 0;
    while p < |t|
      invariant 0 <= p <= |t| && Table(t[..p]) && out == ClaimTable(t[..p])
    {
      assert t[..p + 1][..p] == t[..p];
      out := ClaimPattern(out, FindAll(t[p], 0));
      p := p + 1;
    }
    assert t[..p] == t;
    ClaimsChosen(t);
  }

  method ClaimPattern(claimed: seq<Span>, locs: seq<Span>) returns (out: seq<Span>)
    ensures out == ClaimLocs(claimed, locs)
  {
    out := claimed;
    var i := 0;
    while i < |locs|
      invariant 0 <= i <= |locs| && out == ClaimLocs(claimed, locs[..i])
    {
      assert locs[..i + 1][..i] == locs[..i];
      var x := locs[i];
      var clash := Overlaps(out, x.lo, x.hi);
      if !clash && x.ok {
        out := out + [x];
      }
      i := i + 1;
    }
    assert locs[..i] == locs;
  }

  lemma LocsBefore(settled: set<Span>, locs: seq<Span>, i: nat, p: nat)
    requires i < |locs| && (forall x :: x in settled ==> x.pat < p)
        && (forall x :: x in locs ==> x.pat == p && x.lo < x.hi)
    requires forall i, j :: 0 <= i < j < |locs| ==> locs[i].lo < locs[j].lo
    ensures locs[i].lo < locs[i].hi && forall y :: y in settled + SetOf(locs[..i]) ==> Before(ByTable, y, locs[i])
  {
    assert locs[i] in locs;
    forall y | y in settled + SetOf(locs[..i]) ensures Before(ByTable, y, locs[i]) {
      if y in locs[..i] {
        var j :| 0 <= j < i && locs[j] == y;
      }
    }
  }

  lemma LocsMore(settled: set<Span>, locs: seq<Span>, i: nat)
    requires i < |locs|
    ensures settled + SetOf(locs[..i + 1]) == settled + SetOf(locs[..i]) + {locs[i]}
  {
    assert locs[..i + 1] == locs[..i] + [locs[i]];
  }

  /** Over the same candidates, aligned, the two claimers report the same matches exactly when the left to
      right scans report every match the sweep keeps. */
  lemma ClaimersAgreeIff(t: seq<seq<Span>>, swept: set<Span>, lines: set<Span>)
    requires Table(t) && Aligned(All(t))
    requires Chosen(ByPlace, All(t), swept) && Chosen(ByTable, Reported(t), lines)
    ensures lines == swept <==> swept <= Reported(t)
  {
    forall x | x in Reported(t) ensures x in All(t) {
      ReportedIsFindAll(t, x);
    }
    OrdersAgree(All(t), swept);
    if swept <= Reported(t) {
      ChosenOfFewer(ByTable, All(t), Reported(t), swept);
      ChosenIsUnique(ByTable, Reported(t), swept, lines);
    }
  }

  /** They do whenever no match the sweep keeps starts inside an earlier match of the same pattern. */
  lemma KeptAreReported(t: seq<seq<Span>>, swept: set<Span>)
    requires Table(t) && swept <= All(t)
    requires forall x, y :: x in swept && y in All(t) && y.pat == x.pat && y.lo < x.lo ==> y.hi <= x.lo
    ensures swept <= Reported(t)
  {
    hide Reported, FindAll;
    forall x | x in swept ensures x in Reported(t) {
      var p :| 0 <= p < |t| && x in t[p];
      ReportedIsFindAll(t, x);
      KeptIsReported(t[p], x);
    }
  }

  lemma KeptIsReported(s: seq<Span>, x: Span)
    requires x in s && forall i :: 0 <= i < |s| ==> s[i].lo < s[i].hi
    requires forall i, j :: 0 <= i < j < |s| ==> s[i].lo < s[j].lo
    requires forall y :: y in s && y.lo < x.lo ==> y.hi <= x.lo
    ensures x in FindAll(s, 0)
  {
    if x !in FindAll(s, 0) {
      FindAllSkips(s, 0, x);
    }
  }
}
