/** The fixed bytes every match of a pattern must begin with, read off its syntax tree, and what it
    means for the tree to match. */
module PatternLeads {
  import opened Utf8

  datatype Assertion = BeginLine | EndLine | BeginText | EndText | WordBoundary | NoWordBoundary

  /** What the parser builds. `Repeat` is *, +, ? and {n,m}; no most is no bound. */
  datatype Regex =
    | NoMatch
    | EmptyMatch
    | Literal(runes: seq<Rune>, fold: bool)
    | Assert(assertion: Assertion)
    | Class(has: Rune -> bool)
    | Repeat(sub: Regex, least: nat, most: int)
    | Capture(sub: Regex)
    | Concat(subs: seq<Regex>)
    | Alternate(subs: seq<Regex>)

  /** What the engine decides for itself: where an assertion holds, and which runes are one letter. */
  datatype Engine = Engine(holds: (Assertion, Text, nat) -> bool, folds: (Rune, Rune) -> bool)

  predicate Spells(e: Engine, runes: seq<Rune>, fold: bool, t: Text, i: nat, j: nat) {
    if runes == [] then i == j else
      && i < |t|
      && var r := Decode(t, i);
         (r.rune == runes[0] || (fold && e.folds(runes[0], r.rune))) && Spells(e, runes[1..], fold, t, i + r.width, j)
  }

  /** `re` matches `t` from `i` to `j`, by some path through it. */
  ghost predicate Match(e: Engine, re: Regex, t: Text, i: nat, j: nat)
    decreases re, 0
  {
    match re
    case NoMatch => false
    case EmptyMatch => i == j
    case Literal(runes, fold) => Spells(e, runes, fold, t, i, j)
    case Assert(a) => i == j && e.holds(a, t, i)
    case Class(has) => i < |t| && has(Decode(t, i).rune) && j == i + Decode(t, i).width
    case Repeat(sub, least, most) => exists n: nat :: least <= n && (most < 0 || n <= most) && Times(e, sub, n, t, i, j)
    case Capture(sub) => Match(e, sub, t, i, j)
    case Concat(subs) => InTurn(e, subs, t, i, j)
    case Alternate(subs) => exists k :: 0 <= k < |subs| && Match(e, subs[k], t, i, j)
  }

  ghost predicate Times(e: Engine, re: Regex, n: nat, t: Text, i: nat, j: nat)
    decreases re, n
  {
    if n == 0 then i == j else exists m: nat :: Match(e, re, t, i, m) && Times(e, re, n - 1, t, m, j)
  }

  ghost predicate InTurn(e: Engine, subs: seq<Regex>, t: Text, i: nat, j: nat)
    decreases subs, 0
  {
    if subs == [] then i == j else exists m: nat :: Match(e, subs[0], t, i, m) && InTurn(e, subs[1..], t, m, j)
  }

  function Bytes(runes: seq<Rune>): Text {
    if runes == [] then [] else Encode(runes[0]) + Bytes(runes[1..])
  }

  function LeadOrNil(s: Text): seq<Text> {
    if s == [] then [] else [s]
  }

  /** Assertions a lead may stand behind. */
  predicate Skipped(re: Regex) {
    re.EmptyMatch? || (re.Assert? && !re.assertion.EndLine? && !re.assertion.EndText?)
  }

  function LeadsOf(re: Regex): seq<Text>
    decreases re, 0
  {
    match re
    case Capture(sub) => LeadsOf(sub)
    case Literal(runes, fold) => if fold then [] else [Bytes(runes)]
    case Alternate(subs) => BranchLeads(subs).1
    case Concat(subs) => ConcatLeads([], subs)
    case _ => []
  }

  /** Every branch's leads, unless one has none: then the whole has none. */
  function BranchLeads(subs: seq<Regex>): (bool, seq<Text>)
    decreases subs, 0
  {
    if subs == [] then (true, []) else
      var l, rest := LeadsOf(subs[0]), BranchLeads(subs[1..]);
      if l == [] || !rest.0 then (false, []) else (true, l + rest.1)
  }

  function Prefixed(head: Text, tails: seq<Text>): seq<Text> {
    seq(|tails|, k requires 0 <= k < |tails| => head + tails[k])
  }

  /** A literal head, spread over the branches of what follows it. */
  function ConcatLeads(head: Text, subs: seq<Regex>): seq<Text>
    decreases subs, 0
  {
    if subs == [] then LeadOrNil(head)
    else if Skipped(subs[0]) then ConcatLeads(head, subs[1..])
    else match subs[0]
      case Literal(runes, fold) => if fold then LeadOrNil(head) else ConcatLeads(head + Bytes(runes), subs[1..])
      case Capture(_) =>
        var tails := LeadsOf(subs[0]);
        if tails == [] then LeadOrNil(head) else Prefixed(head, tails)
      case Alternate(_) =>
        var tails := LeadsOf(subs[0]);
        if tails == [] then LeadOrNil(head) else Prefixed(head, tails)
      case _ => LeadOrNil(head)
  }

  /** U+FFFD is written at `k`. */
  predicate MarkAt(l: Text, k: nat) {
    k + 3 <= |l| && l[k] == 0xEF && l[k + 1] == 0xBF && l[k + 2] == 0xBD
  }

  ghost predicate Clean(l: Text) {
    forall k: nat :: !MarkAt(l, k)
  }

  ghost predicate AllClean(ls: seq<Text>) {
    forall l :: l in ls ==> Clean(l)
  }

  ghost predicate Begins(ls: seq<Text>, t: Text, i: nat) {
    i <= |t| && exists l :: l in ls && l <= t[i..]
  }

  lemma CleanPart(l: Text, i: nat, j: nat)
    requires Clean(l) && i <= j <= |l|
    ensures Clean(l[i..j])
  {
    forall k: nat ensures !MarkAt(l[i..j], k) {
      assert !MarkAt(l, i + k);
    }
  }

  /** What spells a literal without U+FFFD is the literal's own bytes. */
  lemma {:induction false} NoMarkSound(e: Engine, runes: seq<Rune>, t: Text, i: nat, j: nat)
    requires Spells(e, runes, false, t, i, j) && REPLACEMENT !in runes && i <= |t|
    ensures i <= j <= |t| && t[i..j] == Bytes(runes)
  {
    if runes != [] {
      DecodedIsEncoded(t, i);
      var w := Decode(t, i).width;
      NoMarkSound(e, runes[1..], t, i + w, j);
      assert t[i..j] == t[i..i + w] + t[i + w..j];
    }
  }

  lemma {:induction false} CleanHasNoMark(runes: seq<Rune>)
    requires Clean(Bytes(runes))
    ensures REPLACEMENT !in runes
  {
    if runes != [] {
      var h, bs := Encode(runes[0]), Bytes(runes);
      if runes[0] == REPLACEMENT {
        assert MarkAt(bs, 0);
        assert false;
      }
      CleanPart(bs, |h|, |bs|);
      assert bs[|h|..|bs|] == Bytes(runes[1..]);
      CleanHasNoMark(runes[1..]);
    }
  }

  lemma {:induction false} BranchSound(e: Engine, subs: seq<Regex>, k: nat, t: Text, i: nat, j: nat)
    requires k < |subs| && Match(e, subs[k], t, i, j) && i <= |t|
    requires BranchLeads(subs).0 && AllClean(BranchLeads(subs).1)
    ensures Begins(BranchLeads(subs).1, t, i)
    decreases subs, 1
  {
    var l, rest := LeadsOf(subs[0]), BranchLeads(subs[1..]).1;
    assert forall x :: x in l ==> x in l + rest;
    assert forall x :: x in rest ==> x in l + rest;
    if k == 0 {
      LeadsBegin(e, subs[0], t, i, j);
    } else {
      assert subs[1..][k - 1] == subs[k];
      BranchSound(e, subs[1..], k - 1, t, i, j);
    }
  }

  lemma PrefixedSound(head: Text, tails: seq<Text>, t: Text, i0: nat, i: nat)
    requires i0 <= i <= |t| && head == t[i0..i] && Begins(tails, t, i)
    ensures Begins(Prefixed(head, tails), t, i0)
  {
    var l :| l in tails && l <= t[i..];
    var k :| 0 <= k < |tails| && tails[k] == l;
    assert Prefixed(head, tails)[k] == head + l;
    assert t[i0..] == head + t[i..];
    assert head + l in Prefixed(head, tails) && head + l <= t[i0..];
  }

  lemma PrefixedClean(head: Text, tails: seq<Text>)
    requires AllClean(Prefixed(head, tails))
    ensures AllClean(tails)
  {
    forall l | l in tails ensures Clean(l) {
      var k :| 0 <= k < |tails| && tails[k] == l;
      assert Prefixed(head, tails)[k] == head + l;
      CleanPart(head + l, |head|, |head + l|);
      assert (head + l)[|head|..|head + l|] == l;
    }
  }

  lemma HeadBegins(head: Text, t: Text, i0: nat, i: nat)
    requires i0 <= i <= |t| && head == t[i0..i]
    ensures LeadOrNil(head) != [] ==> Begins(LeadOrNil(head), t, i0)
  {
    if head != [] {
      assert head in LeadOrNil(head) && head <= t[i0..];
    }
  }

  lemma HeadGrows(e: Engine, head: Text, runes: seq<Rune>, t: Text, i0: nat, i: nat, m: nat)
    requires i0 <= i <= |t| && head == t[i0..i] && Spells(e, runes, false, t, i, m) && Clean(head + Bytes(runes))
    ensures i <= m <= |t| && head + Bytes(runes) == t[i0..m]
  {
    var both := head + Bytes(runes);
    CleanPart(both, |head|, |both|);
    assert both[|head|..|both|] == Bytes(runes);
    CleanHasNoMark(runes);
    NoMarkSound(e, runes, t, i, m);
    assert t[i0..m] == t[i0..i] + t[i..m];
  }

  /** A concatenation whose head the text has spelt out so far. */
  lemma {:induction false} ConcatSound(e: Engine, head: Text, subs: seq<Regex>, t: Text, i0: nat, i: nat, j: nat)
    requires i0 <= i <= |t| && head == t[i0..i] && InTurn(e, subs, t, i, j)
    requires ConcatLeads(head, subs) != [] && AllClean(ConcatLeads(head, subs))
    ensures Begins(ConcatLeads(head, subs), t, i0)
    decreases subs, 1
  {
    HeadBegins(head, t, i0, i);
    if subs != [] {
      var m: nat :| Match(e, subs[0], t, i, m) && InTurn(e, subs[1..], t, m, j);
      if Skipped(subs[0]) {
        ConcatSound(e, head, subs[1..], t, i0, m, j);
      } else if subs[0].Literal? && !subs[0].fold {
        HeadClean(head + Bytes(subs[0].runes), subs[1..]);
        HeadGrows(e, head, subs[0].runes, t, i0, i, m);
        ConcatSound(e, head + Bytes(subs[0].runes), subs[1..], t, i0, m, j);
      } else if (subs[0].Capture? || subs[0].Alternate?) && LeadsOf(subs[0]) != [] {
        PrefixedClean(head, LeadsOf(subs[0]));
        LeadsBegin(e, subs[0], t, i, m);
        PrefixedSound(head, LeadsOf(subs[0]), t, i0, i);
      }
    }
  }

  /** The head is part of every lead it ends up in. */
  lemma {:induction false} HeadClean(head: Text, subs: seq<Regex>)
    requires ConcatLeads(head, subs) != [] && AllClean(ConcatLeads(head, subs))
    ensures Clean(head)
    decreases subs
  {
    if subs == [] {
      assert head in LeadOrNil(head);
    } else if Skipped(subs[0]) {
      HeadClean(head, subs[1..]);
    } else if subs[0].Literal? && !subs[0].fold {
      var both := head + Bytes(subs[0].runes);
      HeadClean(both, subs[1..]);
      CleanPart(both, 0, |head|);
      assert both[0..|head|] == head;
    } else if (subs[0].Capture? || subs[0].Alternate?) && LeadsOf(subs[0]) != [] {
      var l := Prefixed(head, LeadsOf(subs[0]))[0];
      assert l in Prefixed(head, LeadsOf(subs[0]));
      CleanPart(l, 0, |head|);
      assert l[0..|head|] == head;
    } else {
      assert head in LeadOrNil(head);
    }
  }

  lemma {:induction false} LeadsBegin(e: Engine, re: Regex, t: Text, i: nat, j: nat)
    requires Match(e, re, t, i, j) && i <= |t|
    requires LeadsOf(re) != [] && AllClean(LeadsOf(re))
    ensures Begins(LeadsOf(re), t, i)
    decreases re, 1
  {
    match re
    case Capture(sub) => LeadsBegin(e, sub, t, i, j);
    case Literal(runes, _) =>
      assert Bytes(runes) in LeadsOf(re);
      CleanHasNoMark(runes);
      NoMarkSound(e, runes, t, i, j);
      assert Bytes(runes) <= t[i..];
    case Alternate(subs) =>
      var k :| 0 <= k < |subs| && Match(e, subs[k], t, i, j);
      BranchSound(e, subs, k, t, i, j);
    case Concat(subs) => ConcatSound(e, [], subs, t, i, i, j);
    case _ => assert false;
  }

  /** No literal of the tree is empty, as the parser sees to. */
  ghost predicate Parsed(re: Regex) {
    match re
    case Literal(runes, _) => runes != []
    case Repeat(sub, _, _) => Parsed(sub)
    case Capture(sub) => Parsed(sub)
    case Concat(subs) => forall k :: 0 <= k < |subs| ==> Parsed(subs[k])
    case Alternate(subs) => forall k :: 0 <= k < |subs| ==> Parsed(subs[k])
    case _ => true
  }

  ghost predicate NoneEmpty(ls: seq<Text>) {
    forall l :: l in ls ==> l != []
  }

  /** So no lead is empty, and every one has a first byte to be filed under. */
  lemma {:induction false} LeadsHaveBytes(re: Regex)
    requires Parsed(re)
    ensures NoneEmpty(LeadsOf(re))
    decreases re, 1
  {
    match re
    case Capture(sub) => LeadsHaveBytes(sub);
    case Alternate(subs) => BranchesHaveBytes(subs);
    case Concat(subs) => ConcatHasBytes([], subs);
    case _ =>
  }

  lemma {:induction false} BranchesHaveBytes(subs: seq<Regex>)
    requires forall k :: 0 <= k < |subs| ==> Parsed(subs[k])
    ensures NoneEmpty(BranchLeads(subs).1)
    decreases subs, 1
  {
    if subs != [] {
      LeadsHaveBytes(subs[0]);
      BranchesHaveBytes(subs[1..]);
    }
  }

  lemma PrefixedHasBytes(head: Text, tails: seq<Text>)
    requires NoneEmpty(tails)
    ensures NoneEmpty(Prefixed(head, tails))
  {
    forall l | l in Prefixed(head, tails) ensures l != [] {
      var k :| 0 <= k < |tails| && Prefixed(head, tails)[k] == l;
      assert tails[k] in tails;
    }
  }

  lemma {:induction false} ConcatHasBytes(head: Text, subs: seq<Regex>)
    requires forall k :: 0 <= k < |subs| ==> Parsed(subs[k])
    ensures NoneEmpty(ConcatLeads(head, subs))
    decreases subs, 1
  {
    if subs != [] {
      LeadsHaveBytes(subs[0]);
      ConcatHasBytes(head, subs[1..]);
      if subs[0].Literal? {
        ConcatHasBytes(head + Bytes(subs[0].runes), subs[1..]);
      }
      PrefixedHasBytes(head, LeadsOf(subs[0]));
    }
  }

  // When a pattern has leads, and which, read off the tree alone.

  /** It matches nothing but the place it stands at, and a lead may stand behind it. */
  predicate Passed(re: Regex) {
    match re
    case EmptyMatch => true
    case Assert(BeginLine) => true
    case Assert(BeginText) => true
    case Assert(WordBoundary) => true
    case Assert(NoWordBoundary) => true
    case _ => false
  }

  /** Its first part past the assertions is one of the three a lead is read from. */
  ghost predicate FixedAt(subs: seq<Regex>, k: nat) {
    && k < |subs| && (forall j :: 0 <= j < k ==> Passed(subs[j]))
    && (subs[k].Literal? || subs[k].Capture? || subs[k].Alternate?)
  }

  /** Every match of `re` has fixed first bytes: it is a literal of one case, captures such a tree, has such
      branches only, or is a concatenation whose first part past the assertions is such a tree. */
  ghost predicate Fixed(re: Regex) {
    match re
    case Literal(_, fold) => !fold
    case Capture(sub) => Fixed(sub)
    case Alternate(subs) => subs != [] && forall k :: 0 <= k < |subs| ==> Fixed(subs[k])
    case Concat(subs) => exists k: nat :: FixedAt(subs, k) && Fixed(subs[k])
    case _ => false
  }

  /** `l` is what some way through `re` must begin with. */
  ghost predicate Starts(re: Regex, l: Text)
    decreases re, 0
  {
    match re
    case Literal(runes, fold) => !fold && l == Bytes(runes)
    case Capture(sub) => Starts(sub, l)
    case Alternate(subs) => exists k :: 0 <= k < |subs| && Starts(subs[k], l)
    case Concat(subs) => l != [] && StartsInTurn(subs, l)
    case _ => false
  }

  /** The literals at the front, and what the first group after them must begin with. */
  ghost predicate StartsInTurn(subs: seq<Regex>, l: Text)
    decreases subs, 0
  {
    if subs == [] then l == []
    else if Passed(subs[0]) then StartsInTurn(subs[1..], l)
    else if subs[0].Literal? && !subs[0].fold then
      var h := Bytes(subs[0].runes);
      h <= l && StartsInTurn(subs[1..], l[|h|..])
    else if (subs[0].Capture? || subs[0].Alternate?) && Fixed(subs[0]) then Starts(subs[0], l)
    else l == []
  }

  lemma {:induction false} BranchesAreStarts(subs: seq<Regex>)
    requires forall k :: 0 <= k < |subs| ==> Parsed(subs[k])
    ensures var fixed := forall k :: 0 <= k < |subs| ==> Fixed(subs[k]);
      && (BranchLeads(subs).0 <==> fixed)
      && (BranchLeads(subs).1 != [] <==> fixed && subs != [])
      && forall l :: l in BranchLeads(subs).1 <==> fixed && exists k :: 0 <= k < |subs| && Starts(subs[k], l)
    decreases subs, 1
  {
    if subs != [] {
      LeadsAreStarts(subs[0]);
      BranchesAreStarts(subs[1..]);
      var fixed := forall k :: 0 <= k < |subs| ==> Fixed(subs[k]);
      assert (forall k :: 0 <= k < |subs[1..]| ==> Fixed(subs[1..][k])) && Fixed(subs[0]) ==> fixed by {
        forall k | 0 < k < |subs| ensures subs[k] == subs[1..][k - 1] {
        }
      }
      forall l ensures (exists k :: 0 <= k < |subs| && Starts(subs[k], l))
          <==> Starts(subs[0], l) || exists k :: 0 <= k < |subs[1..]| && Starts(subs[1..][k], l) {
        forall k | 0 < k < |subs| ensures subs[k] == subs[1..][k - 1] {
        }
      }
    }
  }

  /** The head is at the front of every lead. */
  ghost predicate StartsAfter(head: Text, subs: seq<Regex>, l: Text) {
    l != [] && head <= l && StartsInTurn(subs, l[|head|..])
  }

  ghost predicate FixedPast(subs: seq<Regex>) {
    exists k: nat :: FixedAt(subs, k) && Fixed(subs[k])
  }

  lemma FixedPastPassed(subs: seq<Regex>)
    requires subs != [] && Passed(subs[0])
    ensures FixedPast(subs) <==> FixedPast(subs[1..])
  {
    if k: nat :| FixedAt(subs, k) && Fixed(subs[k]) {
      assert forall j :: 0 <= j < k - 1 ==> subs[1..][j] == subs[j + 1];
      assert FixedAt(subs[1..], k - 1) && Fixed(subs[1..][k - 1]);
    }
    if k: nat :| FixedAt(subs[1..], k) && Fixed(subs[1..][k]) {
      forall j | 0 < j < k + 1 ensures Passed(subs[j]) {
        assert Passed(subs[1..][j - 1]);
      }
      assert FixedAt(subs, k + 1) && Fixed(subs[k + 1]);
    }
  }

  lemma FixedPastOther(subs: seq<Regex>)
    requires subs != [] && !Passed(subs[0])
    ensures FixedPast(subs) <==> FixedAt(subs, 0) && Fixed(subs[0])
  {
  }

  lemma HeadOnly(head: Text)
    ensures forall l :: l in LeadOrNil(head) <==> l != [] && head <= l && l[|head|..] == []
  {
    forall l | head <= l && l[|head|..] == [] ensures l == head {
    }
  }

  lemma LiteralStarts(head: Text, h: Text, l: Text)
    ensures head + h <= l <==> head <= l && h <= l[|head|..]
    ensures head + h <= l ==> l[|head + h|..] == l[|head|..][|h|..]
  {
    if head <= l && h <= l[|head|..] {
      assert l == head + l[|head|..] && l[|head|..] == h + l[|head|..][|h|..];
      assert l == (head + h) + l[|head|..][|h|..];
    }
    if head + h <= l {
      assert l == (head + h) + l[|head + h|..];
      assert l[..|head|] == head && l[|head|..][..|h|] == h;
    }
  }

  lemma PrefixedIs(head: Text, tails: seq<Text>)
    ensures forall l :: l in Prefixed(head, tails) <==> head <= l && l[|head|..] in tails
  {
    forall l ensures l in Prefixed(head, tails) <==> head <= l && l[|head|..] in tails {
      if l in Prefixed(head, tails) {
        var k :| 0 <= k < |tails| && Prefixed(head, tails)[k] == l;
        assert l[|head|..] == tails[k];
      }
      if head <= l && l[|head|..] in tails {
        var k :| 0 <= k < |tails| && tails[k] == l[|head|..];
        assert Prefixed(head, tails)[k] == l;
      }
    }
  }

  lemma {:induction false} ConcatIsStarts(head: Text, subs: seq<Regex>)
    requires forall k :: 0 <= k < |subs| ==> Parsed(subs[k])
    ensures forall l :: l in ConcatLeads(head, subs) <==> StartsAfter(head, subs, l)
    ensures ConcatLeads(head, subs) != [] <==> head != [] || FixedPast(subs)
    decreases subs, 1
  {
    HeadOnly(head);
    if subs != [] {
      if Passed(subs[0]) {
        FixedPastPassed(subs);
        ConcatIsStarts(head, subs[1..]);
      } else {
        FixedPastOther(subs);
        if subs[0].Literal? && !subs[0].fold {
          var h := Bytes(subs[0].runes);
          ConcatIsStarts(head + h, subs[1..]);
          forall l ensures StartsAfter(head + h, subs[1..], l) <==> StartsAfter(head, subs, l) {
            LiteralStarts(head, h, l);
          }
        } else if subs[0].Capture? || subs[0].Alternate? {
          LeadsAreStarts(subs[0]);
          LeadsHaveBytes(subs[0]);
          PrefixedIs(head, LeadsOf(subs[0]));
        }
      }
    }
  }

  /** A parsed pattern has leads exactly when its tree has fixed first bytes, and they are just what its ways
      through begin with. */
  lemma {:induction false} LeadsAreStarts(re: Regex)
    requires Parsed(re)
    ensures LeadsOf(re) != [] <==> Fixed(re)
    ensures forall l :: l in LeadsOf(re) <==> Fixed(re) && Starts(re, l)
    decreases re, 1
  {
    match re
    case Capture(sub) => LeadsAreStarts(sub);
    case Alternate(subs) => BranchesAreStarts(subs);
    case Concat(subs) => ConcatIsStarts([], subs);
    case _ =>
  }

  /** Nothing a way through it begins with has U+FFFD in it. */
  ghost predicate Doubtless(re: Regex) {
    forall l :: Starts(re, l) ==> Clean(l)
  }

  /** Of a pattern with fixed first bytes every match begins with one of them: its leads never drop a match. */
  lemma LeadsSound(e: Engine, re: Regex, t: Text, i: nat, j: nat)
    requires Parsed(re) && Fixed(re) && Doubtless(re) && Match(e, re, t, i, j) && i <= |t|
    ensures exists l :: l in LeadsOf(re) && Starts(re, l) && l <= t[i..]
  {
    LeadsAreStarts(re);
    LeadsBegin(e, re, t, i, j);
  }

  // Where a lead does drop a match.

  /** The text an unreadable byte stands in for each U+FFFD of. */
  function Misread(runes: seq<Rune>): Text {
    if runes == [] then [] else (if runes[0] == REPLACEMENT then [0xFF] else Encode(runes[0])) + Misread(runes[1..])
  }

  lemma MisreadMark(runes: seq<Rune>, t: Text, i: nat)
    requires runes != [] && runes[0] == REPLACEMENT && i <= |t| && t[i..] == Misread(runes)
    ensures i < |t| && Decode(t, i) == Read(REPLACEMENT, 1) && t[i + 1..] == Misread(runes[1..])
  {
    hide Encode;
    assert t[i] == t[i..][0] == 0xFF;
    assert t[i + 1..] == t[i..][1..] == Misread(runes[1..]);
  }

  lemma MisreadRune(runes: seq<Rune>, t: Text, i: nat)
    requires runes != [] && runes[0] != REPLACEMENT && IsScalar(runes[0]) && i <= |t| && t[i..] == Misread(runes)
    ensures i < |t| && Decode(t, i).rune == runes[0] && t[i + Decode(t, i).width..] == Misread(runes[1..])
  {
    hide Decode, Encode, IsScalar;
    assert Misread(runes) == Encode(runes[0]) + Misread(runes[1..]);
    EncodedDecodes(runes[0], t, i);
    assert t[i + |Encode(runes[0])|..] == t[i..][|Encode(runes[0])|..] == Misread(runes[1..]);
  }

  lemma {:induction false} MisreadMatches(e: Engine, runes: seq<Rune>, t: Text, i: nat)
    requires (forall r :: r in runes ==> IsScalar(r)) && i <= |t| && t[i..] == Misread(runes)
    ensures Spells(e, runes, false, t, i, |t|)
  {
    hide Encode, IsScalar;
    if runes != [] {
      if runes[0] == REPLACEMENT {
        MisreadMark(runes, t, i);
      } else {
        MisreadRune(runes, t, i);
      }
      MisreadMatches(e, runes[1..], t, i + Decode(t, i).width);
    }
  }

  lemma {:induction false} MisreadDiffers(runes: seq<Rune>)
    requires REPLACEMENT in runes
    ensures !(Bytes(runes) <= Misread(runes))
  {
    if runes[0] == REPLACEMENT {
      assert Bytes(runes)[0] == 0xEF && Misread(runes)[0] == 0xFF;
    } else {
      MisreadDiffers(runes[1..]);
      PrefixTail(Encode(runes[0]), Bytes(runes[1..]), Misread(runes[1..]));
    }
  }

  lemma PrefixTail(h: Text, a: Text, b: Text)
    ensures h + a <= h + b ==> a <= b
  {
    if h + a <= h + b {
      assert forall k :: 0 <= k < |a| ==> a[k] == (h + a)[|h| + k] == (h + b)[|h| + k] == b[k];
    }
  }

  ghost predicate NeverDropped(e: Engine, re: Regex) {
    forall t, i: nat, j: nat :: i <= |t| && Match(e, re, t, i, j) ==> Begins(LeadsOf(re), t, i)
  }

  /** A literal pattern's lead drops no match exactly when the literal has no U+FFFD in it: that one rune
      an unreadable byte matches too, and such a byte is not in the lead. */
  lemma LiteralDropsNoneIff(e: Engine, runes: seq<Rune>)
    requires forall r :: r in runes ==> IsScalar(r)
    ensures NeverDropped(e, Literal(runes, false)) <==> REPLACEMENT !in runes
  {
    var re := Literal(runes, false);
    if REPLACEMENT in runes {
      var t := Misread(runes);
      assert t[0..] == t;
      MisreadMatches(e, runes, t, 0);
      MisreadDiffers(runes);
      assert Match(e, re, t, 0, |t|) && !Begins(LeadsOf(re), t, 0);
    } else {
      forall t: Text, i: nat, j: nat | i <= |t| && Match(e, re, t, i, j) ensures Begins(LeadsOf(re), t, i) {
        NoMarkSound(e, runes, t, i, j);
        assert Bytes(runes) <= t[i..] && Bytes(runes) in LeadsOf(re);
      }
    }
  }
}
